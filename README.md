# GrowIQ farm dashboard: page state and field classification

This project models the logic of GrowIQ's two page components:

- **The dashboard page** (`src/components/MainDashboard.tsx`) holds four pieces of state: the farm snapshot, a loading flag, an error text and the view state. It fetches the snapshot once. On any failure it substitutes a bundled twelve-field snapshot and records a "CORS Error:" message. It switches between the dashboard and a field's detail page, and picks the screen to draw in a fixed order. Its field cards classify each reading into a colour band, show a low-moisture badge, clamp the growth bar, show the next task, and look up the crop's emoji.
- **The field detail page** (`src/components/FieldDetailPage.tsx`) is a pure rendering of one field. It has its own copies of the colour helpers, the clamp and the emoji table. It adds a sentence for each reading and a numbered care timeline whose first step is the current priority.

Modules:

- `Farm`: the record types, the colour and sentence enums, and the bar clamp.
- `Text`: the decimal numeral for an HTTP status, with its inverse.
- `FieldDetailPage`: the detail page.
- `MainDashboard`: the card helpers, the bundled snapshot, the fetch outcome, screen selection and the `Page` class.
- `Agreement`: lemmas showing that the two files' copies agree and that each sentence band matches its colour band.

Readings are `real`. Colours and sentences are enums.

The page's state lives in the class `MainDashboard.Page`. Its invariant `Valid()` says that whenever an error is recorded, a snapshot is stored too. The constructor establishes this, and `FetchData`, `NavigateToField` and `NavigateToHome` preserve it. As a result, `CurrentScreen()` never returns the error-with-retry screen.

The model keeps the code's JavaScript semantics where they decide an edge case:

- **Error screen.** It appears when the error text is truthy and there is no snapshot. An empty error string counts as no error.
- **Next task.** The "Next Tasks" line falls back to "No tasks scheduled" when the list is empty. It also falls back when the first instruction is the empty string.
- **Status pill.** It shows "No status available" when there is no snapshot and also when the snapshot's message is empty.
- **View state.** It is the record `{ page, selectedField? }`. If the page is `field-detail` with no selected field, the dashboard is shown.
- **One fetch.** The page fetches once, on mount, and nothing else triggers a refresh.
- **Moisture band.** Readings are reals, so the middle moisture band is `40 <= v < 60`.

## Model

| member | source | states |
|---|---|---|
| `MainDashboard.Page.constructor` | src/components/MainDashboard.tsx:32-35 | The page starts with no snapshot, loading, no error, and the dashboard with no selected field. The loading screen is shown. |
| `MainDashboard.Page.FetchData` | src/components/MainDashboard.tsx:38-222 | Success stores the received snapshot and clears the error. Any failure stores the bundled snapshot and the matching "CORS Error:" message. Either way loading ends and the view is untouched. Afterwards an error implies a snapshot, so neither the loading screen nor the retry screen can appear. |
| `MainDashboard.Page.NavigateToField` | src/components/MainDashboard.tsx:227-229 | From any state, the view becomes field-detail with the given field. The snapshot, loading flag and error are unchanged. Once loaded, the screen is that field's detail page. |
| `MainDashboard.Page.NavigateToHome` | src/components/MainDashboard.tsx:231-233 | From any state, the view becomes the dashboard with no field. Nothing else changes. Once loaded, the dashboard is shown. |
| `MainDashboard.Page.CurrentScreen` | src/components/MainDashboard.tsx:235-268 | While the page invariant holds, the chosen screen is never the error-with-retry screen. |
| `MainDashboard.SelectScreen` | src/components/MainDashboard.tsx:235-268 | Fixed priority. Loading wins over everything. Next is the error screen, exactly when the error is truthy and there is no snapshot. The detail page shows exactly when the page is field-detail and a field is selected. Otherwise the dashboard shows. |
| `MainDashboard.RetryScreenUnreachable` | src/components/MainDashboard.tsx:246 | If every error comes with a snapshot, the retry screen is never chosen. |
| `MainDashboard.Dashboard` | src/components/MainDashboard.tsx:268-306 | One card per field, in order. There is no card list exactly when there is no snapshot. The status pill shows the snapshot's message when it is non-empty, and "No status available" when there is no snapshot or the message is empty. The CORS notice shows exactly when the error is truthy. |
| `MainDashboard.TryFetch` | src/components/MainDashboard.tsx:39-61 | The fetch succeeds exactly when a response arrives with a status from 200 to 299 and a parsed body. A rejected request passes on its exception. A non-ok status throws an HTTP error naming the status. An ok status with a malformed body passes on the exception `response.json()` threw. |
| `MainDashboard.HttpErrorMessage` | src/components/MainDashboard.tsx:54-56 | The message starts with "HTTP error! status: " and is followed by a numeral that reads back as the status. |
| `MainDashboard.CorsMessage` | src/components/MainDashboard.tsx:218 | The recorded error always starts with "CORS Error:". It carries the exception's message, or "API blocked by browser" when the exception is not an `Error`. |
| `MainDashboard.LiveDataFieldIds` | src/components/MainDashboard.tsx:66-215 | The bundled snapshot has twelve fields, with ids F1 to F12 in order. |
| `MainDashboard.WaterColor` | src/components/MainDashboard.tsx:312-318 | Red iff below 40. Yellow iff in [40, 60). Emerald iff at least 60. |
| `MainDashboard.TempColor` | src/components/MainDashboard.tsx:319-323 | Sky iff below 15. Red iff above 33. Emerald iff in [15, 33], so 15 and 33 are both emerald. |
| `MainDashboard.HumidityColor` | src/components/MainDashboard.tsx:324-326 | Blue iff above 80. |
| `MainDashboard.LowMoistureBadge` | src/components/MainDashboard.tsx:329 | The badge shows iff moisture is below 40, which is exactly when the moisture colour is red. |
| `Farm.BarWidth` | src/components/MainDashboard.tsx:358 | The bar width never exceeds 100 or the progress. It equals the progress exactly when the progress is at most 100, and is 100 otherwise. |
| `MainDashboard.NextTask` | src/components/MainDashboard.tsx:393 | The first instruction when it is non-empty. Otherwise "No tasks scheduled". The result is never empty. |
| `MainDashboard.CropEmoji` | src/components/MainDashboard.tsx:440-459 | Restored table. A listed crop gets its emoji and any other name gets the herb. The result is never empty. |
| `MainDashboard.CropEmojiAsWritten` | src/components/MainDashboard.tsx:440-459 | The table as stored in the file. Every result, listed crop or default, starts with U+011F U+0178, which is mojibake rather than an emoji. |
| `MainDashboard.Card` | src/components/MainDashboard.tsx:310-406 | With the restored emoji table: each of the card's colours is its helper's band for the field's reading. The badge shows iff moisture is below 40, exactly when the moisture colour is red. The bar is drawn to `BarWidth` of the progress while the shown percentage and day count stay unclamped. The next-task line is `NextTask` of the timeline, so an empty timeline shows "No tasks scheduled". |
| `Text.Decimal` | src/components/MainDashboard.tsx:55 | The status numeral is non-empty, contains only digits, and has no leading zero. |
| `Text.DecimalRoundTrip` | src/components/MainDashboard.tsx:55 | Reading the status numeral back gives the status. |
| `Text.DecimalInjective` | src/components/MainDashboard.tsx:55 | Distinct statuses give distinct numerals. |
| `FieldDetailPage.WaterColor` | src/components/FieldDetailPage.tsx:22-28 | Red iff below 40. Yellow iff in [40, 60). Emerald iff at least 60. |
| `FieldDetailPage.TempColor` | src/components/FieldDetailPage.tsx:30-34 | Sky iff below 15. Red iff above 33. Emerald iff in [15, 33]. |
| `FieldDetailPage.HumidityColor` | src/components/FieldDetailPage.tsx:36-38 | Blue iff above 80. |
| `FieldDetailPage.LowMoistureAlert` | src/components/FieldDetailPage.tsx:40 | The alert shows iff moisture is below 40, which is exactly when the moisture colour is red. |
| `FieldDetailPage.MoistureText` | src/components/FieldDetailPage.tsx:116-118 | "Low" iff below 40. "Moderate" iff in [40, 60). "Good" iff at least 60. |
| `FieldDetailPage.TemperatureText` | src/components/FieldDetailPage.tsx:128-130 | "Cool" iff below 15. "High" iff above 33. "Optimal" iff in [15, 33]. |
| `FieldDetailPage.HumidityText` | src/components/FieldDetailPage.tsx:140 | "High humidity" iff above 80. |
| `FieldDetailPage.CropEmoji` | src/components/FieldDetailPage.tsx:201-220 | A listed crop gets its table entry. Any other name gets the herb. |
| `FieldDetailPage.DefaultEmojiOnlyForUnlisted` | src/components/FieldDetailPage.tsx:201-220 | The herb appears iff the crop is not listed, because no listed crop maps to it. |
| `FieldDetailPage.Timeline` | src/components/FieldDetailPage.tsx:150-162 | There is one step per instruction, in the original order. Step i is numbered i+1 and is marked current priority iff i = 0. |
| `FieldDetailPage.ExactlyOneCurrentPriority` | src/components/FieldDetailPage.tsx:150-158 | A non-empty timeline marks exactly one step as current priority, the first. An empty timeline marks none. |
| `FieldDetailPage.View` | src/components/FieldDetailPage.tsx:20-185 | Each colour and each sentence is its helper's band for the field's reading. The alert shows iff moisture is below 40, exactly when the moisture colour is red. The bar is drawn to `BarWidth` of the progress while the shown percentage is not clamped. The timeline is `Timeline` of the instructions: numbered from 1, in order, the first marked current. |
| `Agreement.ColorHelpersAgree` | src/components/FieldDetailPage.tsx:22-38 | The detail page's three colour helpers give the same colour as the card's, for every reading. |
| `Agreement.LowMoistureAgrees` | src/components/FieldDetailPage.tsx:40 | The detail page's alert and the card's badge show for the same fields. |
| `Agreement.NotesMatchColorBands` | src/components/FieldDetailPage.tsx:116-140 | Each moisture, temperature and humidity sentence names the band its colour shows. |
| `Agreement.CardMatchesDetail` | src/components/FieldDetailPage.tsx:82 | For any field, the card and the detail page agree on colours, low moisture and bar width, and, with the restored emoji table, on the emoji. As written the emoji never agree (see Findings). |
| `Agreement.CropEmojiAgrees` | src/components/FieldDetailPage.tsx:201-220 | For every crop name, the restored dashboard lookup (`\|\|`) equals the detail page's lookup (`??`). |
| `Agreement.CropEmojiAsWrittenDiffers` | src/components/MainDashboard.tsx:440-459 | For every crop name, the dashboard lookup as written differs from the detail page's. |
| `Agreement.NextTaskIsCurrentPriority` | src/components/FieldDetailPage.tsx:150-158 | When the first instruction is non-empty, the card's next-task line is the step the detail page marks as current priority. |

## Findings

| source | as written | input that shows it | evidently intended | confidence | as-written member | corrected member |
|---|---|---|---|---|---|---|
| src/components/MainDashboard.tsx:440-459 | Every emoji in the card's crop table and its default is stored as mojibake. The emoji's UTF-8 bytes were decoded as Windows-1254 and saved again, so Wheat is the four characters U+011F U+0178 U+0152 U+00BE ("ğŸŒ¾"). Bytes that Windows-1254 leaves undefined were dropped: 0x8D in Tomato and Millet, and 0x8F of the variation selector U+FE0F in Chilli, whose entry ends U+00EF U+00B8. Those three cannot be decoded back. | The crop "Wheat" gives "ğŸŒ¾" on the card and U+1F33E on the detail page. | The same table as src/components/FieldDetailPage.tsx:202-219. | not executed; read from the file's bytes | `MainDashboard.CropEmojiAsWritten`, shown by `Agreement.CropEmojiAsWrittenDiffers` | `MainDashboard.CropEmoji`, proved equal to the detail page's lookup by `Agreement.CropEmojiAgrees` and used by `MainDashboard.Card` |

## Left out

- The HTTP request, the CORS mode, JSON parsing and console logging are I/O. Their result is the parameter `FetchOutcome` of `Page.FetchData`.
- A parsed body is taken to have the snapshot's shape. The source casts whatever `response.json()` returns without checking it.
- React's hooks, the `useEffect` scheduling and the `await` suspension points are framework and concurrency plumbing. `FetchData` is one atomic step, so the intermediate `setLoading(true)` and `setError(null)` are never rendered.
- The Retry button's `window.location.reload()` is a browser side effect.
- `formatDate`, the header's `toLocaleString` and the harvest date fields depend on the `Date` and `Intl` locale library.
- `daysToHarvest` reads the wall clock and uses floating-point division with `Math.ceil`.
- Markup and styling are left out: Tailwind class strings, the `Stat` component, the header emoji, and the "°C" and arrow text. Those strings in MainDashboard.tsx carry the same mojibake as the crop table. Colours and sentences are enum values.
- The detail page accepts a numeric `field_id`. The model keeps the dashboard's string id.
- Readings are reals: NaN and the infinities are not modelled. With NaN, every comparison is false, so each helper would give its last band.
- MainDashboard.CropEmoji: it does not model names inherited from `Object.prototype` (`toString`, `constructor`, ...). For those, the source's lookup returns an inherited property, not the herb.
- FieldDetailPage.CropEmoji: same as above; names inherited from `Object.prototype` are not modelled.
- The chat assistant, its keyword fallback responder and its endpoint are not part of this model.
