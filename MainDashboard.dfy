/**
 * The dashboard page: its state (the snapshot, the loading flag, the error text
 * and the view state), the one fetch that fills it, the two navigation actions,
 * the fixed order in which the screen to show is chosen, and the field card the
 * dashboard draws for each field with its colour helpers and emoji lookup.
 */
module MainDashboard {
  import opened Farm
  import opened Text
  import FieldDetailPage

  // ---- Field card helpers ----

  /** Moisture badge colour: red below 40, yellow from 40 up to 60, emerald from 60. */
  function WaterColor(val: real): (c: WaterTone)
    ensures c == WaterRed <==> val < 40.0
    ensures c == WaterYellow <==> 40.0 <= val < 60.0
    ensures c == WaterEmerald <==> 60.0 <= val
  {
    if val < 40.0 then WaterRed
    else if val < 60.0 then WaterYellow
    else WaterEmerald
  }

  /** Temperature colour: sky below 15, red above 33, emerald in between, ends included. */
  function TempColor(val: real): (c: TempTone)
    ensures c == TempSky <==> val < 15.0
    ensures c == TempRed <==> 33.0 < val
    ensures c == TempEmerald <==> 15.0 <= val <= 33.0
  {
    if val < 15.0 then TempSky
    else if val > 33.0 then TempRed
    else TempEmerald
  }

  /** Humidity colour: blue above 80, emerald otherwise. */
  function HumidityColor(val: real): (c: HumidityTone)
    ensures c == HumidityBlue <==> 80.0 < val
  {
    if val > 80.0 then HumidityBlue else HumidityEmerald
  }

  /** Whether the card shows the "Low Moisture!" badge. */
  function LowMoistureBadge(field: FieldRecord): (shown: bool)
    ensures shown <==> field.soilMoisture < 40.0
    ensures shown <==> WaterColor(field.soilMoisture) == WaterRed
  {
    field.soilMoisture < 40.0
  }

  const NoTasksScheduled: string := "No tasks scheduled"

  /**
   * The "Next Tasks" line: `timeline[0] || 'No tasks scheduled'`. An empty list
   * and an empty first instruction (a falsy string) both give the fallback text.
   */
  function NextTask(timeline: seq<string>): (line: string)
    ensures line != ""
    ensures |timeline| > 0 && timeline[0] != "" ==> line == timeline[0]
    ensures timeline == [] ==> line == NoTasksScheduled
    ensures line == NoTasksScheduled || line == timeline[0]
  {
    if |timeline| > 0 && timeline[0] != "" then timeline[0] else NoTasksScheduled
  }

  // ---- Crop emoji ----

  /** The emoji the card's lookup table is meant to give each listed crop. */
  const CropEmojis: map<string, string> := map[
    "Wheat" := "\U{1F33E}",
    "Rice" := "\U{1F331}",
    "Maize" := "\U{1F33D}",
    "Barley" := "\U{1F33E}",
    "Soybean" := "\U{1FAD8}",
    "Cotton" := "\U{1F9F5}",
    "Sugarcane" := "\U{1F943}",
    "Potato" := "\U{1F954}",
    "Tomato" := "\U{1F345}",
    "Onion" := "\U{1F9C5}",
    "Chilli" := "\U{1F336}\U{FE0F}",
    "Peas" := "\U{1F957}",
    "Lentils" := "\U{1F7E4}",
    "Millet" := "\U{1F35A}",
    "Groundnut" := "\U{1F95C}"
  ]

  const DefaultEmoji: string := "\U{1F33F}"

  /**
   * `em[crop] || default`: the listed emoji, or the herb for any other name.
   * Unlike the detail page's `??`, an empty entry would also fall back; no entry
   * of the table is empty, so the two agree (see Agreement.CropEmojiAgrees).
   */
  function CropEmoji(crop: string): (e: string)
    ensures e != ""
    ensures crop in CropEmojis ==> e == CropEmojis[crop]
    ensures crop !in CropEmojis ==> e == DefaultEmoji
  {
    if crop in CropEmojis && CropEmojis[crop] != "" then CropEmojis[crop] else DefaultEmoji
  }

  /**
   * The table as the dashboard file stores it: every emoji's UTF-8 bytes were
   * read as Windows-1254 text and saved again, so each entry is a run of Latin
   * letters and punctuation (U+011F U+0178 ...) instead of one pictograph, and
   * bytes Windows-1254 leaves undefined are lost: 0x8D in Tomato and Millet, and
   * 0x8F of the variation selector U+FE0F in Chilli, whose entry ends U+00EF U+00B8.
   */
  const CropEmojisAsWritten: map<string, string> := map[
    "Wheat" := "\U{011F}\U{0178}\U{0152}\U{00BE}",
    "Rice" := "\U{011F}\U{0178}\U{0152}\U{00B1}",
    "Maize" := "\U{011F}\U{0178}\U{0152}\U{00BD}",
    "Barley" := "\U{011F}\U{0178}\U{0152}\U{00BE}",
    "Soybean" := "\U{011F}\U{0178}\U{00AB}\U{02DC}",
    "Cotton" := "\U{011F}\U{0178}\U{00A7}\U{00B5}",
    "Sugarcane" := "\U{011F}\U{0178}\U{00A5}\U{0192}",
    "Potato" := "\U{011F}\U{0178}\U{00A5}\U{201D}",
    "Tomato" := "\U{011F}\U{0178}\U{2026}",
    "Onion" := "\U{011F}\U{0178}\U{00A7}\U{2026}",
    "Chilli" := "\U{011F}\U{0178}\U{0152}\U{00B6}\U{00EF}\U{00B8}",
    "Peas" := "\U{011F}\U{0178}\U{00A5}\U{2014}",
    "Lentils" := "\U{011F}\U{0178}\U{0178}\U{00A4}",
    "Millet" := "\U{011F}\U{0178}\U{0161}",
    "Groundnut" := "\U{011F}\U{0178}\U{00A5}\U{0153}"
  ]

  const DefaultEmojiAsWritten: string := "\U{011F}\U{0178}\U{0152}\U{00BF}"

  /** The dashboard's lookup exactly as written, over the garbled table. */
  function CropEmojiAsWritten(crop: string): (e: string)
    ensures |e| >= 3 && e[0] == '\U{011F}' && e[1] == '\U{0178}'
    ensures crop in CropEmojisAsWritten ==> e == CropEmojisAsWritten[crop]
    ensures crop !in CropEmojisAsWritten ==> e == DefaultEmojiAsWritten
  {
    if crop in CropEmojisAsWritten && CropEmojisAsWritten[crop] != "" then CropEmojisAsWritten[crop]
    else DefaultEmojiAsWritten
  }

  // ---- Field card ----

  /** What a field card shows, apart from the harvest date. */
  datatype CardView = CardView(
    emoji: string,
    lowMoistureBadge: bool,
    barWidth: real,
    progressShown: real,
    daysShown: real,
    waterColor: WaterTone,
    tempColor: TempTone,
    humidityColor: HumidityTone,
    nextTask: string
  )

  function Card(field: FieldRecord): (c: CardView)
    ensures c.lowMoistureBadge <==> c.waterColor == WaterRed
    ensures c.barWidth <= 100.0 && c.barWidth <= c.progressShown
    ensures c.progressShown == field.growthProgress
    ensures c.daysShown == field.daysSincePlanting
    ensures field.timeline == [] ==> c.nextTask == NoTasksScheduled
    ensures c.emoji == CropEmoji(field.cropName)
    ensures c.waterColor == WaterColor(field.soilMoisture)
    ensures c.tempColor == TempColor(field.temperature)
    ensures c.humidityColor == HumidityColor(field.humidity)
    ensures c.lowMoistureBadge <==> field.soilMoisture < 40.0
    ensures c.barWidth == BarWidth(field.growthProgress)
    ensures c.nextTask == NextTask(field.timeline)
  {
    CardView(
      CropEmoji(field.cropName),
      LowMoistureBadge(field),
      BarWidth(field.growthProgress),
      field.growthProgress,
      field.daysSincePlanting,
      WaterColor(field.soilMoisture),
      TempColor(field.temperature),
      HumidityColor(field.humidity),
      NextTask(field.timeline))
  }

  // ---- Bundled fallback snapshot ----

  /** The twelve-field snapshot the page substitutes when the fetch fails. */
  const LiveData: FarmSnapshot := FarmSnapshot(
    "Live field data retrieved successfully.",
    "2025-07-27T03:12:50.877218",
    [
      FieldRecord("F1", "Wheat", "2025-06-27", "2025-10-25", 30.0, 25.0, 82.0, 34.6, 76.0,
        ["Prepare soil", "Sow seeds", "Irrigate every 10 days", "Harvest when golden"]),
      FieldRecord("F2", "Rice", "2025-05-28", "2025-10-25", 60.0, 40.0, 84.0, 27.1, 94.0,
        ["Flood field", "Transplant seedlings", "Maintain water level", "Harvest when golden"]),
      FieldRecord("F3", "Maize", "2025-07-07", "2025-10-05", 20.0, 22.0, 74.0, 33.7, 94.0,
        ["Sow directly", "Weed regularly", "Apply nitrogen", "Harvest when cob hardens"]),
      FieldRecord("F4", "Barley", "2025-06-17", "2025-09-25", 40.0, 40.0, 53.0, 24.6, 65.0,
        ["Sow seeds", "Thin out", "Apply fertilizers", "Harvest when heads are full"]),
      FieldRecord("F5", "Soybean", "2025-06-07", "2025-09-25", 50.0, 45.0, 34.0, 18.9, 47.0,
        ["Sow shallow", "Apply phosphorus", "Monitor pest", "Harvest when pods are dry"]),
      FieldRecord("F6", "Cotton", "2025-04-28", "2025-10-25", 90.0, 50.0, 63.0, 31.0, 54.0,
        ["Sow with spacing", "Spray pesticides", "Prune", "Pick manually"]),
      FieldRecord("F7", "Sugarcane", "2025-01-08", "2025-11-04", 200.0, 66.0, 82.0, 20.1, 72.0,
        ["Plant stalks", "Water frequently", "Remove weeds", "Harvest with machete"]),
      FieldRecord("F8", "Potato", "2025-07-12", "2025-10-10", 15.0, 16.0, 50.0, 24.3, 85.0,
        ["Use seed tubers", "Hill the soil", "Fertilize", "Harvest when leaves yellow"]),
      FieldRecord("F9", "Tomato", "2025-07-17", "2025-10-05", 10.0, 12.0, 40.0, 29.1, 85.0,
        ["Transplant seedlings", "Stake plants", "Fertilize", "Pick ripe fruit"]),
      FieldRecord("F10", "Onion", "2025-07-02", "2025-10-10", 25.0, 25.0, 64.0, 30.1, 57.0,
        ["Broadcast seeds", "Keep dry", "Remove weeds", "Pull when tops fall over"]),
      FieldRecord("F11", "Chilli", "2025-07-09", "2025-10-12", 18.0, 18.0, 47.0, 22.1, 66.0,
        ["Transplant", "Fertilize", "Spray regularly", "Pick red fruits"]),
      FieldRecord("F12", "Peas", "2025-07-15", "2025-10-08", 12.0, 14.0, 43.0, 34.5, 66.0,
        ["Sow directly", "Support with sticks", "Watch for mildew", "Harvest early pods"])
    ])

  /** The bundled snapshot holds twelve fields, F1 to F12 in that order. */
  lemma LiveDataFieldIds()
    ensures |LiveData.fields| == 12
    ensures forall i :: 0 <= i < 12 ==> LiveData.fields[i].fieldId == "F" + Decimal(i + 1)
  {
    forall i | 0 <= i < 12
      ensures LiveData.fields[i].fieldId == "F" + Decimal(i + 1)
    {
      if i >= 9 {
        assert Decimal(i + 1) == Decimal(1) + [DigitChar(i + 1 - 10)];
      }
    }
  }

  // ---- Fetch ----

  /** A value a `throw` produced: an `Error` with its message, or anything else. */
  datatype Thrown = ErrorObject(message: string) | NonErrorValue

  /** What `response.json()` gave: the snapshot, or the exception it threw. */
  datatype Body = Parsed(data: FarmSnapshot) | Malformed(thrown: Thrown)

  /** How the request ended: rejected before a response, or a response with a status and a body. */
  datatype FetchOutcome = Rejected(thrown: Thrown) | Responded(status: nat, body: Body)

  /** What the `try` block leaves for the rest of `fetchData`. */
  datatype FetchResult = Received(data: FarmSnapshot) | Caught(thrown: Thrown)

  /** `response.ok`: a status from 200 to 299. */
  predicate StatusOk(status: nat) {
    200 <= status <= 299
  }

  const HttpErrorPrefix: string := "HTTP error! status: "

  /** The message of the `Error` thrown for a non-ok status; the status reads back from it. */
  function HttpErrorMessage(status: nat): (m: string)
    ensures StartsWith(m, HttpErrorPrefix) && |m| > |HttpErrorPrefix|
    ensures forall i :: |HttpErrorPrefix| <= i < |m| ==> IsDigit(m[i])
    ensures DecimalValue(m[|HttpErrorPrefix|..]) == status
  {
    var m := HttpErrorPrefix + Decimal(status);
    assert m[|HttpErrorPrefix|..] == Decimal(status);
    DecimalRoundTrip(status);
    m
  }

  /** The `try` block: a non-ok status throws an `Error` before the body is read. */
  function TryFetch(outcome: FetchOutcome): (r: FetchResult)
    ensures r.Received? <==> outcome.Responded? && StatusOk(outcome.status) && outcome.body.Parsed?
    ensures r.Received? ==> r.data == outcome.body.data
    ensures outcome.Rejected? ==> r == Caught(outcome.thrown)
    ensures outcome.Responded? && !StatusOk(outcome.status) ==>
      r == Caught(ErrorObject(HttpErrorMessage(outcome.status)))
    ensures outcome.Responded? && StatusOk(outcome.status) && outcome.body.Malformed? ==>
      r == Caught(outcome.body.thrown)
  {
    match outcome
    case Rejected(t) => Caught(t)
    case Responded(status, body) =>
      if !StatusOk(status) then Caught(ErrorObject(HttpErrorMessage(status)))
      else match body
        case Parsed(data) => Received(data)
        case Malformed(t) => Caught(t)
  }

  const CorsPrefix: string := "CORS Error: "

  /** The message the `catch` block records, naming the exception when it is an `Error`. */
  function CorsMessage(thrown: Thrown): (m: string)
    ensures StartsWith(m, "CORS Error:")
    ensures thrown.ErrorObject? ==>
      m == CorsPrefix + thrown.message + ". Using live data from API."
    ensures thrown.NonErrorValue? ==>
      m == CorsPrefix + "API blocked by browser. Using live data from API."
  {
    var detail := match thrown
      case ErrorObject(msg) => msg
      case NonErrorValue => "API blocked by browser";
    CorsPrefix + detail + ". Using live data from API."
  }

  // ---- View state and screen selection ----

  datatype PageKind = DashboardPage | FieldDetailPage

  /** `{ page, selectedField? }`: the screen asked for and the field it shows. */
  datatype ViewState = ViewState(page: PageKind, selectedField: Option<FieldRecord>)

  const Home: ViewState := ViewState(DashboardPage, None)

  /** JavaScript truthiness of the error text: present and not empty. */
  predicate Truthy(error: Option<string>) {
    error.Some? && error.value != ""
  }

  datatype Screen =
    | LoadingScreen
    | ErrorScreen(message: string)
    | DetailScreen(detail: FieldDetailPage.DetailView)
    | DashboardScreen(status: string, corsNotice: bool, cards: Option<seq<CardView>>)

  /**
   * The dashboard itself: the status pill (`farmData?.message || ...`), the CORS
   * notice under it, and one card per field, or no card list at all without data.
   */
  function Dashboard(error: Option<string>, farmData: Option<FarmSnapshot>): (s: Screen)
    ensures s.DashboardScreen?
    ensures s.corsNotice <==> Truthy(error)
    ensures s.cards.Some? <==> farmData.Some?
    ensures farmData.Some? ==> |s.cards.value| == |farmData.value.fields|
    ensures farmData.Some? ==> forall i :: 0 <= i < |s.cards.value| ==>
      s.cards.value[i] == Card(farmData.value.fields[i])
    ensures farmData.Some? && farmData.value.message != "" ==> s.status == farmData.value.message
    ensures farmData.None? || farmData.value.message == "" ==> s.status == "No status available"
  {
    var status := if farmData.Some? && farmData.value.message != "" then farmData.value.message
                  else "No status available";
    var cards := match farmData
      case None => None
      case Some(data) => Some(seq(|data.fields|, i requires 0 <= i < |data.fields| => Card(data.fields[i])));
    DashboardScreen(status, Truthy(error), cards)
  }

  /** The render order: loading, then error without data, then the detail page, then the dashboard. */
  function SelectScreen(loading: bool, error: Option<string>, farmData: Option<FarmSnapshot>, view: ViewState): (s: Screen)
    ensures s.LoadingScreen? <==> loading
    ensures s.ErrorScreen? <==> !loading && Truthy(error) && farmData.None?
    ensures s.ErrorScreen? ==> s.message == error.value
    ensures s.DetailScreen? <==>
      !loading && !(Truthy(error) && farmData.None?) &&
      view.page == FieldDetailPage && view.selectedField.Some?
    ensures s.DetailScreen? ==> s.detail == FieldDetailPage.View(view.selectedField.value)
    ensures s.DashboardScreen? ==> s == Dashboard(error, farmData)
  {
    if loading then LoadingScreen
    else if Truthy(error) && farmData.None? then ErrorScreen(error.value)
    else if view.page == FieldDetailPage && view.selectedField.Some? then
      DetailScreen(FieldDetailPage.View(view.selectedField.value))
    else Dashboard(error, farmData)
  }

  /** Once an error always comes with data, the error-with-retry screen cannot be chosen. */
  lemma RetryScreenUnreachable(loading: bool, error: Option<string>, farmData: Option<FarmSnapshot>, view: ViewState)
    requires error.Some? ==> farmData.Some?
    ensures !SelectScreen(loading, error, farmData, view).ErrorScreen?
  {
  }

  // ---- The page ----

  class Page {
    var farmData: Option<FarmSnapshot>
    var loading: bool
    var error: Option<string>
    var viewState: ViewState

    /** Every path that records an error also stores a snapshot. */
    ghost predicate Valid()
      reads this
    {
      error.Some? ==> farmData.Some?
    }

    /** The initial state: no data, loading, no error, the dashboard with no field. */
    constructor ()
      ensures Valid()
      ensures farmData == None && loading && error == None && viewState == Home
      ensures CurrentScreen() == LoadingScreen
    {
      farmData := None;
      loading := true;
      error := None;
      viewState := Home;
    }

    /** What the component renders for its current state. */
    function CurrentScreen(): (s: Screen)
      reads this
      ensures Valid() ==> !s.ErrorScreen?
    {
      SelectScreen(loading, error, farmData, viewState)
    }

    /**
     * `fetchData`, run as one step on the request's outcome: on success the
     * received snapshot is stored; on any failure the bundled snapshot is stored
     * and a "CORS Error:" message recorded; either way loading ends.
     */
    method FetchData(outcome: FetchOutcome)
      modifies this
      ensures !loading
      ensures viewState == old(viewState)
      ensures TryFetch(outcome).Received? ==>
        farmData == Some(TryFetch(outcome).data) && error == None
      ensures TryFetch(outcome).Caught? ==>
        farmData == Some(LiveData) && error == Some(CorsMessage(TryFetch(outcome).thrown))
      ensures error.Some? ==> StartsWith(error.value, "CORS Error:")
      ensures Valid()
      ensures !CurrentScreen().ErrorScreen? && !CurrentScreen().LoadingScreen?
    {
      loading := true;
      error := None;
      var caught: Option<Thrown> := None;
      match outcome {
        case Rejected(t) =>
          caught := Some(t);
        case Responded(status, body) =>
          if !StatusOk(status) {
            caught := Some(ErrorObject(HttpErrorMessage(status)));
          } else {
            match body {
              case Parsed(data) => farmData := Some(data);
              case Malformed(t) => caught := Some(t);
            }
          }
      }
      if caught.Some? {
        farmData := Some(LiveData);
        error := Some(CorsMessage(caught.value));
      }
      loading := false;
    }

    /** `navigateToField`: show the detail page of `field`, whatever was shown before. */
    method NavigateToField(field: FieldRecord)
      modifies this
      ensures viewState == ViewState(FieldDetailPage, Some(field))
      ensures farmData == old(farmData) && loading == old(loading) && error == old(error)
      ensures Valid() <==> old(Valid())
      ensures Valid() && !loading ==> CurrentScreen() == DetailScreen(FieldDetailPage.View(field))
    {
      viewState := ViewState(FieldDetailPage, Some(field));
    }

    /** `navigateToHome`: back to the dashboard, dropping the selected field. */
    method NavigateToHome()
      modifies this
      ensures viewState == Home
      ensures farmData == old(farmData) && loading == old(loading) && error == old(error)
      ensures Valid() <==> old(Valid())
      ensures Valid() && !loading ==> CurrentScreen() == Dashboard(error, farmData)
    {
      viewState := Home;
    }
  }
}
