/**
 * Facts that tie the two page files together: each keeps its own copy of the
 * colour helpers, the low-moisture test, the bar clamp and the emoji table, and
 * the detail page's sentences reuse the colour thresholds. These lemmas state
 * that the copies agree and that each sentence band is its colour band.
 */
module Agreement {
  import opened Farm
  import MainDashboard
  import FieldDetailPage

  /** The three colour helpers give the same colour on the card and on the detail page. */
  lemma ColorHelpersAgree(val: real)
    ensures MainDashboard.WaterColor(val) == FieldDetailPage.WaterColor(val)
    ensures MainDashboard.TempColor(val) == FieldDetailPage.TempColor(val)
    ensures MainDashboard.HumidityColor(val) == FieldDetailPage.HumidityColor(val)
  {
  }

  /** The card's badge and the detail page's alert appear for the same fields. */
  lemma LowMoistureAgrees(field: FieldRecord)
    ensures MainDashboard.LowMoistureBadge(field) == FieldDetailPage.LowMoistureAlert(field)
  {
  }

  /** The moisture sentence that goes with each moisture colour. */
  function MoistureNoteFor(c: WaterTone): MoistureNote {
    match c
    case WaterRed => NeedsIrrigation
    case WaterYellow => MonitorClosely
    case WaterEmerald => AdequateMoisture
  }

  /** The temperature sentence that goes with each temperature colour. */
  function TempNoteFor(c: TempTone): TempNote {
    match c
    case TempSky => CoolTemperature
    case TempRed => HighTemperature
    case TempEmerald => OptimalTemperature
  }

  /** The humidity sentence that goes with each humidity colour. */
  function HumidityNoteFor(c: HumidityTone): HumidityNote {
    match c
    case HumidityBlue => HighHumidity
    case HumidityEmerald => NormalHumidity
  }

  /** Each sentence under a reading names exactly the band its colour shows. */
  lemma NotesMatchColorBands(val: real)
    ensures FieldDetailPage.MoistureText(val) == MoistureNoteFor(FieldDetailPage.WaterColor(val))
    ensures FieldDetailPage.TemperatureText(val) == TempNoteFor(FieldDetailPage.TempColor(val))
    ensures FieldDetailPage.HumidityText(val) == HumidityNoteFor(FieldDetailPage.HumidityColor(val))
  {
  }

  /** The card and the detail page classify one field alike and draw its bar to the same width. */
  lemma CardMatchesDetail(field: FieldRecord)
    ensures MainDashboard.Card(field).waterColor == FieldDetailPage.View(field).waterColor
    ensures MainDashboard.Card(field).tempColor == FieldDetailPage.View(field).tempColor
    ensures MainDashboard.Card(field).humidityColor == FieldDetailPage.View(field).humidityColor
    ensures MainDashboard.Card(field).lowMoistureBadge == FieldDetailPage.View(field).lowMoistureAlert
    ensures MainDashboard.Card(field).barWidth == FieldDetailPage.View(field).barWidth
    ensures MainDashboard.Card(field).emoji == FieldDetailPage.View(field).emoji
  {
    CropEmojiAgrees(field.cropName);
  }

  /**
   * With the dashboard's table restored, its `||` lookup and the detail page's
   * `??` lookup agree on every crop name, listed or not.
   */
  lemma CropEmojiAgrees(crop: string)
    ensures MainDashboard.CropEmoji(crop) == FieldDetailPage.CropEmoji(crop)
  {
    assert MainDashboard.CropEmojis == FieldDetailPage.CropEmojis;
  }

  /**
   * As the dashboard file is written, its lookup never agrees with the detail
   * page: for every crop, listed or not, the card shows a garbled string.
   */
  lemma CropEmojiAsWrittenDiffers(crop: string)
    ensures MainDashboard.CropEmojiAsWritten(crop) != FieldDetailPage.CropEmoji(crop)
  {
    var e := FieldDetailPage.CropEmoji(crop);
    assert e[0] != '\U{011F}';
  }

  /** The card's "Next Tasks" line is the step the detail page marks as the current priority. */
  lemma NextTaskIsCurrentPriority(instructions: seq<string>)
    requires instructions != [] && instructions[0] != ""
    ensures FieldDetailPage.Timeline(instructions)[0].currentPriority
    ensures FieldDetailPage.Timeline(instructions)[0].instruction == MainDashboard.NextTask(instructions)
  {
  }
}
