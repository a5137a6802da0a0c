/**
 * The field detail page: a pure rendering of one field record. Nothing here has
 * state; each helper is a conditional expression over a reading, and the care
 * timeline is a `map` over the record's instruction list.
 */
module FieldDetailPage {
  import opened Farm

  /** Moisture badge colour: red below 40, yellow from 40 up to 60, emerald from 60. */
  function WaterColor(val: real): (c: WaterTone)
    ensures c == WaterRed <==> val < 40.0
    ensures c == WaterYellow <==> 40.0 <= val < 60.0
    ensures c == WaterEmerald <==> 60.0 <= val
  {
    if val < 40.0 then WaterRed
    else if val < 60.0 then WaterYellow
    else WaterEmerald
  }

  /** Temperature colour: sky below 15, red above 33, emerald in between, ends included. */
  function TempColor(val: real): (c: TempTone)
    ensures c == TempSky <==> val < 15.0
    ensures c == TempRed <==> 33.0 < val
    ensures c == TempEmerald <==> 15.0 <= val <= 33.0
  {
    if val < 15.0 then TempSky
    else if val > 33.0 then TempRed
    else TempEmerald
  }

  /** Humidity colour: blue above 80, emerald otherwise. */
  function HumidityColor(val: real): (c: HumidityTone)
    ensures c == HumidityBlue <==> 80.0 < val
  {
    if val > 80.0 then HumidityBlue else HumidityEmerald
  }

  /** The sentence under the moisture badge, tested in the same order as its colour. */
  function MoistureText(val: real): (n: MoistureNote)
    ensures n == NeedsIrrigation <==> val < 40.0
    ensures n == MonitorClosely <==> 40.0 <= val < 60.0
    ensures n == AdequateMoisture <==> 60.0 <= val
  {
    if val < 40.0 then NeedsIrrigation
    else if val < 60.0 then MonitorClosely
    else AdequateMoisture
  }

  /** The sentence under the temperature reading. */
  function TemperatureText(val: real): (n: TempNote)
    ensures n == CoolTemperature <==> val < 15.0
    ensures n == HighTemperature <==> 33.0 < val
    ensures n == OptimalTemperature <==> 15.0 <= val <= 33.0
  {
    if val < 15.0 then CoolTemperature
    else if val > 33.0 then HighTemperature
    else OptimalTemperature
  }

  /** The sentence under the humidity badge. */
  function HumidityText(val: real): (n: HumidityNote)
    ensures n == HighHumidity <==> 80.0 < val
  {
    if val > 80.0 then HighHumidity else NormalHumidity
  }

  /** Whether the "Low Moisture Alert!" pill is shown under the title. */
  function LowMoistureAlert(field: FieldRecord): (shown: bool)
    ensures shown <==> field.soilMoisture < 40.0
    ensures shown <==> WaterColor(field.soilMoisture) == WaterRed
  {
    field.soilMoisture < 40.0
  }

  /** The emoji this page's lookup table gives each listed crop. */
  const CropEmojis: map<string, string> := map[
    "Wheat" := "\U{1F33E}",
    "Rice" := "\U{1F331}",
    "Maize" := "\U{1F33D}",
    "Barley" := "\U{1F33E}",
    "Soybean" := "\U{1FAD8}",
    "Cotton" := "\U{1F9F5}",
    "Sugarcane" := "\U{1F943}",
    "Potato" := "\U{1F954}",
    "Tomato" := "\U{1F345}",
    "Onion" := "\U{1F9C5}",
    "Chilli" := "\U{1F336}\U{FE0F}",
    "Peas" := "\U{1F957}",
    "Lentils" := "\U{1F7E4}",
    "Millet" := "\U{1F35A}",
    "Groundnut" := "\U{1F95C}"
  ]

  /** The herb emoji shown for a crop the table does not list. */
  const DefaultEmoji: string := "\U{1F33F}"

  /** `em[crop] ?? default`: the listed emoji, or the herb for any other name. */
  function CropEmoji(crop: string): (e: string)
    ensures crop in CropEmojis ==> e == CropEmojis[crop]
    ensures crop !in CropEmojis ==> e == DefaultEmoji
  {
    if crop in CropEmojis then CropEmojis[crop] else DefaultEmoji
  }

  /** No listed crop shares the fallback emoji, so the herb appears exactly for unlisted crops. */
  lemma DefaultEmojiOnlyForUnlisted(crop: string)
    ensures CropEmoji(crop) == DefaultEmoji <==> crop !in CropEmojis
  {
    if crop in CropEmojis {
      assert CropEmojis[crop] != DefaultEmoji;
    }
  }

  /** One numbered step of the care timeline. */
  datatype TimelineStep = TimelineStep(number: nat, instruction: string, currentPriority: bool)

  /** The care timeline: every instruction in order, numbered from 1, the first marked current. */
  function Timeline(instructions: seq<string>): (steps: seq<TimelineStep>)
    ensures |steps| == |instructions|
    ensures forall i :: 0 <= i < |steps| ==>
      steps[i].number == i + 1 && steps[i].instruction == instructions[i]
    ensures forall i :: 0 <= i < |steps| ==> (steps[i].currentPriority <==> i == 0)
  {
    seq(|instructions|, i requires 0 <= i < |instructions| =>
      TimelineStep(i + 1, instructions[i], i == 0))
  }

  /** How many steps carry the "Current Priority" marker. */
  function PriorityCount(steps: seq<TimelineStep>): nat {
    if steps == [] then 0
    else (if steps[0].currentPriority then 1 else 0) + PriorityCount(steps[1..])
  }

  lemma {:induction false} NoMarkerCountsZero(steps: seq<TimelineStep>)
    requires forall i :: 0 <= i < |steps| ==> !steps[i].currentPriority
    ensures PriorityCount(steps) == 0
  {
    if steps != [] {
      NoMarkerCountsZero(steps[1..]);
    }
  }

  /** A non-empty timeline marks exactly one step, the first; an empty one marks none. */
  lemma ExactlyOneCurrentPriority(instructions: seq<string>)
    ensures PriorityCount(Timeline(instructions)) == if instructions == [] then 0 else 1
    ensures instructions != [] ==> Timeline(instructions)[0].currentPriority
  {
    var steps := Timeline(instructions);
    if steps != [] {
      NoMarkerCountsZero(steps[1..]);
    }
  }

  /** Everything the detail page derives from a field, apart from its dates. */
  datatype DetailView = DetailView(
    emoji: string,
    lowMoistureAlert: bool,
    barWidth: real,
    progressShown: real,
    waterColor: WaterTone,
    moistureText: MoistureNote,
    tempColor: TempTone,
    temperatureText: TempNote,
    humidityColor: HumidityTone,
    humidityText: HumidityNote,
    timeline: seq<TimelineStep>
  )

  function View(field: FieldRecord): (v: DetailView)
    ensures v.lowMoistureAlert <==> v.waterColor == WaterRed
    ensures v.barWidth <= 100.0 && v.barWidth <= v.progressShown
    ensures v.progressShown == field.growthProgress
    ensures |v.timeline| == |field.timeline|
    ensures v.emoji == CropEmoji(field.cropName)
    ensures v.lowMoistureAlert <==> field.soilMoisture < 40.0
    ensures v.barWidth == BarWidth(field.growthProgress)
    ensures v.waterColor == WaterColor(field.soilMoisture)
    ensures v.moistureText == MoistureText(field.soilMoisture)
    ensures v.tempColor == TempColor(field.temperature)
    ensures v.temperatureText == TemperatureText(field.temperature)
    ensures v.humidityColor == HumidityColor(field.humidity)
    ensures v.humidityText == HumidityText(field.humidity)
    ensures v.timeline == Timeline(field.timeline)
  {
    DetailView(
      CropEmoji(field.cropName),
      LowMoistureAlert(field),
      BarWidth(field.growthProgress),
      field.growthProgress,
      WaterColor(field.soilMoisture),
      MoistureText(field.soilMoisture),
      TempColor(field.temperature),
      TemperatureText(field.temperature),
      HumidityColor(field.humidity),
      HumidityText(field.humidity),
      Timeline(field.timeline))
  }
}
