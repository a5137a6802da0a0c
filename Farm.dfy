/**
 * Shared data model of the farm dashboard: the telemetry records a snapshot
 * carries, and the display categories (colour classes and labels) the two page
 * components derive from them.
 *
 * Every JavaScript `number` of a record is a `real`: the readings carry decimals
 * (a temperature of 34.6) and each threshold the components test is an integer,
 * which a double compares exactly. NaN and the infinities are not modelled.
 */
module Farm {

  datatype Option<+T> = None | Some(value: T)

  /** One monitored plot, as the ingestion endpoint sends it. */
  datatype FieldRecord = FieldRecord(
    fieldId: string,
    cropName: string,
    plantingDate: string,
    expectedHarvestDate: string,
    daysSincePlanting: real,
    growthProgress: real,     // percent; may exceed 100, clamped only when drawn
    soilMoisture: real,       // percent
    temperature: real,        // degrees Celsius
    humidity: real,           // percent
    timeline: seq<string>     // care instructions; the first is the current task
  )

  /** One complete snapshot: a status message, a capture instant and the fields in order. */
  datatype FarmSnapshot = FarmSnapshot(message: string, timestamp: string, fields: seq<FieldRecord>)

  /** Background class of the soil-moisture badge: bg-red-400, bg-yellow-300, bg-emerald-400. */
  datatype WaterTone = WaterRed | WaterYellow | WaterEmerald

  /** Text class of the temperature reading: text-sky-700, text-red-400, text-emerald-700. */
  datatype TempTone = TempSky | TempRed | TempEmerald

  /** Background class of the humidity badge: bg-blue-200, bg-emerald-200. */
  datatype HumidityTone = HumidityBlue | HumidityEmerald

  /** "Low - Needs irrigation", "Moderate - Monitor closely", "Good - Adequate moisture". */
  datatype MoistureNote = NeedsIrrigation | MonitorClosely | AdequateMoisture

  /** "Cool temperature", "High temperature", "Optimal temperature range". */
  datatype TempNote = CoolTemperature | HighTemperature | OptimalTemperature

  /** "High humidity", "Normal humidity levels". */
  datatype HumidityNote = HighHumidity | NormalHumidity

  /** The percentage a progress bar is drawn to: `Math.min(progress, 100)`. */
  function BarWidth(progress: real): (w: real)
    ensures w <= 100.0
    ensures w <= progress
    ensures w == progress || w == 100.0
    ensures progress <= 100.0 <==> w == progress
  {
    if progress < 100.0 then progress else 100.0
  }
}
