/** The shape of the one reading the ingest service keeps in memory (app.py). */
module SensorRecord {

  datatype Option<+T> = None | Some(value: T)

  /** A value held under one key of the record. The defaults are floats, ints
      and booleans; every accepted submission replaces them with the form's
      strings, which the service never parses. */
  datatype Value = FloatV(f: real) | IntV(i: int) | BoolV(b: bool) | StrV(s: string)

  /** The latest reading, keyed by field name, as the service stores it. */
  type Record = map<string, Value>

  /** A form-encoded submission: a key that is absent reads as None. */
  type Form = map<string, string>

  const Temperature := "temperature"
  const Humidity := "humidity"
  const HeartRate := "heartRate"
  const FallDetected := "fallDetected"
  const CryDetected := "cryDetected"
  const SleepStage := "sleepStage"

  /** The six fields, in the order the handler reads them. */
  const FieldNames: seq<string> := [Temperature, Humidity, HeartRate, FallDetected, CryDetected, SleepStage]

  /** The keys the record always has. */
  const FieldSet: set<string> := {Temperature, Humidity, HeartRate, FallDetected, CryDetected, SleepStage}

  /** The placeholder reading the service holds until the first accepted submission. */
  const Defaults: Record := map[
    Temperature := FloatV(37.5),
    Humidity := FloatV(60.0),
    HeartRate := IntV(73),
    FallDetected := BoolV(false),
    CryDetected := BoolV(false),
    SleepStage := IntV(1)
  ]

  /** The defaults have exactly the six keys, and the field list names each of them once. */
  lemma DefaultsHaveEveryField()
    ensures Defaults.Keys == FieldSet
    ensures |FieldNames| == |FieldSet| == 6
    ensures forall n :: n in FieldSet <==> n in FieldNames
  {
  }
}
