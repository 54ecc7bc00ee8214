/** The ingest/query service of app.py: one in-memory reading, overwritten
    all at once by a complete submission and served back unchanged. */
module IngestService {
  import opened SensorRecord

  /** The JSON body and HTTP status the handler answers with. */
  datatype Response = Response(code: int, status: string, message: string)

  const Accepted := Response(200, "success", "Data received successfully")
  const Rejected := Response(400, "error", "Invalid data received")

  /** `request.form.get(name)`: the submitted string, or None when the key is absent. */
  function Lookup(form: Form, name: string): (r: Option<string>)
    ensures r == None <==> name !in form
    ensures name in form ==> r == Some(form[name])
  {
    if name in form then Some(form[name]) else None
  }

  /** The tuple of the six looked-up values that the handler checks for None. */
  function Looked(form: Form): seq<Option<string>>
  {
    [Lookup(form, Temperature), Lookup(form, Humidity), Lookup(form, HeartRate),
     Lookup(form, FallDetected), Lookup(form, CryDetected), Lookup(form, SleepStage)]
  }

  /** The handler's guard: some field looked up to None. */
  predicate AnyMissing(form: Form)
  {
    None in Looked(form)
  }

  /** Only absence is rejected: a submission passes the guard exactly when it
      carries all six keys, whatever strings (empty, non-numeric) they hold. */
  lemma RejectsExactlyAbsence(form: Form)
    ensures AnyMissing(form) <==> exists n :: n in FieldSet && n !in form
    ensures !AnyMissing(form) <==> FieldSet <= form.Keys
  {
  }

  /** The reading a complete submission stands for, on its own. */
  function Submitted(form: Form): (r: Record)
    requires FieldSet <= form.Keys
    ensures r.Keys == FieldSet
  {
    map n | n in FieldSet :: StrV(form[n])
  }

  /** The record after one submission: unchanged when a field is missing,
      otherwise every one of the six fields holds the submitted string. */
  function After(rec: Record, form: Form): (r: Record)
    ensures AnyMissing(form) ==> r == rec
    ensures !AnyMissing(form) ==> FieldSet <= r.Keys && forall n :: n in FieldSet ==> r[n] == StrV(form[n])
    ensures r.Keys == if AnyMissing(form) then rec.Keys else rec.Keys + FieldSet
    ensures forall k :: k in rec && k !in FieldSet ==> r[k] == rec[k]
  {
    if AnyMissing(form) then rec
    else
      rec[Temperature := StrV(form[Temperature])]
         [Humidity := StrV(form[Humidity])]
         [HeartRate := StrV(form[HeartRate])]
         [FallDetected := StrV(form[FallDetected])]
         [CryDetected := StrV(form[CryDetected])]
         [SleepStage := StrV(form[SleepStage])]
  }

  /** The response to one submission: the 400 error exactly when a field is missing. */
  function ResponseTo(form: Form): (r: Response)
    ensures r == Rejected <==> AnyMissing(form)
    ensures r == Accepted <==> !AnyMissing(form)
  {
    if AnyMissing(form) then Rejected else Accepted
  }

  /** Full replace, not merge: on a record with the six keys, an accepted
      submission leaves exactly the submitted reading, nothing of the old one. */
  lemma FullReplace(rec: Record, form: Form)
    requires rec.Keys == FieldSet
    requires !AnyMissing(form)
    ensures FieldSet <= form.Keys
    ensures After(rec, form) == Submitted(form)
  {
  }

  /** After two submissions of which the second is complete, the record holds
      the second one only, whatever the first one was. */
  lemma SecondSubmissionWins(rec: Record, first: Form, second: Form)
    requires rec.Keys == FieldSet
    requires !AnyMissing(second)
    ensures FieldSet <= second.Keys
    ensures After(After(rec, first), second) == Submitted(second)
  {
  }

  /** The record after a history of submissions, oldest first. */
  function Replay(rec: Record, forms: seq<Form>): Record
    decreases |forms|
  {
    if forms == [] then rec
    else After(Replay(rec, forms[..|forms| - 1]), forms[|forms| - 1])
  }

  /** The most recent submission in a history that passed the guard, if any. */
  function LastAccepted(forms: seq<Form>): (r: Option<Form>)
    ensures r.Some? ==> r.value in forms && !AnyMissing(r.value)
    ensures r.None? <==> forall i :: 0 <= i < |forms| ==> AnyMissing(forms[i])
    decreases |forms|
  {
    if forms == [] then None
    else if !AnyMissing(forms[|forms| - 1]) then Some(forms[|forms| - 1])
    else LastAccepted(forms[..|forms| - 1])
  }

  /** The service holds the latest reading: after any history, the record is
      the last accepted submission, or the starting record if none was accepted;
      it never gains or loses a key. */
  lemma {:induction false} ReplayHoldsLastAccepted(rec: Record, forms: seq<Form>)
    requires rec.Keys == FieldSet
    ensures Replay(rec, forms).Keys == FieldSet
    ensures LastAccepted(forms).None? ==> Replay(rec, forms) == rec
    ensures LastAccepted(forms).Some? ==>
              FieldSet <= LastAccepted(forms).value.Keys &&
              Replay(rec, forms) == Submitted(LastAccepted(forms).value)
    decreases |forms|
  {
    if forms != [] {
      var prefix, last := forms[..|forms| - 1], forms[|forms| - 1];
      ReplayHoldsLastAccepted(rec, prefix);
      if !AnyMissing(last) {
        FullReplace(Replay(rec, prefix), last);
      }
    }
  }

  /** The process-wide `sensor_data` dictionary and the two route handlers over it. */
  class SensorStore {
    var sensorData: Record

    /** The record always has exactly the six keys. */
    ghost predicate Valid()
      reads this
    {
      sensorData.Keys == FieldSet
    }

    /** Process start: the record holds the placeholder defaults. */
    constructor ()
      ensures Valid()
      ensures sensorData == Defaults
    {
      sensorData := Defaults;
    }

    /** POST /data: reject with 400 when any field is absent, leaving the
        record alone; otherwise overwrite the six fields one by one and succeed. */
    method ReceiveData(form: Form) returns (resp: Response)
      requires Valid()
      modifies this
      ensures Valid()
      ensures resp == ResponseTo(form)
      ensures sensorData == After(old(sensorData), form)
      ensures resp == Rejected ==> sensorData == old(sensorData)
      ensures resp == Accepted ==> FieldSet <= form.Keys && sensorData == Submitted(form)
    {
      var temperature := Lookup(form, Temperature);
      var humidity := Lookup(form, Humidity);
      var heartRate := Lookup(form, HeartRate);
      var fallDetected := Lookup(form, FallDetected);
      var cryDetected := Lookup(form, CryDetected);
      var sleepStage := Lookup(form, SleepStage);

      if None in [temperature, humidity, heartRate, fallDetected, cryDetected, sleepStage] {
        return Rejected;
      }

      sensorData := sensorData[Temperature := StrV(temperature.value)];
      sensorData := sensorData[Humidity := StrV(humidity.value)];
      sensorData := sensorData[HeartRate := StrV(heartRate.value)];
      sensorData := sensorData[FallDetected := StrV(fallDetected.value)];
      sensorData := sensorData[CryDetected := StrV(cryDetected.value)];
      sensorData := sensorData[SleepStage := StrV(sleepStage.value)];
      resp := Accepted;
    }

    /** GET /fetch-data: the current record, unchanged. */
    method FetchData() returns (r: Record)
      requires Valid()
      ensures r == sensorData
      ensures r.Keys == FieldSet
    {
      r := sensorData;
    }
  }
}
