/** The derivation rules of the dashboard (streamlit_app.py): the mood label,
    the temperature card colour and status, and the fall/cry warnings. */
module Dashboard {
  import opened SensorRecord
  import IngestService

  const PeacefulMood := "😴 Peaceful (Deep Sleep)"
  const RelaxedMood := "😊 Relaxed (Light Sleep)"
  const DreamingMood := "🛌 Dreaming (REM Sleep)"
  const ActiveMood := "😄 Active (Awake)"
  const UnknownMood := "😐 Unknown Mood"

  /** The mood label for a sleep stage: a lookup in the four-entry table,
      falling back to the unknown label. */
  function BabyMood(sleepStage: int): (mood: string)
    ensures sleepStage == 0 ==> mood == PeacefulMood
    ensures sleepStage == 1 ==> mood == RelaxedMood
    ensures sleepStage == 2 ==> mood == DreamingMood
    ensures sleepStage == 3 ==> mood == ActiveMood
    ensures mood != UnknownMood <==> 0 <= sleepStage <= 3
  {
    var moodMap := map[0 := PeacefulMood, 1 := RelaxedMood, 2 := DreamingMood, 3 := ActiveMood];
    if sleepStage in moodMap then moodMap[sleepStage] else UnknownMood
  }

  /** The four stage labels are pairwise distinct, so the label determines a known stage. */
  lemma MoodDeterminesStage(a: int, b: int)
    requires BabyMood(a) == BabyMood(b) != UnknownMood
    ensures a == b
  {
  }

  const ColdColor := "#B7E0FF"
  const ComfortableColor := "#C0EBA6"
  const HotColor := "#FF8A8A"

  /** The temperature card's background: cold below 36, comfortable from 36
      to 37.5 inclusive, hot above 37.5. */
  function TemperatureColor(temp: real): (color: string)
    ensures color == ColdColor <==> temp < 36.0
    ensures color == ComfortableColor <==> 36.0 <= temp <= 37.5
    ensures color == HotColor <==> 37.5 < temp
  {
    if temp < 36.0 then ColdColor
    else if 36.0 <= temp <= 37.5 then ComfortableColor
    else HotColor
  }

  /** The position of a colour in the cold, comfortable, hot order. */
  function Warmth(color: string): nat
  {
    if color == ColdColor then 0 else if color == ComfortableColor then 1 else 2
  }

  /** A warmer reading never gets a colder colour. */
  lemma ColorIsMonotone(t1: real, t2: real)
    requires t1 <= t2
    ensures Warmth(TemperatureColor(t1)) <= Warmth(TemperatureColor(t2))
  {
  }

  const GoodStatus := "Good"
  const UncomfortableStatus := "Uncomfortable"

  /** The status line of the temperature card: Good strictly between 36 and 39. */
  function TemperatureStatus(temp: real): (status: string)
    ensures status == GoodStatus <==> 36.0 < temp < 39.0
    ensures status == UncomfortableStatus <==> !(36.0 < temp < 39.0)
  {
    if temp < 39.0 && temp > 36.0 then GoodStatus else UncomfortableStatus
  }

  /** The colour and status bounds disagree: the card reads comfortable but
      Uncomfortable exactly at 36, and hot but Good strictly between 37.5 and 39. */
  lemma ColorAndStatusDisagree(temp: real)
    ensures (TemperatureColor(temp) == ComfortableColor && TemperatureStatus(temp) == UncomfortableStatus)
            <==> temp == 36.0
    ensures (TemperatureColor(temp) == HotColor && TemperatureStatus(temp) == GoodStatus)
            <==> 37.5 < temp < 39.0
    ensures TemperatureColor(temp) == ColdColor ==> TemperatureStatus(temp) == UncomfortableStatus
  {
  }

  const FallWarning := "⚠️ Fall Detected! Please check on the baby."
  const CryWarning := "😭 Cry Detected! Baby needs attention."

  /** The flag value that raises a warning: exactly the string "True". */
  const TrueFlag := StrV("True")

  /** The warnings shown for the two detection flags, in the order they are
      issued: each fires only on the exact string "True", independently. */
  function Notifications(fallDetected: Value, cryDetected: Value): (warnings: seq<string>)
    ensures FallWarning in warnings <==> fallDetected == TrueFlag
    ensures CryWarning in warnings <==> cryDetected == TrueFlag
    ensures forall w :: w in warnings ==> w == FallWarning || w == CryWarning
    ensures |warnings| <= 2
    ensures |warnings| == 2 ==> warnings == [FallWarning, CryWarning]
  {
    (if fallDetected == TrueFlag then [FallWarning] else [])
    + (if cryDetected == TrueFlag then [CryWarning] else [])
  }

  /** Lower-case, numeric and boolean spellings of true raise no warning. */
  lemma OnlyExactTrueWarns()
    ensures Notifications(StrV("true"), StrV("1")) == []
    ensures Notifications(BoolV(true), BoolV(false)) == []
    ensures Notifications(TrueFlag, TrueFlag) == [FallWarning, CryWarning]
  {
  }

  /** Across both components: after an accepted submission the dashboard warns
      of a fall (of crying) exactly when the submitted flag was the string "True"
      (the flags reach the dashboard uncoerced; the numeric fields must still
      coerce for the cycle to get this far). */
  lemma SubmittedFlagsDriveWarnings(rec: Record, form: Form)
    requires rec.Keys == FieldSet
    requires !IngestService.AnyMissing(form)
    ensures FallDetected in form && CryDetected in form
    ensures var stored := IngestService.After(rec, form);
            var warnings := Notifications(stored[FallDetected], stored[CryDetected]);
            (FallWarning in warnings <==> form[FallDetected] == "True") &&
            (CryWarning in warnings <==> form[CryDetected] == "True")
  {
  }

  /** Before any submission the dashboard shows the defaults as a comfortable,
      Good temperature card with the relaxed mood and no warnings. */
  lemma DefaultReadingView()
    ensures Defaults[Temperature].FloatV? && Defaults[SleepStage].IntV?
    ensures TemperatureColor(Defaults[Temperature].f) == ComfortableColor
    ensures TemperatureStatus(Defaults[Temperature].f) == GoodStatus
    ensures BabyMood(Defaults[SleepStage].i) == RelaxedMood
    ensures Notifications(Defaults[FallDetected], Defaults[CryDetected]) == []
  {
  }
}
