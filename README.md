# Baby health monitor: ingest store and dashboard rules

A model of the two pieces of the baby health monitoring system that hold logic.

- **Ingest service** (`app.py`). It keeps one in-memory reading (`sensor_data`) with six fields: temperature, humidity, heart rate, fall flag, cry flag and sleep stage. `POST /data` looks up the six form fields. If any is absent, it answers 400 and leaves the reading alone. Otherwise it overwrites all six fields with the submitted strings and answers success. `GET /fetch-data` returns the reading unchanged.
  - Modelled in `ingest_service.dfy` as the class `SensorStore`. It has a `map` field, the constructor holds the defaults, `ReceiveData` does the six in-place writes and `FetchData` is the read.
  - The class is proved against the pure functions `After` and `ResponseTo`.
  - The lemmas cover the guard (only absence is rejected), full replace, "the second submission wins" and the latest-reading property over any history of submissions (`ReplayHoldsLastAccepted`).
- **Dashboard rules** (`streamlit_app.py`). These are the sleep-stage mood table, the three-band temperature colour, the Good/Uncomfortable status line (its bounds differ from the colour's) and the fall/cry warnings.
  - Modelled in `dashboard.dfy` as functions with lemmas.
  - `Notifications` returns the warnings the dashboard would issue, in order.

`sensor_record.dfy` holds the field names, the value type and the defaults. A stored value is one of float, int, boolean or string, because the defaults are numbers and booleans and every accepted submission stores strings. A form is a `map` from field name to string, and an absent key stands for `None`. Temperatures on the dashboard side are `real` and sleep stages are `int`, i.e. the values after the dashboard's coercion.

## Model

| member | source | states |
|---|---|---|
| SensorRecord.DefaultsHaveEveryField | app.py:6-13 | the initial record has exactly the six keys the handler writes |
| IngestService.Lookup | app.py:19-24 | a field reads as None exactly when its key is absent from the form, otherwise as the submitted string |
| IngestService.RejectsExactlyAbsence | app.py:27 | the guard fires iff some of the six keys is absent; any strings at all (empty, non-numeric) pass |
| IngestService.After | app.py:27-39 | a rejected submission leaves the record identical; an accepted one sets every one of the six fields to the submitted string, adds no other key and touches no other key |
| IngestService.ResponseTo | app.py:27-42 | the answer is the 400 "Invalid data received" error iff a field is missing, and the success answer otherwise |
| IngestService.FullReplace | app.py:34-39 | on a six-key record an accepted submission leaves exactly the submitted reading, with nothing kept from the old one |
| IngestService.SecondSubmissionWins | app.py:34-39 | after two submissions of which the second is accepted, the record is the second submission only |
| IngestService.ReplayHoldsLastAccepted | app.py:17-39 | after any history of submissions the record is the last accepted one, or the initial record if none was accepted, and it keeps exactly the six keys |
| IngestService.SensorStore.constructor | app.py:6-13 | the record starts as temperature 37.5, humidity 60.0, heart rate 73, both flags false and sleep stage 1 |
| IngestService.SensorStore.ReceiveData | app.py:17-42 | the response and new record are those of ResponseTo and After; on rejection the record is unchanged, on success it is the submission; the six-key invariant is kept |
| IngestService.SensorStore.FetchData | app.py:46-47 | returns the current record, with its six keys, and changes nothing |
| Dashboard.BabyMood | streamlit_app.py:30-37 | stages 0 to 3 give their four labels; the label is the unknown one iff the stage is outside 0..3 |
| Dashboard.MoodDeterminesStage | streamlit_app.py:31-36 | two stages with the same known label are the same stage, so the four labels are pairwise distinct |
| Dashboard.TemperatureColor | streamlit_app.py:40-46 | cold colour iff below 36, comfortable iff 36 to 37.5 inclusive, hot iff above 37.5 |
| Dashboard.ColorIsMonotone | streamlit_app.py:41-46 | a higher temperature never gets a colder colour band |
| Dashboard.TemperatureStatus | streamlit_app.py:76 | "Good" iff strictly between 36 and 39, "Uncomfortable" otherwise |
| Dashboard.ColorAndStatusDisagree | streamlit_app.py:76 | the status and the colour bands (lines 40-46) disagree exactly at 36 (comfortable but Uncomfortable) and strictly between 37.5 and 39 (hot but Good) |
| Dashboard.Notifications | streamlit_app.py:49-53 | the fall warning iff the fall flag is exactly the string "True", the cry warning likewise, independently; nothing else; fall before cry |
| Dashboard.OnlyExactTrueWarns | streamlit_app.py:50-53 | "true", "1" and booleans raise no warning; two "True" flags raise both warnings in order |
| Dashboard.SubmittedFlagsDriveWarnings | streamlit_app.py:60-67 | after an accepted submission, the dashboard warns of a fall (of crying) iff the submitted flag string was exactly "True" |
| Dashboard.DefaultReadingView | streamlit_app.py:67-117 | the default reading renders as a comfortable, Good temperature with the relaxed mood and no warnings |

## Left out

- Flask routing, `request.form` parsing, `jsonify` and `app.run` are left out: this is HTTP plumbing. The form is a `map` and the response a datatype holding status code, status and message.
- The console log line in the ingest handler is left out: it is output only and does not affect the state.
- Concurrent requests against the shared record under a threaded server are not modelled. Each handler runs to completion before the next one starts.
- The dashboard's network fetch (`requests.get`, `raise_for_status` and the error shown on a request failure) is left out: it is external I/O.
- The dashboard's `float()`/`int()` coercion of heart rate, humidity, temperature and sleep stage is not modelled. The derivation functions take the coerced `real`/`int`. The crash when a stored string does not parse is not captured.
- Dashboard.SubmittedFlagsDriveWarnings: it assumes that the cycle reaches the notifications, i.e. that the numeric fields coerce.
- Floating point is modelled as `real`. A NaN temperature (colour hot, status Uncomfortable in the source) cannot arise in the model.
- Page setup, the refresh-rate slider, the placeholders, columns and HTML cards, and the endless poll loop with its sleep are left out: they are UI rendering and timing with no logic beyond the per-cycle calls modelled above.
