# Voice-command dispatcher of the AI Voice-Controlled Dashboard

A Dafny model of the state logic in `app.py`, a Streamlit dashboard. The user
controls it by voice. Each spoken command is transcribed to a string. The
listening thread then runs that string through an ordered chain of substring
tests. The first test that matches either switches `active_tab` to one of six
tabs or clears `listening`, and the thread speaks a fixed acknowledgement. The
model also covers what else writes the same session state: the listening
toggle, the sidebar navigation buttons and the text-to-speech switch.

Layout:

- `text.dfy`, module `Text`: Python's `sub in s` (`Contains`) and the ASCII part
  of `str.lower()` (`ToLower`). Also the lemmas used to show that a concrete
  transcript does or does not contain a keyword.
- `commands.dfy`, module `Commands`: the six views and their tab names. Also the
  acceptance test (non-empty, no "error" in the lower-cased text), the if/elif
  chain `Classify`, the keyword table it follows, and the fixed acknowledgements.
- `session.dfy`, module `Session`: the five-field `SessionState`. Each transition
  is a function on it: `Dispatch`, `ToggleListening`, `Navigate`,
  `SetTextToSpeech`, and `Listen` for the listening loop. The class
  `SessionStore` performs the same transitions in place on its fields. Each of
  its methods is proved equal to the matching function.

Points of `app.py` a reader may not expect:

- an accepted transcript that matches no keyword still becomes `last_command`
  (it is not a complete no-op);
- the recogniser strips and lower-cases every transcript it returns
  (app.py:66), so the keyword tests, which compare with lower-case keywords,
  only ever see lower-case text; the model's `Dispatch` accepts any string, a
  superset of what the recogniser produces, and its keyword tests are plain
  substring tests on that string;
- the text-to-speech switch is drawn only while `active_tab` is "Settings"
  (app.py:193-195), so `SetTextToSpeech` requires that tab;
- the voice "stop" branch says "Voice control deactivated" with no period, while
  the toggle button says "Voice control deactivated." with one.

The longer spellings that the chain also tests ("customers", "products",
"prediction", "settings", "stop listening") each contain a shorter keyword
tested in the same branch. So they never decide a branch on their own
(`Commands.KeywordsReduce`).

## Model

| member | source | states |
|---|---|---|
| `Commands.TabName` | app.py:149-160 | every tab a view selects is one of the six names `active_tab` is ever given |
| `Commands.TabNameBijective` | app.py:149-160 | distinct views have distinct tab names, and every one of the six names belongs to some view |
| `Commands.ErrorReportRejected` | app.py:68-75 | the recogniser's failure text "Error occurred: ..." is always dropped, whatever the exception message |
| `Commands.ClassifyShow` | app.py:79-96 | first match wins: the chain picks view v exactly when the transcript holds one of v's keywords and no keyword of an earlier branch |
| `Commands.ClassifyStop` | app.py:97-99 | the stop branch is taken exactly when "stop listening" or "stop" occurs and no view keyword does |
| `Commands.ClassifyUnrecognized` | app.py:79-99 | no branch is taken exactly when neither a view keyword nor a stop keyword occurs |
| `Commands.KeywordsReduce` | app.py:82-98 | the chain's keyword groups are equivalent to the shorter groups customer; product/inventory; predict/forecast; setting/configuration; stop |
| `Commands.Acknowledgement` | app.py:79-99 | a recognised command has exactly one acknowledgement; an unrecognised one has none |
| `Commands.AcknowledgementInjective` | app.py:79-99 | different branches speak different acknowledgements |
| `Session.Spoken` | app.py:50-54 | an acknowledgement is spoken if and only if it exists and `tts_enabled` is set, and then it is spoken unchanged |
| `Session.Dispatch` | app.py:75-99 | one step keeps `tts_enabled`, `dark_mode` and a valid `active_tab`; it changes nothing unless the transcript is accepted; its acknowledgement is the matched branch's |
| `Session.DispatchRejected` | app.py:75 | an empty transcript, or one whose lower-case form contains "error", changes no field and produces no acknowledgement |
| `Session.DispatchRecords` | app.py:75-76 | every accepted transcript becomes `last_command`, matched or not |
| `Session.DispatchShowsView` | app.py:79-96 | a first match on view v sets `active_tab` to v's name and `last_command`, changes no other field, and acknowledges with v's message |
| `Session.DispatchStops` | app.py:97-99 | "stop" with no view keyword clears `listening`, records the command, keeps `active_tab`, and acknowledges "Voice control deactivated" |
| `Session.DispatchUnrecognized` | app.py:75-99 | an accepted transcript with no keyword only records itself and is not acknowledged |
| `Session.DispatchIdempotent` | app.py:76-99 | dispatching the same transcript again leaves the state and the acknowledgement as after the first time |
| `Session.DashboardBeatsHelp` | app.py:79-96 | an accepted transcript that mentions both help and the dashboard opens the dashboard |
| `Session.ViewBeatsStop` | app.py:79-99 | a transcript that holds a stop keyword and, as its first matching rule, a view's keyword does not take the stop branch: it switches to that view and leaves `listening` unchanged |
| `Session.ExampleHelpWithDashboard` | app.py:79-81 | "help me with the dashboard" opens "Dashboard" with "Showing dashboard view" |
| `Session.ExampleStopShowingCustomers` | app.py:82-84 | "stop showing customers" opens "Customer Analytics" and keeps `listening` |
| `Session.ExampleOpenSettings` | app.py:91-93 | from Help while listening, "open settings please" opens "Settings", keeps listening, says "Opening settings" |
| `Session.ExampleStopListening` | app.py:97-99 | "stop listening" clears `listening` and keeps the tab |
| `Session.VoiceAgreesWithSidebar` | app.py:149-160 | a voice command for a view leaves the same state as that view's sidebar button, apart from `last_command` |
| `Session.Navigate` | app.py:149-160 | a sidebar button sets `active_tab` to its view's name and changes nothing else |
| `Session.ToggleListening` | app.py:103-109 | the toggle negates `listening`, changes nothing else, and announces activation exactly when listening is now on |
| `Session.ToggleTwice` | app.py:103-109 | two toggles restore the state, and the two announcements differ |
| `Session.SetTextToSpeech` | app.py:193-199 | on the Settings page, the switch stores the new `tts_enabled`; it announces only when switching it on, and that announcement is spoken |
| `Session.Listen` | app.py:72-100 | the loop runs only while listening; it stops early only when `listening` has been cleared; it keeps `tts_enabled`, `dark_mode` and a valid tab |
| `Session.ListenStopsAtFirstHalt` | app.py:73-99 | while listening, the loop reads transcripts up to and including the first accepted "stop" command, and then `listening` is off |
| `Session.ListenReadsAll` | app.py:73-99 | with no accepted "stop" command in the feed, the loop reads every transcript and is still listening |
| `Session.SessionStore.constructor` | app.py:36-45 | a new session starts not listening, on "Dashboard", with "No command received yet", speech on and dark mode off |
| `Session.SessionStore.TextToSpeech` | app.py:50-54 | the text is said exactly when `tts_enabled` is set |
| `Session.SessionStore.HandleTranscript` | app.py:74-99 | the in-place update equals `Dispatch` on the old state; what is said is the gated acknowledgement |
| `Session.SessionStore.Toggle` | app.py:103-109 | the in-place toggle equals `ToggleListening` on the old state |
| `Session.SessionStore.SelectTab` | app.py:149-160 | the in-place button press equals `Navigate` on the old state |
| `Session.SessionStore.ChangeTextToSpeech` | app.py:193-199 | the in-place switch equals `SetTextToSpeech` on the old state |
| `Session.SessionStore.ListeningLoop` | app.py:72-100 | the `while listening` loop over a feed of transcripts ends in the state `Listen` gives, after reading as many transcripts, having said the gated acknowledgements |

## Left out

- Audio capture and Whisper transcription in `recognize_speech` (app.py:57-69): hardware input and a speech model. Transcripts are arbitrary input strings: the model does not apply the `strip().lower()` of app.py:66, so it also admits transcripts with upper-case letters or surrounding spaces that the recogniser never returns. The exception path is modelled only through the "Error occurred: " text it returns.
- pyttsx3 speech output (app.py:52-54): a foreign library. The model keeps the text handed to it and the `tts_enabled` gate.
- The daemon thread, `time.sleep`, and concurrent writes by the UI while the thread runs (app.py:73, 100, 107): the model is sequential. A toggle that switches listening on starts a thread in the source; the model does not track how many threads run.
- Session.SessionStore.ListeningLoop: it reads a finite feed of transcripts, where the source asks the recogniser for the next one forever. The model's loop therefore also ends when the feed runs out.
- Text.ToLower: it folds only the ASCII letters A-Z, where Python's `str.lower()` covers all of Unicode. The only use is the test for "error". No non-ASCII character lower-cases to a string containing e, r or o, so that test gives the same result either way. This argument is not proved in Dafny.
- Random demo data, metrics, tables, charts and the rolling-mean forecast (app.py:112-138, 162-216): random numbers, floating point and rendering.
- The Settings toggle widget itself (app.py:195): it is modelled only as the event "the switch now reads `enabled`".
- `dark_mode` (app.py:44-45): it is initialised and kept, but nothing in the source changes it.
- The unused imports (app.py:2-20).
