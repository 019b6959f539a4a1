/** The session state of app.py and the ways it changes: a voice command,
    the listening toggle, the sidebar buttons and the text-to-speech switch.
    Each transition is a function on `SessionState` values; the class
    `SessionStore` performs the same transitions in place on its fields. */
module Session {
  import opened Text
  import opened Commands

  /** The five fields of `st.session_state` the dispatcher works with. */
  datatype SessionState = SessionState(
    listening: bool,
    lastCommand: string,
    activeTab: string,
    ttsEnabled: bool,
    darkMode: bool)

  const NoCommandYet := "No command received yet"
  const ActivatedAck := "Voice control activated. What would you like to see?"
  const DeactivatedAck := "Voice control deactivated."
  const TtsEnabledAck := "Text-to-Speech enabled"

  /** The defaults a new session starts from. */
  function InitialState(): SessionState
  {
    SessionState(false, NoCommandYet, "Dashboard", true, false)
  }

  /** `active_tab` holds one of the six tab names. */
  predicate ValidState(s: SessionState)
  {
    s.activeTab in TabNames
  }

  /** A new state and the text handed to `text_to_speech`, if any. */
  datatype Step = Step(state: SessionState, ack: Option<string>)

  /** `text_to_speech` says its text only while `tts_enabled` is set. */
  function Spoken(ack: Option<string>, ttsEnabled: bool): (said: Option<string>)
    ensures said.Some? <==> ack.Some? && ttsEnabled
    ensures said.Some? ==> said == ack
  {
    if ttsEnabled then ack else None
  }

  /** One pass of the listening loop's body for one transcript. */
  function Dispatch(command: string, s: SessionState): (r: Step)
    ensures r.state.ttsEnabled == s.ttsEnabled && r.state.darkMode == s.darkMode
    ensures ValidState(s) ==> ValidState(r.state)
    ensures r.state != s ==> Accepted(command)
    ensures r.ack == (if Accepted(command) then Acknowledgement(Classify(command)) else None)
  {
    if !Accepted(command) then
      Step(s, None)
    else
      var recorded := s.(lastCommand := command);
      match Classify(command)
      case Show(v) => Step(recorded.(activeTab := TabName(v)), Some(ViewAck(v)))
      case StopListening => Step(recorded.(listening := false), Some(StopAck))
      case Unrecognized => Step(recorded, None)
  }

  /** An empty transcript, or one whose lower-case form contains "error",
      changes nothing and is not acknowledged. */
  lemma DispatchRejected(command: string, s: SessionState)
    requires command == [] || Contains(ToLower(command), "error")
    ensures Dispatch(command, s) == Step(s, None)
  {
  }

  /** An accepted transcript becomes `last_command`, matched or not. */
  lemma DispatchRecords(command: string, s: SessionState)
    requires Accepted(command)
    ensures Dispatch(command, s).state.lastCommand == command
  {
  }

  /** A transcript whose first matching rule is view `v` switches to `v`'s tab
      and changes nothing else besides `last_command`. */
  lemma DispatchShowsView(command: string, s: SessionState, v: View)
    requires Accepted(command)
    requires MentionsAny(command, Keywords(v))
    requires forall w :: Rank(w) < Rank(v) ==> !MentionsAny(command, Keywords(w))
    ensures Dispatch(command, s) ==
      Step(s.(lastCommand := command, activeTab := TabName(v)), Some(ViewAck(v)))
  {
    ClassifyShow(command, v);
  }

  /** "stop" with no view keyword ends listening and leaves the tab alone. */
  lemma DispatchStops(command: string, s: SessionState)
    requires Accepted(command)
    requires MentionsAny(command, StopKeywords)
    requires forall v :: !MentionsAny(command, Keywords(v))
    ensures Dispatch(command, s) ==
      Step(s.(lastCommand := command, listening := false), Some(StopAck))
  {
    ClassifyStop(command);
  }

  /** An accepted transcript with no keyword only records itself. */
  lemma DispatchUnrecognized(command: string, s: SessionState)
    requires Accepted(command)
    requires !MentionsAny(command, StopKeywords)
    requires forall v :: !MentionsAny(command, Keywords(v))
    ensures Dispatch(command, s) == Step(s.(lastCommand := command), None)
  {
    ClassifyUnrecognized(command);
  }

  /** Every effect assigns a constant, so repeating a transcript changes nothing
      more and is acknowledged the same way. */
  lemma DispatchIdempotent(command: string, s: SessionState)
    ensures Dispatch(command, Dispatch(command, s).state) == Dispatch(command, s)
  {
  }

  /** A voice command for a view and the sidebar button for it leave the same tab. */
  lemma VoiceAgreesWithSidebar(command: string, s: SessionState, v: View)
    requires Accepted(command) && Classify(command) == Show(v)
    ensures Dispatch(command, s).state == Navigate(s, v).(lastCommand := command)
  {
  }

  /** The sidebar button for a view (app.py's navigation buttons). */
  function Navigate(s: SessionState, v: View): (r: SessionState)
    ensures ValidState(r)
    ensures r.activeTab == TabName(v)
    ensures r.(activeTab := s.activeTab) == s
  {
    s.(activeTab := TabName(v))
  }

  /** `toggle_listening`: flip `listening` and announce the new setting. */
  function ToggleListening(s: SessionState): (r: Step)
    ensures r.state.listening != s.listening
    ensures r.state.(listening := s.listening) == s
    ensures r.ack == Some(if r.state.listening then ActivatedAck else DeactivatedAck)
  {
    var now := !s.listening;
    Step(s.(listening := now), Some(if now then ActivatedAck else DeactivatedAck))
  }

  /** Two toggles restore the session, with the opposite announcements. */
  lemma ToggleTwice(s: SessionState)
    ensures ToggleListening(ToggleListening(s).state).state == s
    ensures ToggleListening(ToggleListening(s).state).ack != ToggleListening(s).ack
  {
  }

  /** The text-to-speech switch, drawn only on the Settings page: on a change,
      store the new value and, when it is switched on, announce it. */
  function SetTextToSpeech(s: SessionState, enabled: bool): (r: Step)
    requires s.activeTab == TabName(Settings)
    ensures r.state == s.(ttsEnabled := enabled)
    ensures r.ack.Some? <==> enabled && !s.ttsEnabled
    ensures Spoken(r.ack, r.state.ttsEnabled) == r.ack
  {
    if enabled != s.ttsEnabled then
      Step(s.(ttsEnabled := enabled), if enabled then Some(TtsEnabledAck) else None)
    else
      Step(s, None)
  }

  /** Where the listening loop ends after reading transcripts from `feed`. */
  datatype Run = Run(state: SessionState, consumed: nat, acks: seq<string>)

  function AckList(ack: Option<string>): seq<string>
  {
    if ack.Some? then [ack.value] else []
  }

  /** The `while listening` loop of the listening thread, fed one transcript per
      pass: it stops when `listening` is cleared or the feed runs out. */
  function Listen(feed: seq<string>, s: SessionState): (r: Run)
    ensures r.consumed <= |feed|
    ensures r.consumed < |feed| ==> !r.state.listening
    ensures r.consumed > 0 ==> s.listening
    ensures r.state.ttsEnabled == s.ttsEnabled && r.state.darkMode == s.darkMode
    ensures ValidState(s) ==> ValidState(r.state)
    decreases |feed|
  {
    if !s.listening || feed == [] then
      Run(s, 0, [])
    else
      var step := Dispatch(feed[0], s);
      var rest := Listen(feed[1..], step.state);
      Run(rest.state, rest.consumed + 1, AckList(step.ack) + rest.acks)
  }

  /** The transcript `t` makes the loop stop. */
  predicate Halts(t: string)
  {
    Accepted(t) && Classify(t) == StopListening
  }

  /** While listening, the loop reads up to and including the first transcript
      that halts it, and no further. */
  lemma {:induction false} ListenStopsAtFirstHalt(feed: seq<string>, s: SessionState, k: nat)
    requires s.listening
    requires k < |feed| && Halts(feed[k])
    requires forall j :: 0 <= j < k ==> !Halts(feed[j])
    ensures Listen(feed, s).consumed == k + 1
    ensures !Listen(feed, s).state.listening
    decreases k
  {
    var step := Dispatch(feed[0], s);
    if k > 0 {
      assert !Halts(feed[0]);
      assert step.state.listening;
      forall j | 0 <= j < k - 1 ensures !Halts(feed[1..][j]) {
        assert feed[1..][j] == feed[j + 1];
      }
      ListenStopsAtFirstHalt(feed[1..], step.state, k - 1);
    }
  }

  /** Without a halting transcript the loop reads the whole feed and is still
      listening at the end. */
  lemma {:induction false} ListenReadsAll(feed: seq<string>, s: SessionState)
    requires s.listening
    requires forall j :: 0 <= j < |feed| ==> !Halts(feed[j])
    ensures Listen(feed, s).consumed == |feed|
    ensures Listen(feed, s).state.listening
    decreases |feed|
  {
    if feed != [] {
      var step := Dispatch(feed[0], s);
      assert !Halts(feed[0]);
      forall j | 0 <= j < |feed| - 1 ensures !Halts(feed[1..][j]) {
        assert feed[1..][j] == feed[j + 1];
      }
      ListenReadsAll(feed[1..], step.state);
    }
  }

  /** A transcript that asks for help on the dashboard gets the dashboard:
      the dashboard rule comes first. */
  lemma DashboardBeatsHelp(t: string, s: SessionState)
    requires Accepted(t) && Contains(t, "help") && Contains(t, "dashboard")
    ensures Dispatch(t, s) ==
      Step(s.(lastCommand := t, activeTab := "Dashboard"), Some("Showing dashboard view"))
  {
  }

  /** A transcript that says "stop" but also names a view switches to that view
      and keeps listening: every view rule is tried before the stop rule. */
  lemma ViewBeatsStop(t: string, s: SessionState, v: View)
    requires Accepted(t) && MentionsAny(t, StopKeywords)
    requires MentionsAny(t, Keywords(v))
    requires forall w :: Rank(w) < Rank(v) ==> !MentionsAny(t, Keywords(w))
    ensures Classify(t) != StopListening
    ensures Dispatch(t, s).state.listening == s.listening
    ensures Dispatch(t, s).state.activeTab == TabName(v)
  {
    ClassifyShow(t, v);
  }

  /** Worked transcripts. Each names its transcript `t` so that the proof can
      reason about it through the lemmas of module Text. */
  lemma ExampleHelpWithDashboard(t: string, s: SessionState)
    requires t == "help me with the dashboard"
    ensures Dispatch(t, s).state.activeTab == "Dashboard"
    ensures Dispatch(t, s).ack == Some("Showing dashboard view")
  {
    assert Accepted(t) by {
      ToLowerOfLower(t);
      MissingTripleNotContained(t, "error", 1);
    }
    assert Contains(t, "help") by { assert OccursAt(t, "help", 0); }
    assert Contains(t, "dashboard") by { assert OccursAt(t, "dashboard", 17); }
    DashboardBeatsHelp(t, s);
  }

  lemma ExampleStopShowingCustomers(t: string, s: SessionState)
    requires t == "stop showing customers"
    ensures Dispatch(t, s).state.activeTab == "Customer Analytics"
    ensures Dispatch(t, s).state.listening == s.listening
    ensures Dispatch(t, s).ack == Some("Showing customer analytics")
  {
    assert Accepted(t) by {
      ToLowerOfLower(t);
      MissingTripleNotContained(t, "error", 1);
    }
    assert !Contains(t, "dashboard") by { MissingCharNotContained(t, "dashboard", 0); }
    assert !Contains(t, "home") by { MissingTripleNotContained(t, "home", 0); }
    assert Contains(t, "customer") by { assert OccursAt(t, "customer", 13); }
    assert Contains(t, "stop") by { assert OccursAt(t, "stop", 0); }
    MentionsAnyUnfold(t, StopKeywords);
    MentionsAnyUnfold(t, Keywords(Dashboard));
    MentionsAnyUnfold(t, Keywords(CustomerAnalytics));
    assert forall w :: Rank(w) < Rank(CustomerAnalytics) ==> w == Dashboard;
    ViewBeatsStop(t, s, CustomerAnalytics);
  }

  lemma ExampleOpenSettings(t: string, s: SessionState)
    requires t == "open settings please"
    requires s.activeTab == "Help" && s.listening
    ensures Dispatch(t, s).state.activeTab == "Settings"
    ensures Dispatch(t, s).state.listening
    ensures Dispatch(t, s).ack == Some("Opening settings")
  {
    AcceptedWithoutR(t);
    assert MentionsAny(t, Keywords(Settings)) by {
      assert OccursAt(t, "setting", 5);
      assert Contains(t, "setting");
      assert Keywords(Settings)[0] == "setting";
    }
    NoViewBeforeSettings(t);
    DispatchShowsView(t, s, Settings);
  }

  lemma ExampleStopListening(t: string, s: SessionState)
    requires t == "stop listening"
    ensures Dispatch(t, s) == Step(s.(lastCommand := t, listening := false), Some("Voice control deactivated"))
  {
    AcceptedWithoutR(t);
    assert MentionsAny(t, StopKeywords) by {
      ContainsPrefix(t, "");
      assert t + "" == t;
      assert StopKeywords[0] == t;
    }
    StopListeningMentionsNoView(t);
    DispatchStops(t, s);
  }

  /** "stop listening" mentions no view keyword. */
  lemma StopListeningMentionsNoView(t: string)
    requires t == "stop listening"
    ensures forall v :: !MentionsAny(t, Keywords(v))
  {
    assert !Contains(t, "setting") by { MissingTripleNotContained(t, "setting", 2); }
    assert !Contains(t, "settings") by { MissingTripleNotContained(t, "settings", 2); }
    assert !Contains(t, "configuration") by { MissingCharNotContained(t, "configuration", 0); }
    assert !Contains(t, "help") by { MissingCharNotContained(t, "help", 0); }
    NoViewBeforeSettings(t);
    forall v ensures !MentionsAny(t, Keywords(v)) {
      MentionsAnyUnfold(t, Keywords(v));
    }
  }

  /** A transcript without 'd', 'h', 'c', 'v' and 'f' mentions none of the
      keywords of the first four rules. */
  lemma NoViewBeforeSettings(t: string)
    requires 'd' !in t && 'h' !in t && 'c' !in t && 'v' !in t && 'f' !in t
    ensures forall w :: Rank(w) < Rank(Settings) ==> !MentionsAny(t, Keywords(w))
  {
    MissingCharNotContained(t, "dashboard", 0);
    MissingCharNotContained(t, "home", 0);
    MissingCharNotContained(t, "customer", 0);
    MissingCharNotContained(t, "customers", 0);
    MissingCharNotContained(t, "product", 3);
    MissingCharNotContained(t, "products", 3);
    MissingCharNotContained(t, "inventory", 2);
    MissingCharNotContained(t, "prediction", 3);
    MissingCharNotContained(t, "predict", 3);
    MissingCharNotContained(t, "forecast", 0);
    forall w | Rank(w) < Rank(Settings) ensures !MentionsAny(t, Keywords(w)) {
      MentionsAnyUnfold(t, Keywords(w));
    }
  }

  /** `st.session_state`: the five fields, assigned in place by the listening
      thread, the toggle button, the sidebar buttons and the Settings page. */
  class SessionStore {
    var listening: bool
    var lastCommand: string
    var activeTab: string
    var ttsEnabled: bool
    var darkMode: bool

    /** The fields as a value. */
    function State(): SessionState
      reads this
    {
      SessionState(listening, lastCommand, activeTab, ttsEnabled, darkMode)
    }

    predicate Valid()
      reads this
    {
      ValidState(State())
    }

    /** The defaults set when the session starts. */
    constructor ()
      ensures State() == InitialState() && Valid()
    {
      listening := false;
      lastCommand := NoCommandYet;
      activeTab := "Dashboard";
      ttsEnabled := true;
      darkMode := false;
    }

    /** `text_to_speech`: the text is said only while `tts_enabled` is set;
        the result is what is said. */
    method TextToSpeech(text: string) returns (said: Option<string>)
      ensures said == Spoken(Some(text), ttsEnabled)
    {
      if ttsEnabled {
        said := Some(text);
      } else {
        said := None;
      }
    }

    /** The body of the listening loop for one transcript. */
    method HandleTranscript(command: string) returns (ack: Option<string>, said: Option<string>)
      modifies this
      ensures Step(State(), ack) == Dispatch(command, old(State()))
      ensures said == Spoken(ack, ttsEnabled)
      ensures old(Valid()) ==> Valid()
    {
      ack := None;
      if |command| > 0 && !Contains(ToLower(command), "error") {
        lastCommand := command;
        match Classify(command) {
          case Show(v) =>
            activeTab := TabName(v);
            ack := Some(ViewAck(v));
          case StopListening =>
            listening := false;
            ack := Some(StopAck);
          case Unrecognized =>
        }
      }
      said := None;
      if ack.Some? {
        said := TextToSpeech(ack.value);
      }
    }

    /** `toggle_listening`. */
    method Toggle() returns (ack: string, said: Option<string>)
      modifies this
      ensures Step(State(), Some(ack)) == ToggleListening(old(State()))
      ensures said == Spoken(Some(ack), ttsEnabled)
      ensures old(Valid()) ==> Valid()
    {
      listening := !listening;
      if listening {
        ack := ActivatedAck;
      } else {
        ack := DeactivatedAck;
      }
      said := TextToSpeech(ack);
    }

    /** A sidebar navigation button. */
    method SelectTab(v: View)
      modifies this
      ensures State() == Navigate(old(State()), v)
      ensures Valid()
    {
      activeTab := TabName(v);
    }

    /** The text-to-speech switch of the Settings page. */
    method ChangeTextToSpeech(enabled: bool) returns (said: Option<string>)
      requires activeTab == TabName(Settings)
      modifies this
      ensures Step(State(), said) == SetTextToSpeech(old(State()), enabled)
      ensures old(Valid()) ==> Valid()
    {
      said := None;
      if enabled != ttsEnabled {
        ttsEnabled := enabled;
        if enabled {
          said := TextToSpeech(TtsEnabledAck);
        }
      }
    }

    /** The listening thread's `while listening` loop, reading its transcripts
        from `feed`: it returns how many it read and what was said. */
    method ListeningLoop(feed: seq<string>) returns (consumed: nat, said: seq<string>)
      modifies this
      ensures State() == Listen(feed, old(State())).state
      ensures consumed == Listen(feed, old(State())).consumed
      ensures said == if ttsEnabled then Listen(feed, old(State())).acks else []
      ensures old(Valid()) ==> Valid()
    {
      consumed := 0;
      said := [];
      ghost var acks: seq<string> := [];
      while listening && consumed < |feed|
        invariant consumed <= |feed|
        invariant ttsEnabled == old(ttsEnabled)
        invariant old(Valid()) ==> Valid()
        invariant said == if ttsEnabled then acks else []
        invariant var rest := Listen(feed[consumed..], State());
          Listen(feed, old(State())) == Run(rest.state, consumed + rest.consumed, acks + rest.acks)
        decreases |feed| - consumed
      {
        ghost var before := State();
        var ack, spoken := HandleTranscript(feed[consumed]);
        assert feed[consumed..][1..] == feed[consumed + 1..];
        ghost var rest := Listen(feed[consumed + 1..], State());
        assert Listen(feed[consumed..], before) ==
          Run(rest.state, rest.consumed + 1, AckList(ack) + rest.acks);
        assert acks + (AckList(ack) + rest.acks) == (acks + AckList(ack)) + rest.acks;
        acks := acks + AckList(ack);
        if spoken.Some? {
          said := said + [spoken.value];
        }
        consumed := consumed + 1;
      }
    }
  }
}
