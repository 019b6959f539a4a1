/** The voice-command vocabulary of app.py: the six tabs, the if/elif chain
    that maps a transcript to a command, and the fixed acknowledgements. */
module Commands {
  import opened Text

  datatype Option<T> = None | Some(value: T)

  /** The tabs the sidebar and the voice commands switch between. */
  datatype View = Dashboard | CustomerAnalytics | ProductAnalytics | PredictiveAnalytics | Settings | Help

  /** The six values `active_tab` is ever given. */
  const TabNames: set<string> :=
    {"Dashboard", "Customer Analytics", "Product Analytics", "Predictive Analytics", "Settings", "Help"}

  /** The string stored in `active_tab` for a view. */
  function TabName(v: View): (name: string)
    ensures name in TabNames
  {
    match v
    case Dashboard => "Dashboard"
    case CustomerAnalytics => "Customer Analytics"
    case ProductAnalytics => "Product Analytics"
    case PredictiveAnalytics => "Predictive Analytics"
    case Settings => "Settings"
    case Help => "Help"
  }

  /** Tab names and views correspond one to one. */
  lemma TabNameBijective(v: View, w: View, t: string)
    ensures TabName(v) == TabName(w) ==> v == w
    ensures t in TabNames ==> exists u :: TabName(u) == t
  {
    if t in TabNames {
      if t == "Dashboard" { assert TabName(Dashboard) == t; }
      else if t == "Customer Analytics" { assert TabName(CustomerAnalytics) == t; }
      else if t == "Product Analytics" { assert TabName(ProductAnalytics) == t; }
      else if t == "Predictive Analytics" { assert TabName(PredictiveAnalytics) == t; }
      else if t == "Settings" { assert TabName(Settings) == t; }
      else { assert TabName(Help) == t; }
    }
  }

  /** What one transcript asks for. */
  datatype Command = Show(view: View) | StopListening | Unrecognized

  /** A transcript reaches the command chain only when it is non-empty and its
      lower-case form does not contain "error". */
  predicate Accepted(command: string)
  {
    |command| > 0 && !Contains(ToLower(command), "error")
  }

  /** The failure report of the speech recogniser is never taken for a command,
      whatever the exception text. */
  lemma ErrorReportRejected(detail: string)
    ensures !Accepted("Error occurred: " + detail)
  {
    var report := "Error occurred: " + detail;
    var lower := ToLower(report);
    assert report[..5] == "Error";
    assert lower[..5] == "error" by {
      forall i | 0 <= i < 5 ensures lower[i] == "error"[i] {
        assert lower[i] == LowerChar(report[i]);
      }
    }
    ContainsPrefix(lower[..5], lower[5..]);
    assert lower[..5] + lower[5..] == lower;
  }

  /** A non-empty transcript without the letter r in either case is accepted. */
  lemma AcceptedWithoutR(command: string)
    requires |command| > 0 && 'r' !in command && 'R' !in command
    ensures Accepted(command)
  {
    var lower := ToLower(command);
    forall i | 0 <= i < |lower| ensures lower[i] != 'r' {
      assert command[i] != 'r' && command[i] != 'R';
    }
    MissingCharNotContained(lower, "error", 1);
  }

  /** The if/elif chain: substring tests on the transcript as given, the first
      matching branch wins. */
  function Classify(command: string): (c: Command)
  {
    if Contains(command, "dashboard") || Contains(command, "home") then
      Show(Dashboard)
    else if Contains(command, "customer") || Contains(command, "customers") then
      Show(CustomerAnalytics)
    else if Contains(command, "product") || Contains(command, "products") || Contains(command, "inventory") then
      Show(ProductAnalytics)
    else if Contains(command, "prediction") || Contains(command, "predict") || Contains(command, "forecast") then
      Show(PredictiveAnalytics)
    else if Contains(command, "setting") || Contains(command, "settings") || Contains(command, "configuration") then
      Show(Settings)
    else if Contains(command, "help") then
      Show(Help)
    else if Contains(command, "stop listening") || Contains(command, "stop") then
      StopListening
    else
      Unrecognized
  }

  /** The rule table behind the chain: each view's keywords, and its rank in the
      order the rules are tried. */
  function Keywords(v: View): seq<string>
  {
    match v
    case Dashboard => ["dashboard", "home"]
    case CustomerAnalytics => ["customer", "customers"]
    case ProductAnalytics => ["product", "products", "inventory"]
    case PredictiveAnalytics => ["prediction", "predict", "forecast"]
    case Settings => ["setting", "settings", "configuration"]
    case Help => ["help"]
  }

  function Rank(v: View): nat
  {
    match v
    case Dashboard => 0
    case CustomerAnalytics => 1
    case ProductAnalytics => 2
    case PredictiveAnalytics => 3
    case Settings => 4
    case Help => 5
  }

  const StopKeywords: seq<string> := ["stop listening", "stop"]

  /** The transcript contains at least one of the words. */
  predicate MentionsAny(command: string, words: seq<string>)
  {
    exists w :: w in words && Contains(command, w)
  }

  /** First match wins: a transcript shows view `v` exactly when it mentions one
      of `v`'s keywords and none of the keywords of an earlier rule. */
  lemma ClassifyShow(command: string, v: View)
    ensures Classify(command) == Show(v) <==>
      MentionsAny(command, Keywords(v)) &&
      forall w :: Rank(w) < Rank(v) ==> !MentionsAny(command, Keywords(w))
  {
    MentionsAll(command);
    if Classify(command) == Show(v) {
      forall w | Rank(w) < Rank(v) ensures !MentionsAny(command, Keywords(w)) {
        match w
        case Dashboard =>
        case CustomerAnalytics =>
        case ProductAnalytics =>
        case PredictiveAnalytics =>
        case Settings =>
        case Help =>
      }
    } else if MentionsAny(command, Keywords(v)) {
      var w := Classify(command).view;
      assert Rank(w) < Rank(v);
    }
  }

  /** "stop" halts listening only when no view keyword is present. */
  lemma ClassifyStop(command: string)
    ensures Classify(command) == StopListening <==>
      MentionsAny(command, StopKeywords) && forall v :: !MentionsAny(command, Keywords(v))
  {
    MentionsAll(command);
    NoViewMentioned(command);
  }

  /** A transcript without any keyword is not recognised. */
  lemma ClassifyUnrecognized(command: string)
    ensures Classify(command) == Unrecognized <==>
      !MentionsAny(command, StopKeywords) && forall v :: !MentionsAny(command, Keywords(v))
  {
    MentionsAll(command);
    NoViewMentioned(command);
  }

  /** The chain falls through every view branch exactly when no view keyword occurs. */
  lemma NoViewMentioned(command: string)
    ensures !Classify(command).Show? <==> forall v :: !MentionsAny(command, Keywords(v))
  {
    MentionsAll(command);
    if !Classify(command).Show? {
      forall v ensures !MentionsAny(command, Keywords(v)) {
        match v
        case Dashboard =>
        case CustomerAnalytics =>
        case ProductAnalytics =>
        case PredictiveAnalytics =>
        case Settings =>
        case Help =>
      }
    } else {
      assert MentionsAny(command, Keywords(Classify(command).view));
    }
  }

  /** Spells out `MentionsAny` on every keyword list of the table. */
  lemma MentionsAll(command: string)
    ensures forall v :: MentionsAny(command, Keywords(v)) <==> MentionsOf(command, Keywords(v))
    ensures MentionsAny(command, StopKeywords) <==> MentionsOf(command, StopKeywords)
  {
  }

  /** `MentionsAny` as a disjunction over the list, for lists of up to three words. */
  predicate MentionsOf(command: string, words: seq<string>)
    requires 0 < |words| <= 3
  {
    Contains(command, words[0]) ||
    (1 < |words| && Contains(command, words[1])) ||
    (2 < |words| && Contains(command, words[2]))
  }

  lemma MentionsAnyUnfold(command: string, words: seq<string>)
    requires 0 < |words| <= 3
    ensures MentionsAny(command, words) <==> MentionsOf(command, words)
  {
  }

  /** The shortest keyword of each group; the longer spellings the chain also
      tests ("customers", "products", "prediction", "settings", "stop listening")
      contain one of these and never decide a branch on their own. */
  function CoreKeywords(v: View): seq<string>
  {
    match v
    case Dashboard => ["dashboard", "home"]
    case CustomerAnalytics => ["customer"]
    case ProductAnalytics => ["product", "inventory"]
    case PredictiveAnalytics => ["predict", "forecast"]
    case Settings => ["setting", "configuration"]
    case Help => ["help"]
  }

  lemma KeywordsReduce(command: string, v: View)
    ensures MentionsAny(command, Keywords(v)) <==> MentionsAny(command, CoreKeywords(v))
    ensures MentionsAny(command, StopKeywords) <==> Contains(command, "stop")
  {
    MentionsAnyUnfold(command, Keywords(v));
    MentionsAnyUnfold(command, CoreKeywords(v));
    MentionsAnyUnfold(command, StopKeywords);
    assert "customer" + "s" == "customers";
    Subsumes(command, "customer", "s");
    assert "product" + "s" == "products";
    Subsumes(command, "product", "s");
    assert "predict" + "ion" == "prediction";
    Subsumes(command, "predict", "ion");
    assert "setting" + "s" == "settings";
    Subsumes(command, "setting", "s");
    assert "stop" + " listening" == "stop listening";
    Subsumes(command, "stop", " listening");
  }

  /** A transcript that contains `word + suffix` contains `word`. */
  lemma Subsumes(command: string, word: string, suffix: string)
    ensures Contains(command, word + suffix) ==> Contains(command, word)
  {
    if Contains(command, word + suffix) {
      ContainsPrefix(word, suffix);
      ContainsTransitive(command, word + suffix, word);
    }
  }

  /** The acknowledgement each branch of the chain speaks. */
  function ViewAck(v: View): string
  {
    match v
    case Dashboard => "Showing dashboard view"
    case CustomerAnalytics => "Showing customer analytics"
    case ProductAnalytics => "Showing product analytics"
    case PredictiveAnalytics => "Showing predictive analytics"
    case Settings => "Opening settings"
    case Help => "Showing help information"
  }

  const StopAck := "Voice control deactivated"

  /** A recognised command has exactly one fixed acknowledgement; an
      unrecognised one has none. */
  function Acknowledgement(c: Command): (ack: Option<string>)
    ensures ack.None? <==> c.Unrecognized?
  {
    match c
    case Show(v) => Some(ViewAck(v))
    case StopListening => Some(StopAck)
    case Unrecognized => None
  }

  /** Distinct branches speak distinct acknowledgements, so the acknowledgement
      tells which branch ran. */
  lemma AcknowledgementInjective(c: Command, d: Command)
    ensures Acknowledgement(c) == Acknowledgement(d) ==> c == d
  {
  }
}
