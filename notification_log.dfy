/**
 * notification/log.go: the default notifier of the older notification system. Its constructor
 * checks the configuration for the required keys, in order, and reads both as strings; its
 * goroutine writes one log record for every warning and every error it receives.
 */
module NotificationLog {
  import opened Wrappers
  import opened Dynamic
  import opened NotificationMessage

  /** The keys the constructor requires, in the order it checks them. */
  const RequiredKeys: seq<string> := ["name", "level"]

  /** Why construction did not produce a notifier: a missing key is returned as
      `ErrIncompleteConfiguration`; a present key whose value is not a string makes the type
      assertion `cfg[key].(string)` panic. */
  datatype LogConfigError = IncompleteConfiguration(key: string) | NotAStringPanic(key: string)

  /** The notifier's logger configuration: its name and the level name handed to
      `hclog.LevelFromString`. */
  datatype LogNotifier = LogNotifier(name: string, level: string)

  /** `ErrIncompleteConfiguration.Error()`. */
  function ErrorText(key: string): (t: string)
    ensures |t| == |key| + 17
    ensures t[..5] == "Key '" && t[5..5 + |key|] == key && t[5 + |key|..] == "' is missing"
  {
    "Key '" + key + "' is missing"
  }

  /** The key can be read back from the error text: different keys give different texts. */
  lemma ErrorTextNamesKey(a: string, b: string)
    requires ErrorText(a) == ErrorText(b)
    ensures a == b
  {
    assert |a| == |b|;
    assert a == ErrorText(a)[5..5 + |a|];
  }

  /** `NewLogNotifier`. */
  method NewLogNotifier(cfg: Config) returns (r: Result<LogNotifier, LogConfigError>)
    ensures "name" !in cfg ==> r == Failure(IncompleteConfiguration("name"))
    ensures "name" in cfg && "level" !in cfg ==> r == Failure(IncompleteConfiguration("level"))
    ensures r.Failure? && r.error.IncompleteConfiguration? <==> "name" !in cfg || "level" !in cfg
    ensures "name" in cfg && "level" in cfg ==>
      if !cfg["name"].DStr? then r == Failure(NotAStringPanic("name"))
      else if !cfg["level"].DStr? then r == Failure(NotAStringPanic("level"))
      else r == Success(LogNotifier(cfg["name"].s, cfg["level"].s))
  {
    assert RequiredKeys == ["name", "level"];
    for i := 0 to |RequiredKeys|
      invariant forall j :: 0 <= j < i ==> RequiredKeys[j] in cfg
    {
      var key := RequiredKeys[i];
      assert i > 0 ==> RequiredKeys[0] in cfg;
      if key !in cfg {
        return Failure(IncompleteConfiguration(key));
      }
    }
    assert RequiredKeys[0] in cfg && RequiredKeys[1] in cfg;
    var name := cfg["name"];
    if !name.DStr? {
      return Failure(NotAStringPanic("name"));
    }
    var level := cfg["level"];
    if !level.DStr? {
      return Failure(NotAStringPanic("level"));
    }
    return Success(LogNotifier(name.s, level.s));
  }

  // ----- the goroutine `run` -----

  /** The two cases of the `select` in `run`. */
  datatype Arrival = OnWarnings(w: Notice<string>) | OnErrors(e: Notice<string>)

  datatype Level = Warn | Error

  /** One log record: level, message and the notice's text. */
  datatype Record = Record(level: Level, text: string, message: string)

  const ProblemDetected := "Problem with backup detected"
  const BackupError := "Backup error"

  /** `run`: one record per arrival, at the level of the channel it arrived on. */
  method Run(arrivals: seq<Arrival>) returns (records: seq<Record>)
    ensures |records| == |arrivals|
    ensures forall i :: 0 <= i < |arrivals| ==> arrivals[i].OnWarnings? ==>
      records[i] == Record(Warn, ProblemDetected, Text(arrivals[i].w))
    ensures forall i :: 0 <= i < |arrivals| ==> arrivals[i].OnErrors? ==>
      records[i] == Record(Error, BackupError, Text(arrivals[i].e))
  {
    records := [];
    for i := 0 to |arrivals|
      invariant |records| == i
      invariant forall j :: 0 <= j < i ==> arrivals[j].OnWarnings? ==>
        records[j] == Record(Warn, ProblemDetected, Text(arrivals[j].w))
      invariant forall j :: 0 <= j < i ==> arrivals[j].OnErrors? ==>
        records[j] == Record(Error, BackupError, Text(arrivals[j].e))
    {
      match arrivals[i]
      case OnWarnings(w) =>
        records := records + [Record(Warn, ProblemDetected, Text(w))];
      case OnErrors(e) =>
        records := records + [Record(Error, BackupError, Text(e))];
    }
  }
}
