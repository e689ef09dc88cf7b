/**
 * notification/setup.go: `Setup` of the older notification system. It always builds the default
 * log notifier, reads the list under "channels" from the configuration, turns every map in it
 * into a string-keyed map, logs what it would do with each, and starts a goroutine that sends
 * every warning to all warning channels and every error to all error channels.
 *
 * The configuration is what `viper.Sub("notification")` returns: `None` when there is no such
 * section, otherwise its keys and values.
 */
module Setup {
  import opened Wrappers
  import opened Dynamic
  import opened NotificationMessage
  import opened Channels
  import NotificationLog

  /** `logDefaultConfig` */
  const LogDefaultConfig: Config := map["name" := DStr("notifier"), "level" := DStr("warn")]

  /** The default log notifier's configuration is complete. */
  lemma DefaultConfigComplete()
    ensures forall key | key in NotificationLog.RequiredKeys :: key in LogDefaultConfig && LogDefaultConfig[key].DStr?
  {
    assert NotificationLog.RequiredKeys == ["name", "level"];
  }

  /** The `map[string]interface{}` the loop fills for one configured channel. Every append of
      `m` to `channelCfgs` appends this same object, so later assignments show in every copy. */
  class ConfigMap {
    var entries: Config

    constructor ()
      ensures entries == map[]
    {
      entries := map[];
    }
  }

  datatype Outcome =
    | Started                 // the goroutine runs and the channel is returned
    | MalformedConfiguration  // `ErrMalformedConfiguration`
    | KeyNotStringPanic       // `k.(string)` failed on a key of another type

  datatype Level = Warn | Error

  /** One logger call: level, message and the value logged with "type", if any (`None` is nil). */
  datatype SetupLog = SetupLog(level: Level, text: string, typ: Option<Dyn>)

  const LoggingOnly := SetupLog(Warn, "No notification channles configured. Logging only.", None)

  function NotImplemented(typ: string): SetupLog {
    SetupLog(Warn, "Channel not implemented yet.", Some(DStr(typ)))
  }

  /** The switch on `cfg["type"]`. The "nats" case logs the type "amqp". */
  function TypeLog(cfg: Config): (l: SetupLog)
    ensures l.level == Warn <==>
      exists t | t in ["webhook", "opsgenie", "amqp", "nats"] :: HoldsString(cfg, "type", t)
    ensures l.level == Warn ==>
      && "type" in cfg && cfg["type"].DStr?
      && l == NotImplemented(if cfg["type"].s == "nats" then "amqp" else cfg["type"].s)
    ensures l.level == Error ==> l == SetupLog(Error, "Channel unknown", if "type" in cfg then Some(cfg["type"]) else None)
  {
    if HoldsString(cfg, "type", "webhook") then NotImplemented("webhook")
    else if HoldsString(cfg, "type", "opsgenie") then NotImplemented("opsgenie")
    else if HoldsString(cfg, "type", "amqp") then NotImplemented("amqp")
    else if HoldsString(cfg, "type", "nats") then NotImplemented("amqp")
    else SetupLog(Error, "Channel unknown", if "type" in cfg then Some(cfg["type"]) else None)
  }

  /** A "nats" channel is reported under the type "amqp". */
  lemma NatsReportedAsAmqp(cfg: Config)
    requires HoldsString(cfg, "type", "nats")
    ensures TypeLog(cfg) == TypeLog(map["type" := DStr("amqp")])
  {
  }

  /** n copies of the same map. */
  function Copies(m: Config, n: nat): (r: seq<Config>)
    ensures |r| == n && forall i :: 0 <= i < n ==> r[i] == m
  {
    seq(n, _ => m)
  }

  /** What one list entry contributes to `channelCfgs`: a map with k entries is appended k times,
      each time as the whole string-keyed map; any other value contributes nothing. */
  function Contribution(d: Dyn): seq<Config> {
    match d
    case DMap(e) => Copies(StringKeyed(e), |e|)
    case _ => []
  }

  /** `channelCfgs` as the loop over the "channels" list leaves it. */
  function Expand(items: seq<Dyn>): seq<Config> {
    if items == [] then [] else Contribution(items[0]) + Expand(items[1..])
  }

  /** A value that is a map has only string keys. */
  predicate KeysAreStrings(d: Dyn) {
    d.DMap? ==> forall k | k in d.entries :: k.StrKey?
  }

  /** Every map in the list has only string keys. */
  predicate StringKeysOnly(items: seq<Dyn>) {
    forall i :: 0 <= i < |items| ==> KeysAreStrings(items[i])
  }

  /** The "channels" value when it is a list. */
  predicate HasChannelList(cfg: Config) {
    "channels" in cfg && cfg["channels"].DList?
  }

  /** One "type" line per configuration, in order. */
  function TypeLogs(cfgs: seq<Config>): (ls: seq<SetupLog>)
    ensures |ls| == |cfgs|
  {
    if cfgs == [] then [] else TypeLogs(cfgs[..|cfgs| - 1]) + [TypeLog(cfgs[|cfgs| - 1])]
  }

  /** The i-th "type" line is the one of the i-th configuration. */
  lemma {:induction false} TypeLogsAt(cfgs: seq<Config>, i: nat)
    requires i < |cfgs|
    ensures TypeLogs(cfgs)[i] == TypeLog(cfgs[i])
  {
    if i < |cfgs| - 1 {
      TypeLogsAt(cfgs[..|cfgs| - 1], i);
    }
  }

  /** The logging after the loop: "logging only" when nothing was configured, then one line per
      entry of `channelCfgs`. */
  function ConfigLogs(cfgs: seq<Config>): (ls: seq<SetupLog>)
    ensures |ls| == |cfgs| + (if cfgs == [] then 1 else 0)
  {
    (if cfgs == [] then [LoggingOnly] else []) + TypeLogs(cfgs)
  }

  lemma {:induction false} ExpandAppend(a: seq<Dyn>, b: seq<Dyn>)
    ensures Expand(a + b) == Expand(a) + Expand(b)
  {
    if a == [] {
      assert a + b == b;
    } else {
      assert (a + b)[0] == a[0] && (a + b)[1..] == a[1..] + b;
      ExpandAppend(a[1..], b);
    }
  }

  /** The list entries that are not maps are skipped. */
  lemma NonMapIgnored(a: seq<Dyn>, d: Dyn, b: seq<Dyn>)
    requires !d.DMap?
    ensures Expand(a + [d] + b) == Expand(a + b)
  {
    assert a + [d] + b == a + ([d] + b);
    assert ([d] + b)[0] == d && ([d] + b)[1..] == b;
    assert Expand([d] + b) == Contribution(d) + Expand(b) == Expand(b);
    ExpandAppend(a, [d] + b);
    ExpandAppend(a, b);
  }

  /** "Logging only" is logged exactly when no map in the list has an entry. */
  lemma {:induction false} ExpandEmptyIff(items: seq<Dyn>)
    ensures Expand(items) == [] <==> forall i :: 0 <= i < |items| && items[i].DMap? ==> |items[i].entries| == 0
  {
    if items != [] {
      ExpandEmptyIff(items[1..]);
      assert forall i :: 1 <= i < |items| ==> items[i] == items[1..][i - 1];
    }
  }

  /** Every entry of `channelCfgs` is a whole map of the list, re-keyed by its string keys. */
  lemma {:induction false} ExpandedFromList(items: seq<Dyn>, j: nat)
    requires j < |Expand(items)|
    ensures exists i :: 0 <= i < |items| && items[i].DMap? && Expand(items)[j] == StringKeyed(items[i].entries)
  {
    var c := Contribution(items[0]);
    if j < |c| {
      assert Expand(items)[j] == c[j];
    } else {
      ExpandedFromList(items[1..], j - |c|);
      var i :| 0 <= i < |items[1..]| && items[1..][i].DMap? && Expand(items[1..])[j - |c|] == StringKeyed(items[1..][i].entries);
      assert items[i + 1] == items[1..][i];
    }
  }

  /** `m` holds the entries of `e` under the visited keys, which are all strings. */
  ghost predicate Filled(e: map<Key, Dyn>, m: Config, done: set<Key>) {
    && (forall k | k in done :: k.StrKey?)
    && (forall s :: s in m <==> StrKey(s) in done)
    && (forall s | s in m :: StrKey(s) in e && m[s] == e[StrKey(s)])
  }

  /** The state of the key loop over `e` with `todo` left: `entries` holds the visited keys and
      `out` is `cfgs` followed by one append of `m` per visited key. */
  ghost predicate Appending(e: map<Key, Dyn>, cfgs: seq<ConfigMap>, m: ConfigMap, entries: Config,
                            out: seq<ConfigMap>, todo: set<Key>) {
    && todo <= e.Keys
    && Filled(e, entries, e.Keys - todo)
    && |out| == |cfgs| + |e.Keys - todo|
    && out[..|cfgs|] == cfgs
    && forall j :: |cfgs| <= j < |out| ==> out[j] == m
  }

  /** Visiting one more string key stores its entry and appends the map once more. */
  lemma StoreStep(e: map<Key, Dyn>, cfgs: seq<ConfigMap>, m: ConfigMap, entries: Config,
                  out: seq<ConfigMap>, todo: set<Key>, k: Key)
    requires Appending(e, cfgs, m, entries, out, todo) && k in todo && k.StrKey?
    ensures Appending(e, cfgs, m, entries[k.s := e[k]], out + [m], todo - {k})
  {
    var done := e.Keys - todo;
    assert e.Keys - (todo - {k}) == done + {k};
    FilledStep(e, entries, done, k);
    assert (out + [m])[..|cfgs|] == out[..|cfgs|];
  }

  lemma FilledStep(e: map<Key, Dyn>, entries: Config, done: set<Key>, k: Key)
    requires Filled(e, entries, done) && k in e && k !in done && k.StrKey?
    ensures Filled(e, entries[k.s := e[k]], done + {k})
  {
  }

  /** Once every key is visited, each new entry of `out` is the map, holding the whole
      string-keyed map. */
  lemma AllVisited(e: map<Key, Dyn>, cfgs: seq<ConfigMap>, m: ConfigMap, entries: Config, out: seq<ConfigMap>)
    requires Appending(e, cfgs, m, entries, out, {})
    ensures KeysAreStrings(DMap(e)) && entries == StringKeyed(e)
    ensures |out| == |cfgs| + |e| && out[..|cfgs|] == cfgs
    ensures forall j :: |cfgs| <= j < |out| ==> out[j] == out[|cfgs|] == m
  {
    assert e.Keys - {} == e.Keys;
  }

  /** The loop over the keys of one map: every key is asserted to be a string and stored, and
      after each key the same map object is appended once more. */
  method AppendPerKey(e: map<Key, Dyn>, cfgs: seq<ConfigMap>) returns (ok: bool, out: seq<ConfigMap>)
    ensures ok <==> KeysAreStrings(DMap(e))
    ensures ok ==> |out| == |cfgs| + |e| && out[..|cfgs|] == cfgs
    ensures ok ==> forall j :: |cfgs| <= j < |out| ==> out[j] == out[|cfgs|] && out[j].entries == StringKeyed(e)
  {
    var m := new ConfigMap();
    out := cfgs;
    var todo := e.Keys;
    assert e.Keys - todo == {};
    while todo != {}
      invariant Appending(e, cfgs, m, m.entries, out, todo)
      decreases |todo|
    {
      var k :| k in todo;
      if !k.StrKey? {
        return false, out;
      }
      StoreStep(e, cfgs, m, m.entries, out, todo, k);
      m.entries := m.entries[k.s := e[k]];
      out := out + [m];
      todo := todo - {k};
    }
    AllVisited(e, cfgs, m, m.entries, out);
    return true, out;
  }

  /** The map objects in `cfgs` hold the configurations `views`, one for one. */
  ghost predicate Mirrors(cfgs: seq<ConfigMap>, views: seq<Config>)
    reads cfgs
  {
    |cfgs| == |views| && forall j :: 0 <= j < |cfgs| ==> cfgs[j].entries == views[j]
  }

  /** Appending the objects of one map's key loop mirrors appending its contribution. */
  lemma MirrorsExtend(before: seq<ConfigMap>, cfgs: seq<ConfigMap>, views: seq<Config>, e: map<Key, Dyn>)
    requires Mirrors(before, views)
    requires |cfgs| == |before| + |e| && cfgs[..|before|] == before
    requires forall j :: |before| <= j < |cfgs| ==> cfgs[j].entries == StringKeyed(e)
    ensures Mirrors(cfgs, views + Contribution(DMap(e)))
  {
    assert forall j :: 0 <= j < |before| ==> cfgs[j] == before[j];
  }

  /** The loops over the "channels" list and over the keys of each map in it: `Started` with
      `channelCfgs`, or the panic they end in. */
  method ReadChannels(items: seq<Dyn>) returns (res: Outcome, cfgs: seq<ConfigMap>)
    ensures res == Started <==> StringKeysOnly(items)
    ensures res != Started ==> res == KeyNotStringPanic
    ensures res == Started ==> Mirrors(cfgs, Expand(items))
  {
    cfgs := [];
    for i := 0 to |items|
      invariant StringKeysOnly(items[..i])
      invariant Mirrors(cfgs, Expand(items[..i]))
    {
      ExpandStep(items, i);
      StringKeysStep(items, i);
      if items[i].DMap? {
        var ok;
        ghost var before := cfgs;
        ok, cfgs := AppendPerKey(items[i].entries, cfgs);
        if !ok {
          return KeyNotStringPanic, cfgs;
        }
        MirrorsExtend(before, cfgs, Expand(items[..i]), items[i].entries);
      }
    }
    assert items[..|items|] == items;
    return Started, cfgs;
  }

  /** One more list entry appends its contribution. */
  lemma ExpandStep(items: seq<Dyn>, i: nat)
    requires i < |items|
    ensures Expand(items[..i + 1]) == Expand(items[..i]) + Contribution(items[i])
  {
    assert items[..i + 1] == items[..i] + [items[i]];
    ExpandAppend(items[..i], [items[i]]);
    assert Expand([items[i]]) == Contribution(items[i]) + Expand([]);
  }

  /** One more list entry keeps the key condition exactly when its own keys are strings. */
  lemma StringKeysStep(items: seq<Dyn>, i: nat)
    requires i < |items|
    ensures StringKeysOnly(items[..i + 1]) <==> StringKeysOnly(items[..i]) && KeysAreStrings(items[i])
  {
    assert forall j :: 0 <= j < i ==> items[..i + 1][j] == items[..i][j];
    assert items[..i + 1][i] == items[i];
  }

  /** The logging after the loop over the list, for `channelCfgs` holding `views`. */
  method LogChannels(cfgs: seq<ConfigMap>, ghost views: seq<Config>) returns (logs: seq<SetupLog>)
    requires Mirrors(cfgs, views)
    ensures logs == ConfigLogs(views)
  {
    logs := if |cfgs| == 0 then [LoggingOnly] else [];
    ghost var head := logs;
    assert views[..0] == [];
    for i := 0 to |cfgs|
      invariant logs == head + TypeLogs(views[..i])
    {
      assert views[..i + 1][..i] == views[..i];
      logs := logs + [TypeLog(cfgs[i].entries)];
    }
    assert views[..|cfgs|] == views;
  }

  /** `Setup` up to starting the goroutine: the notifiers it broadcasts to, the outcome and the
      log lines written. */
  method Setup(config: Option<Config>)
    returns (res: Outcome, notifiers: seq<NotificationLog.LogNotifier>, logs: seq<SetupLog>)
    ensures notifiers == [NotificationLog.LogNotifier("notifier", "warn")]
    ensures config.None? ==> res == Started && logs == [LoggingOnly]
    ensures config.Some? && !HasChannelList(config.value) ==> res == MalformedConfiguration && logs == []
    ensures config.Some? && HasChannelList(config.value) ==>
      && (res == Started <==> StringKeysOnly(config.value["channels"].items))
      && (res != Started ==> res == KeyNotStringPanic && logs == [])
      && (res == Started ==> logs == ConfigLogs(Expand(config.value["channels"].items)))
  {
    var ln := NotificationLog.NewLogNotifier(LogDefaultConfig);
    notifiers := [ln.value];
    if config.None? {
      logs := LogChannels([], []);
      return Started, notifiers, logs;
    }
    logs := [];
    if !HasChannelList(config.value) {
      return MalformedConfiguration, notifiers, logs;
    }
    var items := config.value["channels"].items;
    var cfgs;
    res, cfgs := ReadChannels(items);
    if res != Started {
      return;
    }
    logs := LogChannels(cfgs, Expand(items));
  }

  // ----- the goroutine -----

  /** The warnings among the notices, in order. */
  function Warnings(ns: seq<Notice<string>>): seq<Notice<string>> {
    if ns == [] then [] else (if ns[0].WarningMessage? then [ns[0]] else []) + Warnings(ns[1..])
  }

  /** The errors among the notices, in order. */
  function Errors(ns: seq<Notice<string>>): seq<Notice<string>> {
    if ns == [] then [] else (if ns[0].ErrorMessage? then [ns[0]] else []) + Errors(ns[1..])
  }

  /** The goroutine over the returned channel, for the notices `incoming` sent on it: each warning
      goes to every warning channel and each error to every error channel, in arrival order.
      The loop has no exit, so no channel is ever closed. */
  method Broadcast(warnQs: array<Queue<Notice<string>>>, errQs: array<Queue<Notice<string>>>, incoming: seq<Notice<string>>)
    requires warnQs != errQs
    requires AllOpen(warnQs[..]) && AllOpen(errQs[..])
    modifies warnQs, errQs
    ensures warnQs[..] == Delivered(old(warnQs[..]), Warnings(incoming), false)
    ensures errQs[..] == Delivered(old(errQs[..]), Errors(incoming), false)
  {
    ghost var w0, e0 := warnQs[..], errQs[..];
    DeliveredNothing(w0);
    DeliveredNothing(e0);
    assert incoming[..0] == [];
    for i := 0 to |incoming|
      invariant warnQs[..] == Delivered(w0, Warnings(incoming[..i]), false)
      invariant errQs[..] == Delivered(e0, Errors(incoming[..i]), false)
      invariant AllOpen(warnQs[..]) && AllOpen(errQs[..])
    {
      var msg := incoming[i];
      SplitStep(incoming, i);
      match msg
      case WarningMessage(_) =>
        var _ := SendAll(warnQs, msg);
        DeliveredStep(w0, Warnings(incoming[..i]), msg);
      case ErrorMessage(_) =>
        var _ := SendAll(errQs, msg);
        DeliveredStep(e0, Errors(incoming[..i]), msg);
    }
    assert incoming[..|incoming|] == incoming;
  }

  /** One more notice extends exactly one of the two splits. */
  lemma SplitStep(ns: seq<Notice<string>>, i: nat)
    requires i < |ns|
    ensures ns[i].WarningMessage? ==>
      Warnings(ns[..i + 1]) == Warnings(ns[..i]) + [ns[i]] && Errors(ns[..i + 1]) == Errors(ns[..i])
    ensures ns[i].ErrorMessage? ==>
      Errors(ns[..i + 1]) == Errors(ns[..i]) + [ns[i]] && Warnings(ns[..i + 1]) == Warnings(ns[..i])
  {
    assert ns[..i + 1] == ns[..i] + [ns[i]];
    SplitAppend(ns[..i], [ns[i]]);
    assert [ns[i]][1..] == [];
    assert Warnings(ns[..i]) + [] == Warnings(ns[..i]) && Errors(ns[..i]) + [] == Errors(ns[..i]);
  }

  lemma {:induction false} SplitAppend(a: seq<Notice<string>>, b: seq<Notice<string>>)
    ensures Warnings(a + b) == Warnings(a) + Warnings(b)
    ensures Errors(a + b) == Errors(a) + Errors(b)
  {
    if a == [] {
      assert a + b == b;
    } else {
      assert (a + b)[0] == a[0] && (a + b)[1..] == a[1..] + b;
      SplitAppend(a[1..], b);
    }
  }

  /** The split loses and invents nothing: every notice goes to exactly one side, warnings to
      the warning channels and errors to the error channels. */
  lemma {:induction false} SplitIsPartition(ns: seq<Notice<string>>)
    ensures multiset(Warnings(ns)) + multiset(Errors(ns)) == multiset(ns)
    ensures forall n | n in Warnings(ns) :: n.WarningMessage?
    ensures forall n | n in Errors(ns) :: n.ErrorMessage?
  {
    if ns != [] {
      SplitIsPartition(ns[1..]);
      assert ns == [ns[0]] + ns[1..];
    }
  }
}
