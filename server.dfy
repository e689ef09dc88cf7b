/**
 * server/server.go: the watcher loop of `server.Run`. The loop is fed a sequence of select
 * outcomes (a watch event arrives, or the `done` signal fires); every event is classified,
 * logged and, when it signals trouble, one message is pushed downstream.
 */
module Server {
  import opened Wrappers
  import opened Velero
  import opened Message
  import opened Classifier

  /** The two cases of the `select` in `Run`. */
  datatype Select = Done | Received(evt: WatchEvent)

  datatype RunResult = Returned | Failed(reason: string) | StillRunning

  /** What the phase switch sends downstream for one verdict: nothing or one message. */
  function Emit(v: Verdict): (ms: seq<Message>)
    ensures |ms| <= 1
    ensures |ms| == 1 <==> v.Raise?
    ensures v.Raise? ==> GetBackup(ms[0]) == v.backup && (ms[0].Warning? <==> v.severity == WarningSeverity)
    ensures forall m | m in ms :: !m.Foreign?
  {
    match v
    case Raise(WarningSeverity, b) => [Warning(b)]
    case Raise(ErrorSeverity, b) => [Error(b)]
    case _ => []
  }

  /** The messages a sequence of events sends downstream, in event order. */
  function Emitted(es: seq<WatchEvent>): seq<Message> {
    if es == [] then [] else Emit(Classify(es[0])) + Emitted(es[1..])
  }

  /** The log call of one verdict as a sequence of zero or one lines. */
  function NoteOf(v: Verdict): (ls: seq<LogLine>)
    ensures |ls| <= 1 && (Note(v).Some? ==> ls == [Note(v).value])
  {
    match Note(v) case Some(l) => [l] case None => []
  }

  /** The log calls a sequence of events makes, in event order. */
  function Logged(es: seq<WatchEvent>): seq<LogLine> {
    if es == [] then [] else NoteOf(Classify(es[0])) + Logged(es[1..])
  }

  /** The events received before the first `done` signal. */
  function BeforeDone(inputs: seq<Select>): seq<WatchEvent> {
    if inputs == [] || inputs[0].Done? then [] else [inputs[0].evt] + BeforeDone(inputs[1..])
  }

  /** Up to the first `done` signal, the events can be collected piecewise. */
  lemma {:induction false} BeforeDoneSplit(inputs: seq<Select>, i: nat)
    requires i <= |inputs|
    requires forall j :: 0 <= j < i ==> inputs[j].Received?
    ensures BeforeDone(inputs) == BeforeDone(inputs[..i]) + BeforeDone(inputs[i..])
  {
    if i == 0 {
      assert inputs[..0] == [] && inputs[0..] == inputs;
    } else {
      BeforeDoneSplit(inputs[1..], i - 1);
      assert inputs[..i][1..] == inputs[1..][..i - 1];
      assert inputs[1..][i - 1..] == inputs[i..];
    }
  }

  /** One received event, consumed by the loop, is handled after the earlier ones. */
  lemma ReceivedStep(inputs: seq<Select>, i: nat)
    requires i < |inputs| && inputs[i].Received?
    requires forall j :: 0 <= j < i ==> inputs[j].Received?
    ensures Emitted(BeforeDone(inputs[..i + 1])) == Emitted(BeforeDone(inputs[..i])) + Emit(Classify(inputs[i].evt))
    ensures Logged(BeforeDone(inputs[..i + 1])) == Logged(BeforeDone(inputs[..i])) + NoteOf(Classify(inputs[i].evt))
  {
    var pre, e := inputs[..i + 1], inputs[i].evt;
    var es := BeforeDone(inputs[..i]);
    BeforeDoneSplit(pre, i);
    assert pre[..i] == inputs[..i];
    assert pre[i..] == [inputs[i]];
    assert BeforeDone([inputs[i]]) == [e] + BeforeDone([]) == [e];
    assert BeforeDone(pre) == es + [e];
    EmittedAppend(es, [e]);
    LoggedAppend(es, [e]);
    assert Emitted([e]) == Emit(Classify(e)) + Emitted([]) == Emit(Classify(e));
    assert Logged([e]) == NoteOf(Classify(e)) + Logged([]) == NoteOf(Classify(e));
  }

  /** A `done` signal ends the events handled. */
  lemma DoneStep(inputs: seq<Select>, i: nat)
    requires i < |inputs| && inputs[i].Done?
    requires forall j :: 0 <= j < i ==> inputs[j].Received?
    ensures BeforeDone(inputs) == BeforeDone(inputs[..i])
  {
    BeforeDoneSplit(inputs, i);
  }

  const SettingUpClient := LogLine(Info, "Setting up client", "")

  /** The `for`/`select` loop of `Run`: it returns on the first `done` signal; every event
      before it is classified, logged and, when it signals trouble, sent downstream. */
  method Serve(inputs: seq<Select>) returns (returned: bool, sent: seq<Message>, logs: seq<LogLine>)
    ensures returned <==> exists j :: 0 <= j < |inputs| && inputs[j].Done?
    ensures sent == Emitted(BeforeDone(inputs))
    ensures logs == Logged(BeforeDone(inputs))
  {
    sent, logs := [], [];
    var i := 0;
    while i < |inputs|
      invariant 0 <= i <= |inputs|
      invariant forall j :: 0 <= j < i ==> inputs[j].Received?
      invariant sent == Emitted(BeforeDone(inputs[..i]))
      invariant logs == Logged(BeforeDone(inputs[..i]))
    {
      if inputs[i].Done? {
        DoneStep(inputs, i);
        return true, sent, logs;
      }
      ReceivedStep(inputs, i);
      var v := Classify(inputs[i].evt);
      logs := logs + NoteOf(v);
      sent := sent + Emit(v);
      i := i + 1;
    }
    assert inputs[..|inputs|] == inputs;
    returned := false;
  }

  /** `Run`: a failed client or watcher ends it with an error before any event is read. */
  method Run(clientErr: Option<string>, watchErr: Option<string>, inputs: seq<Select>)
    returns (res: RunResult, sent: seq<Message>, logs: seq<LogLine>)
    ensures clientErr.Some? ==>
      res == Failed("setting up client: " + clientErr.value) && sent == [] && logs == [SettingUpClient]
    ensures clientErr.None? && watchErr.Some? ==>
      res == Failed("setting up watcher: " + watchErr.value) && sent == [] && logs == [SettingUpClient]
    ensures clientErr.None? && watchErr.None? ==>
      && (res == Returned <==> exists j :: 0 <= j < |inputs| && inputs[j].Done?)
      && (res != Returned ==> res == StillRunning)
      && sent == Emitted(BeforeDone(inputs))
      && logs == [SettingUpClient] + Logged(BeforeDone(inputs))
  {
    if clientErr.Some? {
      return Failed("setting up client: " + clientErr.value), [], [SettingUpClient];
    }
    if watchErr.Some? {
      return Failed("setting up watcher: " + watchErr.value), [], [SettingUpClient];
    }
    var returned, loopLogs;
    returned, sent, loopLogs := Serve(inputs);
    logs := [SettingUpClient] + loopLogs;
    res := if returned then Returned else StillRunning;
  }

  /** Each event sends at most one message downstream. */
  lemma {:induction false} AtMostOnePerEvent(es: seq<WatchEvent>)
    ensures |Emitted(es)| <= |es|
  {
    if es != [] {
      AtMostOnePerEvent(es[1..]);
    }
  }

  /** Emission distributes over concatenation: later events' messages follow earlier ones'. */
  lemma {:induction false} EmittedAppend(a: seq<WatchEvent>, b: seq<WatchEvent>)
    ensures Emitted(a + b) == Emitted(a) + Emitted(b)
  {
    if a == [] {
      assert a + b == b;
    } else {
      assert (a + b)[0] == a[0] && (a + b)[1..] == a[1..] + b;
      EmittedAppend(a[1..], b);
    }
  }

  /** Logging distributes over concatenation as well. */
  lemma {:induction false} LoggedAppend(a: seq<WatchEvent>, b: seq<WatchEvent>)
    ensures Logged(a + b) == Logged(a) + Logged(b)
  {
    if a == [] {
      assert a + b == b;
    } else {
      assert (a + b)[0] == a[0] && (a + b)[1..] == a[1..] + b;
      LoggedAppend(a[1..], b);
    }
  }

  /** `m` is the message the event `e` raises. */
  ghost predicate RaisedBy(m: Message, e: WatchEvent) {
    && Classify(e).Raise?
    && GetBackup(m) == e.obj.backup
    && (m.Warning? <==> e.obj.backup.phase == PhasePartiallyFailed)
    && !m.Foreign?
  }

  /** Every message sent downstream is a Warning or an Error carrying the backup of an event
      that raised it, and a Warning comes from a PartiallyFailed backup. */
  lemma {:induction false} EmittedComeFromRaisingEvents(es: seq<WatchEvent>, m: Message)
    requires m in Emitted(es)
    ensures exists e :: RaisedBy(m, e) && e in es
  {
    if m in Emit(Classify(es[0])) {
      assert es[0] in es;
    } else {
      EmittedComeFromRaisingEvents(es[1..], m);
      var e :| RaisedBy(m, e) && e in es[1..];
      assert e in es;
    }
  }

  /** A modified backup that partially failed sends exactly one Warning with that backup,
      one that failed exactly one Error. */
  lemma OneEventDispatch(k: EventType, b: Backup)
    requires k != Added && k != Deleted
    ensures b.phase == PhasePartiallyFailed ==> Emitted([WatchEvent(k, BackupObject(b))]) == [Warning(b)]
    ensures b.phase == PhaseFailed ==> Emitted([WatchEvent(k, BackupObject(b))]) == [Error(b)]
    ensures b.phase !in {PhasePartiallyFailed, PhaseFailed} ==> Emitted([WatchEvent(k, BackupObject(b))]) == []
  {
    assert [WatchEvent(k, BackupObject(b))][1..] == [];
  }
}
