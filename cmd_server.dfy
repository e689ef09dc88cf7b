/**
 * cmd/server.go: the `server` command. It loads the Kubernetes configuration, builds the client
 * and the Backup watcher, sets up the notifications and then serves an endless loop that
 * classifies every watch event and sends a `WarningMessage` or `ErrorMessage` for a partially
 * failed or failed backup on the notification channel.
 *
 * The Kubernetes calls are inputs: the error each of `LoadConfig`, `factory.Client()` and `Watch`
 * returned, if any. The watch channel is the sequence of events received so far; the loop has no
 * exit, so the command is still listening after the last of them.
 */
module ServerCommand {
  import opened Wrappers
  import opened Velero
  import opened Classifier
  import opened NotificationMessage
  import Server
  import Message
  import Dynamic
  import Setup

  datatype PanicReason =
    | NilClient              // `factory.Client()` failed: the watcher is requested on a nil client
    | WatchFailed(err: string)
    | SetupFailed            // `notification.Setup` returned an error
    | SetupPanicked          // `notification.Setup` itself panicked

  datatype RunResult = Panicked(reason: PanicReason) | Listening

  function InfoLine(text: string): LogLine {
    LogLine(Info, text, "")
  }

  function ErrorLine(text: string): LogLine {
    LogLine(ErrorLevel, text, "")
  }

  /** The log calls up to the watcher request. An error from `LoadConfig` or from the client
      factory is logged and the command carries on. */
  function Prelude(loadErr: Option<string>, clientErr: Option<string>): (ls: seq<LogLine>)
    ensures |ls| == 6 + (if loadErr.Some? then 1 else 0) + (if clientErr.Some? then 1 else 0)
    ensures ls[0] == InfoLine("Starting server") && ls[|ls| - 1] == InfoLine("Setting up watcher")
    ensures ErrorLine("Loading config") in ls <==> loadErr.Some?
    ensures ErrorLine("Setting up client") in ls <==> clientErr.Some?
  {
    [InfoLine("Starting server"), InfoLine("Connecting to kubernetes master"), InfoLine("Loading config")]
    + (if loadErr.Some? then [ErrorLine("Loading config")] else [])
    + [InfoLine("Setting up client factory"), InfoLine("Setting up client")]
    + (if clientErr.Some? then [ErrorLine("Setting up client")] else [])
    + [InfoLine("Setting up watcher")]
  }

  /** What the phase switch of the loop sends for one verdict: nothing or one notice. */
  function Notify(v: Verdict): (ns: seq<Notice<Backup>>)
    ensures |ns| <= 1
    ensures |ns| == 1 <==> v.Raise?
    ensures v.Raise? ==> ns[0].value == v.backup && (ns[0].WarningMessage? <==> v.severity == WarningSeverity)
  {
    match v
    case Raise(WarningSeverity, b) => [WarningMessage(b)]
    case Raise(ErrorSeverity, b) => [ErrorMessage(b)]
    case _ => []
  }

  /** The notices a sequence of events sends, in event order. */
  function Notified(es: seq<WatchEvent>): seq<Notice<Backup>> {
    if es == [] then [] else Notified(es[..|es| - 1]) + Notify(Classify(es[|es| - 1]))
  }

  /** `notification.Setup` with this configuration returns without error. */
  predicate SetupStarts(notification: Option<Dynamic.Config>) {
    || notification.None?
    || (Setup.HasChannelList(notification.value) && Setup.StringKeysOnly(notification.value["channels"].items))
  }

  /** One event handled by the loop: its notice and its log line follow the earlier ones. */
  lemma ListenStep(es: seq<WatchEvent>, i: nat)
    requires i < |es|
    ensures Notified(es[..i + 1]) == Notified(es[..i]) + Notify(Classify(es[i]))
    ensures Server.Logged(es[..i + 1]) == Server.Logged(es[..i]) + Server.NoteOf(Classify(es[i]))
  {
    assert es[..i + 1][..i] == es[..i];
    assert es[..i + 1] == es[..i] + [es[i]];
    Server.LoggedAppend(es[..i], [es[i]]);
    assert Server.Logged([es[i]]) == Server.NoteOf(Classify(es[i])) + Server.Logged([]);
  }

  /** The endless `for`/`select` loop, over the events received so far. */
  method Listen(events: seq<WatchEvent>) returns (sent: seq<Notice<Backup>>, logs: seq<LogLine>)
    ensures sent == Notified(events)
    ensures logs == Server.Logged(events)
  {
    sent, logs := [], [];
    for i := 0 to |events|
      invariant sent == Notified(events[..i])
      invariant logs == Server.Logged(events[..i])
    {
      ListenStep(events, i);
      var v := Classify(events[i]);
      logs := logs + Server.NoteOf(v);
      sent := sent + Notify(v);
    }
    assert events[..|events|] == events;
  }

  /** `serverCmd.Run`: a failed client or watcher and a failed notification setup stop the
      command before any event is read; otherwise every received event is classified, logged
      and, when it signals a failure, notified. */
  method Run(loadErr: Option<string>, clientErr: Option<string>, watchErr: Option<string>,
             notification: Option<Dynamic.Config>, events: seq<WatchEvent>)
    returns (res: RunResult, sent: seq<Notice<Backup>>, logs: seq<LogLine>)
    ensures clientErr.Some? ==> res == Panicked(NilClient) && sent == [] && logs == Prelude(loadErr, clientErr)
    ensures clientErr.None? && watchErr.Some? ==>
      && res == Panicked(WatchFailed(watchErr.value)) && sent == []
      && logs == Prelude(loadErr, clientErr) + [ErrorLine("Setting up watcher")]
    ensures clientErr.None? && watchErr.None? ==>
      && (res == Listening <==> SetupStarts(notification))
      && (res != Listening ==> sent == [])
      && (res == Listening ==> sent == Notified(events) && logs == Prelude(loadErr, clientErr) + Server.Logged(events))
    ensures clientErr.None? && watchErr.None? && notification.Some? && !Setup.HasChannelList(notification.value) ==>
      res == Panicked(SetupFailed) && logs == Prelude(loadErr, clientErr) + [ErrorLine("Setting up notifications")]
    ensures (clientErr.None? && watchErr.None? && notification.Some? && Setup.HasChannelList(notification.value)
             && !Setup.StringKeysOnly(notification.value["channels"].items)) ==>
      res == Panicked(SetupPanicked) && logs == Prelude(loadErr, clientErr)
  {
    logs := Prelude(loadErr, clientErr);
    sent := [];
    if clientErr.Some? {
      return Panicked(NilClient), sent, logs;
    }
    if watchErr.Some? {
      logs := logs + [ErrorLine("Setting up watcher")];
      return Panicked(WatchFailed(watchErr.value)), sent, logs;
    }
    var outcome, _, _ := Setup.Setup(notification);
    if outcome == Setup.KeyNotStringPanic {
      return Panicked(SetupPanicked), sent, logs;
    }
    if outcome == Setup.MalformedConfiguration {
      logs := logs + [ErrorLine("Setting up notifications")];
      return Panicked(SetupFailed), sent, logs;
    }
    var loopSent, loopLogs := Listen(events);
    sent, logs := loopSent, logs + loopLogs;
    res := Listening;
  }

  /** The command and server/server.go classify alike: the i-th notice of the command carries
      the backup of the i-th message of the server, and is a warning exactly when that one is. */
  lemma {:induction false} SameDispatchAsServer(es: seq<WatchEvent>)
    ensures |Notified(es)| == |Server.Emitted(es)|
    ensures forall i :: 0 <= i < |Notified(es)| ==>
      && Notified(es)[i].value == Message.GetBackup(Server.Emitted(es)[i])
      && (Notified(es)[i].WarningMessage? <==> Server.Emitted(es)[i].Warning?)
  {
    if es != [] {
      var init, last := es[..|es| - 1], es[|es| - 1];
      SameDispatchAsServer(init);
      Server.EmittedAppend(init, [last]);
      assert es == init + [last];
      assert Server.Emitted([last]) == Server.Emit(Classify(last)) + Server.Emitted([]);
    }
  }

  /** Added and Deleted events and non-Backup objects never lead to a notice. */
  lemma {:induction false} SkippedEventsNotifyNothing(es: seq<WatchEvent>)
    requires forall i :: 0 <= i < |es| ==> es[i].kind in {Added, Deleted} || es[i].obj.OtherObject?
    ensures Notified(es) == []
  {
    if es != [] {
      SkippedEventsNotifyNothing(es[..|es| - 1]);
    }
  }

  /** A partially failed backup gives one WarningMessage with that backup and a failed one an
      ErrorMessage; the observed phases give none. */
  lemma OneEventNotice(k: EventType, b: Backup)
    requires k != Added && k != Deleted
    ensures b.phase == PhasePartiallyFailed ==> Notified([WatchEvent(k, BackupObject(b))]) == [WarningMessage(b)]
    ensures b.phase == PhaseFailed ==> Notified([WatchEvent(k, BackupObject(b))]) == [ErrorMessage(b)]
    ensures b.phase in {PhaseNew, PhaseCompleted, PhaseDeleting, PhaseInProgress} ==>
      Notified([WatchEvent(k, BackupObject(b))]) == []
  {
    assert [WatchEvent(k, BackupObject(b))][..0] == [];
  }
}
