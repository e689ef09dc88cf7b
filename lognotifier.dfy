/**
 * notification/lognotifier/log.go: the log notifier of the pipeline. Its goroutine reads
 * messages until the channel is closed and writes one record per Warning (level warn) and per
 * Error (level error), naming the backup; any other message is read and dropped.
 */
module LogNotifier {
  import opened Message
  import Server
  import Classifier
  import Velero

  datatype Level = WarnLevel | ErrorLevel

  /** One record: level, message and the "backup" attribute. */
  datatype Record = Record(level: Level, text: string, backup: string)

  const PartiallyFailed := "Backup partially failed"
  const Failed := "Backup failed"

  /** The type switch for one message. */
  function Handle(m: Message): seq<Record> {
    match m
    case Warning(b) => [Record(WarnLevel, PartiallyFailed, b.name)]
    case Error(b) => [Record(ErrorLevel, Failed, b.name)]
    case Foreign(_, _) => []
  }

  /** The records written for the messages `ms`, in order. */
  function Records(ms: seq<Message>): seq<Record> {
    if ms == [] then [] else Handle(ms[0]) + Records(ms[1..])
  }

  /** The messages of the two kinds the switch handles, in order. */
  function Known(ms: seq<Message>): seq<Message> {
    if ms == [] then [] else (if ms[0].Foreign? then [] else [ms[0]]) + Known(ms[1..])
  }

  /** The goroutine of `Run`, for the messages sent before the channel was closed. */
  method Run(ms: seq<Message>) returns (records: seq<Record>)
    ensures records == Records(ms)
  {
    records := [];
    for i := 0 to |ms|
      invariant records == Records(ms[..i])
    {
      RecordsStep(ms, i);
      records := records + Handle(ms[i]);
    }
    assert ms[..|ms|] == ms;
  }

  /** The records of one more message follow those of the earlier ones. */
  lemma RecordsStep(ms: seq<Message>, i: nat)
    requires i < |ms|
    ensures Records(ms[..i + 1]) == Records(ms[..i]) + Handle(ms[i])
  {
    assert ms[..i + 1] == ms[..i] + [ms[i]];
    RecordsAppend(ms[..i], [ms[i]]);
    assert Records([ms[i]]) == Handle(ms[i]) + Records([]) == Handle(ms[i]);
  }

  /** Records of consecutive stretches of messages concatenate. */
  lemma {:induction false} RecordsAppend(a: seq<Message>, b: seq<Message>)
    ensures Records(a + b) == Records(a) + Records(b)
  {
    if a == [] {
      assert a + b == b;
    } else {
      assert (a + b)[0] == a[0] && (a + b)[1..] == a[1..] + b;
      RecordsAppend(a[1..], b);
    }
  }

  /** Record r reports message m: at warn level with "Backup partially failed" for a Warning, at
      error level with "Backup failed" for an Error, naming its backup. */
  predicate Reports(r: Record, m: Message) {
    && r.backup == GetBackup(m).name
    && (r.level == WarnLevel <==> m.Warning?)
    && r.text == (if m.Warning? then PartiallyFailed else Failed)
  }

  /** Record i reports the i-th Warning or Error, and there is no other record. */
  lemma {:induction false} RecordsMatchMessages(ms: seq<Message>)
    ensures |Records(ms)| == |Known(ms)|
    ensures forall i :: 0 <= i < |Known(ms)| ==> Reports(Records(ms)[i], Known(ms)[i])
  {
    if ms != [] {
      RecordsMatchMessages(ms[1..]);
      var known, records := Known(ms), Records(ms);
      if !ms[0].Foreign? {
        assert known == [ms[0]] + Known(ms[1..]);
        assert records == Handle(ms[0]) + Records(ms[1..]);
        assert Reports(records[0], known[0]);
        forall i | 1 <= i < |known|
          ensures records[i] == Records(ms[1..])[i - 1] && known[i] == Known(ms[1..])[i - 1]
        {
        }
      }
    }
  }

  /** Every message the watcher loop sends leads to exactly one record. */
  lemma {:induction false} EmittedAllKnown(es: seq<Velero.WatchEvent>)
    ensures Known(Server.Emitted(es)) == Server.Emitted(es)
  {
    if es != [] {
      EmittedAllKnown(es[1..]);
      Server.EmittedAppend([es[0]], es[1..]);
      assert [es[0]] + es[1..] == es;
      KnownAppend(Server.Emit(Classifier.Classify(es[0])), Server.Emitted(es[1..]));
      assert Server.Emitted([es[0]]) == Server.Emit(Classifier.Classify(es[0])) + Server.Emitted([]);
    }
  }

  lemma {:induction false} KnownAppend(a: seq<Message>, b: seq<Message>)
    ensures Known(a + b) == Known(a) + Known(b)
  {
    if a == [] {
      assert a + b == b;
    } else {
      assert (a + b)[0] == a[0] && (a + b)[1..] == a[1..] + b;
      KnownAppend(a[1..], b);
    }
  }
}
