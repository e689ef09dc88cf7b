/**
 * notification/pipeline.go: the older broadcaster. `Run` refuses to start without a downstream
 * channel, then serves a `select` over a `done` channel and the upstream channel: a message is
 * forwarded to every downstream channel, the done signal closes them all and ends the loop.
 * Which case the `select` takes is given as the sequence `ready` of cases in the order they fire.
 */
module NotificationPipeline {
  import opened Message
  import opened Channels

  /** The two cases of the `select` in `Run`. */
  datatype Ready = DoneSignal | FromUpstream(m: Message)

  datatype RunResult = Panicked(reason: string) | Returned | Blocked

  const DownstreamEmpty := "downstream is empty"
  const ReceivedFromUpstream := "Received message from upstream"

  /** The messages received before the first done signal. */
  function BeforeDone(ready: seq<Ready>): seq<Message> {
    if ready == [] || ready[0].DoneSignal? then [] else [ready[0].m] + BeforeDone(ready[1..])
  }

  /** Consuming one upstream message moves it from the pending messages to the forwarded ones. */
  lemma StepBeforeDone(ready: seq<Ready>, i: nat)
    requires i < |ready| && ready[i].FromUpstream?
    requires forall j :: 0 <= j < i ==> ready[j].FromUpstream?
    ensures BeforeDone(ready[..i + 1]) == BeforeDone(ready[..i]) + [ready[i].m]
  {
    PrefixOfUpstreamOnly(ready, i + 1);
    PrefixOfUpstreamOnly(ready, i);
    assert BeforeDone(ready[..i + 1]) == seq(i + 1, j requires 0 <= j < i + 1 => ready[j].m);
    assert BeforeDone(ready[..i]) == seq(i, j requires 0 <= j < i => ready[j].m);
  }

  /** A prefix made only of upstream messages forwards exactly those messages, and the whole
      sequence starts with them. */
  lemma {:induction false} PrefixOfUpstreamOnly(ready: seq<Ready>, i: nat)
    requires i <= |ready|
    requires forall j :: 0 <= j < i ==> ready[j].FromUpstream?
    ensures BeforeDone(ready[..i]) == seq(i, j requires 0 <= j < i => ready[j].m)
    ensures |BeforeDone(ready)| >= i && BeforeDone(ready)[..i] == BeforeDone(ready[..i])
  {
    if i > 0 {
      PrefixOfUpstreamOnly(ready[1..], i - 1);
      assert ready[1..][..i - 1] == ready[..i][1..];
      assert BeforeDone(ready[..i]) == [ready[0].m] + BeforeDone(ready[..i][1..]);
    } else {
      assert ready[..i] == [];
    }
  }

  /** A done signal at position i ends the forwarding there. */
  lemma DoneAt(ready: seq<Ready>, i: nat)
    requires i < |ready| && ready[i].DoneSignal?
    requires forall j :: 0 <= j < i ==> ready[j].FromUpstream?
    ensures BeforeDone(ready) == BeforeDone(ready[..i])
  {
    PrefixOfUpstreamOnly(ready, i);
    DoneCut(ready, i);
  }

  lemma {:induction false} DoneCut(ready: seq<Ready>, i: nat)
    requires i < |ready| && ready[i].DoneSignal?
    requires forall j :: 0 <= j < i ==> ready[j].FromUpstream?
    ensures |BeforeDone(ready)| == i
  {
    if i > 0 {
      DoneCut(ready[1..], i - 1);
    }
  }

  /** Without any done signal, every message is forwarded. */
  lemma NoDoneForwardsAll(ready: seq<Ready>)
    requires forall j :: 0 <= j < |ready| ==> ready[j].FromUpstream?
    ensures BeforeDone(ready) == seq(|ready|, j requires 0 <= j < |ready| => ready[j].m)
  {
    PrefixOfUpstreamOnly(ready, |ready|);
    assert ready[..|ready|] == ready;
  }

  /** `Run`: panics on an empty downstream before touching anything; otherwise forwards each
      upstream message to every downstream channel, in the order the `select` delivers them,
      and closes every downstream channel on the done signal. */
  method Run(downstream: array<Queue<Message>>, ready: seq<Ready>)
    returns (res: RunResult, logs: seq<string>, ghost sends: seq<Send<Message>>)
    requires AllOpen(downstream[..])
    modifies downstream
    ensures res.Panicked? <==> downstream.Length < 1
    ensures res.Panicked? ==> res.reason == DownstreamEmpty && logs == [] && sends == []
    ensures res.Panicked? ==> downstream[..] == old(downstream[..])
    ensures !res.Panicked? ==>
      && (res == Returned <==> exists j :: 0 <= j < |ready| && ready[j].DoneSignal?)
      && (res != Returned ==> res == Blocked)
      && downstream[..] == Delivered(old(downstream[..]), BeforeDone(ready), res == Returned)
      && sends == FanOut(BeforeDone(ready), downstream.Length)
      && logs == seq(|BeforeDone(ready)|, _ => ReceivedFromUpstream)
  {
    logs, sends := [], [];
    if downstream.Length < 1 {
      return Panicked(DownstreamEmpty), logs, sends;
    }
    ghost var start := downstream[..];
    ghost var forwarded: seq<Message> := [];
    DeliveredNothing(start);
    assert ready[..0] == [];
    var i := 0;
    while i < |ready|
      invariant 0 <= i <= |ready|
      invariant forall j :: 0 <= j < i ==> ready[j].FromUpstream?
      invariant forwarded == BeforeDone(ready[..i])
      invariant downstream[..] == Delivered(start, forwarded, false)
      invariant AllOpen(downstream[..])
      invariant sends == FanOut(forwarded, downstream.Length)
      invariant logs == seq(|forwarded|, _ => ReceivedFromUpstream)
    {
      if ready[i].DoneSignal? {
        DoneAt(ready, i);
        CloseAll(downstream);
        ClosedEverything(start, forwarded);
        return Returned, logs, sends;
      }
      var m := ready[i].m;
      StepBeforeDone(ready, i);
      logs := logs + [ReceivedFromUpstream];
      var round := SendAll(downstream, m);
      DeliveredStep(start, forwarded, m);
      FanOutAppend(forwarded, m, downstream.Length);
      sends := sends + round;
      forwarded := forwarded + [m];
      i := i + 1;
    }
    assert ready[..|ready|] == ready;
    res := Blocked;
  }
}
