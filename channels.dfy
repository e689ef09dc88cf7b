/**
 * Go channels as the broadcasters use them: an unbuffered channel is observed through the
 * sequence of values sent on it and whether it has been closed. A slice of channels is an
 * array of such queues. Sending on a closed channel and closing one twice make Go panic, so
 * both operations require an open channel.
 */
module Channels {

  datatype Queue<M> = Queue(items: seq<M>, closed: bool)

  /** One send `(index of the channel, value)`, in the order the broadcaster makes them. */
  datatype Send<M> = Send(channel: nat, value: M)

  predicate AllOpen<M>(s: seq<Queue<M>>) {
    forall i :: 0 <= i < |s| ==> !s[i].closed
  }

  /** The sends of one round of `for _, c := range downstream { c <- m }` over n channels. */
  function Round<M>(m: M, n: nat): (r: seq<Send<M>>)
    ensures |r| == n
    ensures forall j :: 0 <= j < n ==> r[j] == Send(j, m)
  {
    seq(n, j requires 0 <= j < n => Send(j, m))
  }

  /** The sends of a broadcaster that forwards every value of `ms` to n channels, one value at a time. */
  function FanOut<M>(ms: seq<M>, n: nat): seq<Send<M>> {
    if ms == [] then [] else Round(ms[0], n) + FanOut(ms[1..], n)
  }

  /** The queues after every value of `ms` was sent on each of them, and all closed when `close`. */
  function Delivered<M>(s: seq<Queue<M>>, ms: seq<M>, close: bool): (r: seq<Queue<M>>)
    ensures |r| == |s|
    ensures forall i :: 0 <= i < |s| ==> r[i].items == s[i].items + ms && r[i].closed == (s[i].closed || close)
  {
    seq(|s|, i requires 0 <= i < |s| => Queue(s[i].items + ms, s[i].closed || close))
  }

  /** `for _, c := range downstream { c <- m }`: m is appended to every queue, first to last. */
  method SendAll<M>(qs: array<Queue<M>>, m: M) returns (ghost sends: seq<Send<M>>)
    requires AllOpen(qs[..])
    modifies qs
    ensures qs[..] == Delivered(old(qs[..]), [m], false)
    ensures sends == Round(m, qs.Length)
  {
    sends := [];
    for i := 0 to qs.Length
      invariant forall j :: 0 <= j < i ==> qs[j] == Queue(old(qs[j]).items + [m], false)
      invariant forall j :: i <= j < qs.Length ==> qs[j] == old(qs[j])
      invariant sends == Round(m, i)
    {
      qs[i] := Queue(qs[i].items + [m], false);
      sends := sends + [Send(i, m)];
    }
  }

  /** `for _, c := range downstream { close(c) }`: every queue is closed exactly once. */
  method CloseAll<M>(qs: array<Queue<M>>)
    requires AllOpen(qs[..])
    modifies qs
    ensures qs[..] == Delivered(old(qs[..]), [], true)
  {
    for i := 0 to qs.Length
      invariant forall j :: 0 <= j < i ==> qs[j] == Queue(old(qs[j]).items, true)
      invariant forall j :: i <= j < qs.Length ==> qs[j] == old(qs[j])
    {
      qs[i] := Queue(qs[i].items, true);
    }
    ghost var d := Delivered(old(qs[..]), [], true);
    forall j | 0 <= j < qs.Length ensures qs[j] == d[j] {
      assert d[j].items == old(qs[j]).items + [];
    }
  }

  /** Delivering nothing without closing leaves the queues as they were. */
  lemma DeliveredNothing<M>(s: seq<Queue<M>>)
    ensures Delivered(s, [], false) == s
  {
    var d := Delivered(s, [], false);
    forall j | 0 <= j < |s| ensures d[j] == s[j] {
      assert d[j].items == s[j].items + [];
    }
  }

  /** Sending value after value: the queues' growth and the send order compose. */
  lemma DeliveredStep<M>(s: seq<Queue<M>>, ms: seq<M>, m: M)
    requires AllOpen(s)
    ensures Delivered(Delivered(s, ms, false), [m], false) == Delivered(s, ms + [m], false)
    ensures AllOpen(Delivered(s, ms, false))
  {
    var l, r := Delivered(Delivered(s, ms, false), [m], false), Delivered(s, ms + [m], false);
    assert |l| == |r|;
    forall i | 0 <= i < |l| ensures l[i] == r[i] {
      assert l[i].items == s[i].items + ms + [m];
    }
  }

  lemma {:induction false} FanOutAppend<M>(ms: seq<M>, m: M, n: nat)
    ensures FanOut(ms + [m], n) == FanOut(ms, n) + Round(m, n)
  {
    if ms == [] {
      assert FanOut([m], n) == Round(m, n) + FanOut([], n);
    } else {
      assert (ms + [m])[0] == ms[0] && (ms + [m])[1..] == ms[1..] + [m];
      FanOutAppend(ms[1..], m, n);
    }
  }

  /** All sends of value k come after those of the earlier values and before those of later
      ones: the broadcaster reads the next value only when the current one reached every channel. */
  lemma {:induction false} FanOutSplit<M>(ms: seq<M>, n: nat, k: nat)
    requires k < |ms|
    ensures FanOut(ms, n) == FanOut(ms[..k], n) + Round(ms[k], n) + FanOut(ms[k + 1..], n)
  {
    assert ms == ms[..k] + ([ms[k]] + ms[k + 1..]);
    FanOutConcat(ms[..k], [ms[k]] + ms[k + 1..], n);
    assert ([ms[k]] + ms[k + 1..])[0] == ms[k] && ([ms[k]] + ms[k + 1..])[1..] == ms[k + 1..];
  }

  lemma {:induction false} FanOutConcat<M>(a: seq<M>, b: seq<M>, n: nat)
    ensures FanOut(a + b, n) == FanOut(a, n) + FanOut(b, n)
  {
    if a == [] {
      assert a + b == b;
    } else {
      assert (a + b)[0] == a[0] && (a + b)[1..] == a[1..] + b;
      FanOutConcat(a[1..], b, n);
    }
  }

  /** Every channel receives each value exactly once: n sends per value. */
  lemma {:induction false} FanOutLength<M>(ms: seq<M>, n: nat)
    ensures |FanOut(ms, n)| == |ms| * n
  {
    if ms != [] {
      FanOutLength(ms[1..], n);
      assert |ms| * n == n + (|ms| - 1) * n;
    }
  }

  /** Closing the queues after the last value is the same as delivering with `close` set. */
  lemma ClosedEverything<M>(s: seq<Queue<M>>, ms: seq<M>)
    ensures Delivered(Delivered(s, ms, false), [], true) == Delivered(s, ms, true)
  {
    var l, r := Delivered(Delivered(s, ms, false), [], true), Delivered(s, ms, true);
    forall i | 0 <= i < |l| ensures l[i] == r[i] {
      assert l[i].items == s[i].items + ms + [];
    }
  }

  /** The position of a value's round in the send trace: the k-th value is sent to
      channel c at position k * n + c, so every channel receives the values in upstream order. */
  lemma {:induction false} SendPosition<M>(ms: seq<M>, n: nat, k: nat, c: nat)
    requires k < |ms| && c < n
    ensures k * n + c < |FanOut(ms, n)|
    ensures FanOut(ms, n)[k * n + c] == Send(c, ms[k])
  {
    FanOutSplit(ms, n, k);
    FanOutLength(ms[..k], n);
    FanOutLength(ms, n);
    assert |ms[..k]| == k;
    assert k * n + c < |ms| * n by {
      assert (k + 1) * n <= |ms| * n;
    }
  }
}
