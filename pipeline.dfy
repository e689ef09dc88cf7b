/**
 * pipeline/pipeline.go: the broadcaster between the watcher and the notifiers. `New` builds the
 * downstream list (one notifier per configured webhook, then the log notifier); `Run` forwards
 * every upstream message to every downstream channel and closes them all once upstream closes.
 * A notifier is represented by what it was built from; its goroutine is modelled by the
 * notifier's own `Run`.
 */
module Pipeline {
  import opened Wrappers
  import opened Message
  import opened Channels
  import Webhook

  /** What one downstream channel feeds. */
  datatype Sink = WebhookSink(notifier: Webhook.Notifier) | LogSink

  /** `configuring webhook '<name>':<cause>` */
  datatype WebhookError = ConfiguringWebhook(name: string, cause: Webhook.NewError)

  /** `configuring webhooks: <inner>` */
  datatype ConfigError = ConfiguringWebhooks(inner: WebhookError)

  /** Configuration i is the first one whose URL does not parse. */
  ghost predicate FirstInvalid(cfgs: seq<Webhook.Config>, parses: string -> bool, i: int) {
    && 0 <= i < |cfgs|
    && !parses(cfgs[i].url)
    && forall j :: 0 <= j < i ==> parses(cfgs[j].url)
  }

  /** `configureWebhooks`: builds the notifiers in configuration order and stops at the first
      configuration `webhook.New` rejects, reporting that one. */
  method ConfigureWebhooks(cfgs: seq<Webhook.Config>, parses: string -> bool)
    returns (r: Result<seq<Webhook.Notifier>, WebhookError>)
    ensures r.Failure? <==> exists i :: 0 <= i < |cfgs| && !parses(cfgs[i].url)
    ensures r.Failure? ==> exists i ::
      && FirstInvalid(cfgs, parses, i)
      && r.error == ConfiguringWebhook(cfgs[i].name, Webhook.ParsingURL(cfgs[i].url))
    ensures r.Success? ==> |r.value| == |cfgs|
    ensures r.Success? ==> forall i :: 0 <= i < |cfgs| ==> Webhook.New(cfgs[i], parses) == Success(r.value[i])
  {
    var hooks: seq<Webhook.Notifier> := [];
    for n := 0 to |cfgs|
      invariant |hooks| == n
      invariant forall j :: 0 <= j < n ==> parses(cfgs[j].url)
      invariant forall j :: 0 <= j < n ==> Webhook.New(cfgs[j], parses) == Success(hooks[j])
    {
      var h := Webhook.New(cfgs[n], parses);
      if h.Failure? {
        assert FirstInvalid(cfgs, parses, n);
        return Failure(ConfiguringWebhook(cfgs[n].name, h.error));
      }
      hooks := hooks + [h.value];
    }
    return Success(hooks);
  }

  /** `New`: the webhook notifiers in configuration order followed by the log notifier, or the
      wrapped error of the first webhook that could not be configured. */
  method New(webhooks: seq<Webhook.Config>, parses: string -> bool)
    returns (r: Result<seq<Sink>, ConfigError>)
    ensures r.Failure? <==> exists i :: 0 <= i < |webhooks| && !parses(webhooks[i].url)
    ensures r.Failure? ==> exists i ::
      && FirstInvalid(webhooks, parses, i)
      && r.error == ConfiguringWebhooks(ConfiguringWebhook(webhooks[i].name, Webhook.ParsingURL(webhooks[i].url)))
    ensures r.Success? ==>
      && |r.value| == |webhooks| + 1
      && r.value[|webhooks|] == LogSink
      && forall i :: 0 <= i < |webhooks| ==>
        r.value[i].WebhookSink? && Webhook.New(webhooks[i], parses) == Success(r.value[i].notifier)
  {
    var downstream: seq<Sink> := [];
    if |webhooks| > 0 {
      var hooks := ConfigureWebhooks(webhooks, parses);
      if hooks.Failure? {
        return Failure(ConfiguringWebhooks(hooks.error));
      }
      downstream := seq(|hooks.value|, i requires 0 <= i < |hooks.value| => WebhookSink(hooks.value[i]));
    }
    downstream := downstream + [LogSink];
    return Success(downstream);
  }

  const ReceivedFromUpstream := "Received message from upstream"
  const UpstreamClosed := "Upstream was closed. Closing downstream"
  const ClosedAll := "Closed all downstream channels"

  /** The info lines the goroutine of `Run` logs while `ms` arrive and upstream then closes. */
  function RunLog(ms: seq<Message>): (ls: seq<string>)
    ensures |ls| == |ms| + 2
    ensures forall i :: 0 <= i < |ms| ==> ls[i] == ReceivedFromUpstream
    ensures ls[|ms|..] == [UpstreamClosed, ClosedAll]
  {
    seq(|ms|, _ => ReceivedFromUpstream) + [UpstreamClosed, ClosedAll]
  }

  /** `Run`'s goroutine from start to end: `upstream` is everything sent on the returned channel
      before it was closed. Every downstream channel receives all of it in order and is then
      closed; the sends go value by value, each value to every channel before the next is read. */
  method Run(downstream: array<Queue<Message>>, upstream: seq<Message>)
    returns (logs: seq<string>, ghost sends: seq<Send<Message>>)
    requires AllOpen(downstream[..])
    modifies downstream
    ensures downstream[..] == Delivered(old(downstream[..]), upstream, true)
    ensures sends == FanOut(upstream, downstream.Length)
    ensures logs == RunLog(upstream)
  {
    ghost var start := downstream[..];
    logs, sends := [], [];
    DeliveredNothing(start);
    assert upstream[..0] == [];
    for i := 0 to |upstream|
      invariant downstream[..] == Delivered(start, upstream[..i], false)
      invariant AllOpen(downstream[..])
      invariant sends == FanOut(upstream[..i], downstream.Length)
      invariant logs == seq(i, _ => ReceivedFromUpstream)
    {
      logs := logs + [ReceivedFromUpstream];
      var round := SendAll(downstream, upstream[i]);
      DeliveredStep(start, upstream[..i], upstream[i]);
      FanOutAppend(upstream[..i], upstream[i], downstream.Length);
      assert upstream[..i + 1] == upstream[..i] + [upstream[i]];
      sends := sends + round;
    }
    assert upstream[..|upstream|] == upstream;
    logs := logs + [UpstreamClosed];
    CloseAll(downstream);
    ClosedEverything(start, upstream);
    logs := logs + [ClosedAll];
  }
}
