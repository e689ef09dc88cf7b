/**
 * notification/opsgenie: a notifier that opens an OpsGenie incident per message.
 * `New` checks the API key, applies the functional options to a `*OpsGenieNotifier` in order,
 * validates the result and creates the SDK's incident client; `Run` turns every message into a
 * create request (suppressing warnings unless asked for them) and forwards failed creates.
 *
 * The SDK and govalidator are oracles: `isUUID` and `isURL` for the struct tags, `newClient`
 * for `incident.NewClient` (it rejects, for instance, a negative retry count) and `create` for
 * the k-th `Create` call. A caller-defined option (such as a URL override) is represented by
 * what it does: set the URL, or fail with an error text.
 */
module OpsGenie {
  import W = Wrappers
  import opened Velero
  import opened Message

  /** The SDK's `client.ApiUrl` constants. */
  const ApiUrlDefault := "api.opsgenie.com"
  const ApiUrlEU := "api.eu.opsgenie.com"
  const ApiUrlSandbox := "api.sandbox.opsgenie.com"

  const MissingApiKeyText := "Missing API Key"

  /** The functional options of notifier_options.go, plus caller-defined ones. */
  datatype Option =
    | EU
    | Sandbox
    | NotifyStakeholders(notify: bool)
    | NotifyOnWarning(notify: bool)
    | Tags(tags: seq<string>)
    | Retries(number: int)
    | UserOption(outcome: W.Result<string, string>)

  /** The configurable fields of an `OpsGenieNotifier`. A nil tag slice reads as `[]`, an
      unset URL as `""`. */
  datatype Settings = Settings(
    apiKey: string,
    notifyOnWarning: bool,
    notifyStakeholders: bool,
    tags: seq<string>,
    retries: int,
    url: string)

  /** `client.Config`: the API key, the retry count and the API URL ("" lets the SDK pick its default). */
  datatype ClientConfig = ClientConfig(apiKey: string, retryCount: int, apiUrl: string)

  datatype NewError =
    | MissingApiKey
    | ConfiguringNotifier(cause: string)
    | ValidatingNotifier(badApiKey: bool, badUrl: bool)
    | CreatingClient(cause: string)

  /** A notifier as `New` returns it: its settings and the configuration its client was made from. */
  datatype Built = Built(settings: Settings, client: ClientConfig)

  datatype Priority = DefaultPriority | P1 | P5

  /** `incident.CreateRequest` as `Run` fills it in. */
  datatype CreateRequest = CreateRequest(
    message: string,
    priority: Priority,
    details: map<string, string>,
    tags: seq<string>,
    notifyStakeholders: bool,
    serviceId: string)

  /** The notifier literal `New` starts from. */
  function Defaults(apiKey: string): (s: Settings)
    ensures s.apiKey == apiKey
    ensures !s.notifyOnWarning && !s.notifyStakeholders
    ensures s.tags == [] && s.retries == 0 && s.url == ""
  {
    Settings(apiKey, false, false, [], 0, "")
  }

  /** The options that report an error. */
  predicate Fails(opt: Option) {
    opt.UserOption? && opt.outcome.Failure?
  }

  /** The URL an option sets, if it sets one. */
  function URLSet(opt: Option): W.Option<string> {
    match opt
    case EU => W.Some(ApiUrlEU)
    case Sandbox => W.Some(ApiUrlSandbox)
    case UserOption(o) => if o.Success? then W.Some(o.value) else W.None
    case _ => W.None
  }

  /** What one option does to the notifier. None of the built-in options can fail, and none
      changes the API key. */
  function Apply(s: Settings, opt: Option): (r: W.Result<Settings, string>)
    ensures r.Failure? <==> Fails(opt)
    ensures r.Success? ==> r.value.apiKey == s.apiKey
    ensures r.Success? ==> r.value.url == if URLSet(opt).Some? then URLSet(opt).value else s.url
  {
    match opt
    case EU => W.Success(s.(url := ApiUrlEU))
    case Sandbox => W.Success(s.(url := ApiUrlSandbox))
    case NotifyStakeholders(b) => W.Success(s.(notifyStakeholders := b))
    case NotifyOnWarning(b) => W.Success(s.(notifyOnWarning := b))
    case Tags(ts) => W.Success(s.(tags := s.tags + ts))
    case Retries(n) => W.Success(s.(retries := n))
    case UserOption(o) => if o.Success? then W.Success(s.(url := o.value)) else W.Failure(o.error)
  }

  /** The option loop of `New`: the options in order, stopping at the first error. */
  function Configure(s: Settings, opts: seq<Option>): W.Result<Settings, string>
    decreases |opts|
  {
    if opts == [] then W.Success(s)
    else match Apply(s, opts[0])
      case Failure(e) => W.Failure(e)
      case Success(s') => Configure(s', opts[1..])
  }

  /** The tags of all Tags options, in order. */
  function TagsOf(opts: seq<Option>): seq<string> {
    if opts == [] then [] else (if opts[0].Tags? then opts[0].tags else []) + TagsOf(opts[1..])
  }

  /** A `valid:"…"` tag: govalidator skips an empty field that is not required. */
  predicate ValidField(v: string, check: string -> bool) {
    v == "" || check(v)
  }

  /** The client configuration notifier.go:58-61 builds: it does not pass the URL. */
  function ClientForAsWritten(s: Settings): (c: ClientConfig)
    ensures c.apiKey == s.apiKey && c.retryCount == s.retries
  {
    ClientConfig(s.apiKey, s.retries, "")
  }

  /** The client configuration with the notifier's URL handed to the SDK. */
  function ClientFor(s: Settings): (c: ClientConfig)
    ensures c.apiKey == s.apiKey && c.retryCount == s.retries
    ensures c.apiUrl == s.url
  {
    ClientConfig(s.apiKey, s.retries, s.url)
  }

  /** The host the SDK's client sends its requests to. */
  function Endpoint(c: ClientConfig): (h: string)
    ensures c.apiUrl != "" ==> h == c.apiUrl
  {
    if c.apiUrl == "" then ApiUrlDefault else c.apiUrl
  }

  /** notifier.go's `New` from start to end. */
  function Construct(apiKey: string, opts: seq<Option>, isUUID: string -> bool, isURL: string -> bool,
                     newClient: ClientConfig -> W.Option<string>): W.Result<Built, NewError>
  {
    if apiKey == "" then W.Failure(MissingApiKey)
    else match Configure(Defaults(apiKey), opts)
      case Failure(e) => W.Failure(ConfiguringNotifier(e))
      case Success(s) =>
        var badKey, badUrl := !ValidField(s.apiKey, isUUID), !ValidField(s.url, isURL);
        if badKey || badUrl then W.Failure(ValidatingNotifier(badKey, badUrl))
        else match newClient(ClientFor(s))
          case Some(e) => W.Failure(CreatingClient(e))
          case None => W.Success(Built(s, ClientFor(s)))
  }

  /** The text of each error `New` returns. */
  function ErrorText(e: NewError, validation: string): (t: string)
    ensures e.MissingApiKey? ==> t == MissingApiKeyText
  {
    match e
    case MissingApiKey => MissingApiKeyText
    case ConfiguringNotifier(c) => "configuring notifier: " + c
    case ValidatingNotifier(_, _) => "validating notifier: " + validation
    case CreatingClient(c) => "creating OpsGenie incident client: " + c
  }

  /** The incident details: the annotations, with the labels written over them. */
  function Details(b: Backup): (d: map<string, string>)
    ensures d.Keys == b.annotations.Keys + b.labels.Keys
    ensures forall k :: k in b.labels ==> d[k] == b.labels[k]
    ensures forall k :: k in b.annotations && k !in b.labels ==> d[k] == b.annotations[k]
  {
    b.annotations + b.labels
  }

  /** The create request for one message, or None when a Warning is suppressed. A Warning is
      P5 "<name> failed partially", an Error P1 "<name> failed"; any other message keeps the
      default priority and an empty text. */
  function Incident(s: Settings, m: Message): (r: W.Option<CreateRequest>)
    ensures r.None? <==> m.Warning? && !s.notifyOnWarning
    ensures r.Some? ==>
      && r.value.details == Details(GetBackup(m))
      && r.value.tags == s.tags
      && r.value.notifyStakeholders == s.notifyStakeholders
      && r.value.serviceId == "test"
    ensures r.Some? && m.Warning? ==> r.value.priority == P5 && r.value.message == m.backup.name + " failed partially"
    ensures r.Some? && m.Error? ==> r.value.priority == P1 && r.value.message == m.backup.name + " failed"
    ensures r.Some? && m.Foreign? ==> r.value.priority == DefaultPriority && r.value.message == ""
  {
    var base := CreateRequest("", DefaultPriority, Details(GetBackup(m)), s.tags, s.notifyStakeholders, "test");
    match m
    case Warning(b) =>
      if !s.notifyOnWarning then W.None
      else W.Some(base.(priority := P5, message := b.name + " failed partially"))
    case Error(b) => W.Some(base.(priority := P1, message := b.name + " failed"))
    case Foreign(_, _) => W.Some(base)
  }

  function Optional<T>(o: W.Option<T>): seq<T> {
    if o.Some? then [o.value] else []
  }

  /** The create requests for the messages `ms`, in order. */
  function Requests(s: Settings, ms: seq<Message>): seq<CreateRequest> {
    if ms == [] then [] else Requests(s, ms[..|ms| - 1]) + Optional(Incident(s, ms[|ms| - 1]))
  }

  lemma RequestsStep(s: Settings, ms: seq<Message>, i: nat)
    requires i < |ms|
    ensures Requests(s, ms[..i + 1]) == Requests(s, ms[..i]) + Optional(Incident(s, ms[i]))
  {
    assert ms[..i + 1][..i] == ms[..i];
  }

  /** The errors of the first n `Create` calls, in call order. */
  function CreateErrors(create: nat -> W.Option<string>, n: nat): seq<string> {
    if n == 0 then [] else CreateErrors(create, n - 1) + Optional(create(n - 1))
  }

  lemma CreateErrorsStep(create: nat -> W.Option<string>, n: nat, called: bool)
    ensures CreateErrors(create, n + if called then 1 else 0)
      == CreateErrors(create, n) + (if called then Optional(create(n)) else [])
  {
  }

  /** `*OpsGenieNotifier`: the fields the options and `New` write. */
  class OpsGenieNotifier {
    var apiKey: string
    var notifyOnWarning: bool
    var notifyStakeholders: bool
    var tags: seq<string>
    var retries: int
    var url: string
    var client: W.Option<ClientConfig>

    function Snapshot(): Settings
      reads this
    {
      Settings(apiKey, notifyOnWarning, notifyStakeholders, tags, retries, url)
    }

    /** The literal `&OpsGenieNotifier{ApiKey: apiKey, NotifyOnWarning: false, NotifyStakeholders: false}`. */
    constructor (apiKey: string)
      ensures Snapshot() == Defaults(apiKey) && client == W.None
    {
      this.apiKey := apiKey;
      notifyOnWarning, notifyStakeholders := false, false;
      tags, retries, url := [], 0, "";
      client := W.None;
    }

    /** Calling one option on the notifier. */
    method ApplyOption(opt: Option) returns (err: W.Option<string>)
      modifies this
      ensures err.Some? <==> Fails(opt)
      ensures err.Some? ==> W.Failure(err.value) == Apply(old(Snapshot()), opt) && Snapshot() == old(Snapshot())
      ensures err.None? ==> W.Success(Snapshot()) == Apply(old(Snapshot()), opt)
      ensures client == old(client)
    {
      err := W.None;
      match opt
      case EU => url := ApiUrlEU;
      case Sandbox => url := ApiUrlSandbox;
      case NotifyStakeholders(b) => notifyStakeholders := b;
      case NotifyOnWarning(b) => notifyOnWarning := b;
      case Tags(ts) => tags := tags + ts;
      case Retries(n) => retries := n;
      case UserOption(o) =>
        if o.Success? {
          url := o.value;
        } else {
          err := W.Some(o.error);
        }
    }
  }

  /** `Run`'s goroutine for the messages sent before the channel was closed. `Run` has a value
      receiver, so it works on a copy of the notifier's settings. It returns the requests passed
      to `Create` and the errors forwarded on `errChan`; a failed create does not stop the loop. */
  method Run(n: Settings, ms: seq<Message>, create: nat -> W.Option<string>)
    returns (requests: seq<CreateRequest>, errs: seq<string>)
    ensures requests == Requests(n, ms)
    ensures errs == CreateErrors(create, |requests|)
  {
    requests, errs := [], [];
    for i := 0 to |ms|
      invariant requests == Requests(n, ms[..i])
      invariant errs == CreateErrors(create, |requests|)
    {
      var r := Incident(n, ms[i]);
      RequestsStep(n, ms, i);
      CreateErrorsStep(create, |requests|, r.Some?);
      errs := errs + (if r.Some? then Optional(create(|requests|)) else []);
      requests := requests + Optional(r);
    }
    assert ms[..|ms|] == ms;
  }

  /** notifier.go's `New`. */
  method New(apiKey: string, opts: seq<Option>, isUUID: string -> bool, isURL: string -> bool,
             newClient: ClientConfig -> W.Option<string>)
    returns (r: W.Result<OpsGenieNotifier, NewError>)
    ensures r.Failure? <==> Construct(apiKey, opts, isUUID, isURL, newClient).Failure?
    ensures r.Failure? ==> r.error == Construct(apiKey, opts, isUUID, isURL, newClient).error
    ensures r.Success? ==>
      && Construct(apiKey, opts, isUUID, isURL, newClient).value.settings == r.value.Snapshot()
      && W.Some(Construct(apiKey, opts, isUUID, isURL, newClient).value.client) == r.value.client
  {
    if apiKey == "" {
      return W.Failure(MissingApiKey);
    }
    var n := new OpsGenieNotifier(apiKey);
    ghost var goal := Configure(Defaults(apiKey), opts);
    for i := 0 to |opts|
      invariant goal == Configure(n.Snapshot(), opts[i..])
      invariant n.client == W.None
    {
      assert opts[i..][1..] == opts[i + 1..];
      var err := n.ApplyOption(opts[i]);
      if err.Some? {
        return W.Failure(ConfiguringNotifier(err.value));
      }
    }
    assert goal == W.Success(n.Snapshot());
    var badKey, badUrl := !ValidField(n.apiKey, isUUID), !ValidField(n.url, isURL);
    if badKey || badUrl {
      return W.Failure(ValidatingNotifier(badKey, badUrl));
    }
    var cfg := ClientFor(n.Snapshot());
    var e := newClient(cfg);
    if e.Some? {
      return W.Failure(CreatingClient(e.value));
    }
    n.client := W.Some(cfg);
    return W.Success(n);
  }

  // Properties of construction

  /** An empty API key, and only that, gives `MissingApiKeyError`. */
  lemma MissingKeyIff(apiKey: string, opts: seq<Option>, isUUID: string -> bool, isURL: string -> bool,
                      newClient: ClientConfig -> W.Option<string>)
    ensures Construct(apiKey, opts, isUUID, isURL, newClient) == W.Failure(MissingApiKey) <==> apiKey == ""
  {
  }

  /** The option loop fails exactly when some option fails, and reports the first one's error. */
  lemma {:induction false} ConfigureFailsAtFirst(s: Settings, opts: seq<Option>)
    ensures Configure(s, opts).Failure? <==> exists k :: 0 <= k < |opts| && Fails(opts[k])
    ensures Configure(s, opts).Failure? ==> exists k ::
      && 0 <= k < |opts| && Fails(opts[k])
      && (forall j :: 0 <= j < k ==> !Fails(opts[j]))
      && Configure(s, opts).error == opts[k].outcome.error
    decreases |opts|
  {
    if opts != [] {
      if !Fails(opts[0]) {
        var s' := Apply(s, opts[0]).value;
        ConfigureFailsAtFirst(s', opts[1..]);
        assert Configure(s, opts) == Configure(s', opts[1..]);
        if exists k :: 0 <= k < |opts| && Fails(opts[k]) {
          var k :| 0 <= k < |opts| && Fails(opts[k]);
          assert Fails(opts[1..][k - 1]);
        }
        if Configure(s, opts).Failure? {
          var k :| 0 <= k < |opts[1..]| && Fails(opts[1..][k])
            && (forall j :: 0 <= j < k ==> !Fails(opts[1..][j]))
            && Configure(s', opts[1..]).error == opts[1..][k].outcome.error;
          assert Fails(opts[k + 1]);
          assert forall j :: 1 <= j < k + 1 ==> opts[j] == opts[1..][j - 1];
        }
      }
    }
  }

  /** Options that never fail give a configured notifier. */
  lemma BuiltInOptionsNeverFail(s: Settings, opts: seq<Option>)
    requires forall k :: 0 <= k < |opts| ==> !opts[k].UserOption?
    ensures Configure(s, opts).Success?
  {
    ConfigureFailsAtFirst(s, opts);
  }

  /** With no option that sets the URL, the URL stays as it was. */
  lemma {:induction false} NoURLOptionKeepsURL(s: Settings, opts: seq<Option>)
    requires Configure(s, opts).Success?
    requires forall k :: 0 <= k < |opts| ==> URLSet(opts[k]).None?
    ensures Configure(s, opts).value.url == s.url
    decreases |opts|
  {
    if opts != [] {
      assert URLSet(opts[0]).None?;
      NoURLOptionKeepsURL(Apply(s, opts[0]).value, opts[1..]);
    }
  }

  /** The last option that sets the URL decides it. */
  lemma {:induction false} LastURLOptionWins(s: Settings, opts: seq<Option>, j: nat)
    requires Configure(s, opts).Success?
    requires j < |opts| && URLSet(opts[j]).Some?
    requires forall k :: j < k < |opts| ==> URLSet(opts[k]).None?
    ensures Configure(s, opts).value.url == URLSet(opts[j]).value
    decreases |opts|
  {
    var s' := Apply(s, opts[0]).value;
    if j == 0 {
      NoURLOptionKeepsURL(s', opts[1..]);
    } else {
      LastURLOptionWins(s', opts[1..], j - 1);
    }
  }

  /** Tags options append, so the configured tags are the initial ones followed by every Tags
      option's list in order. */
  lemma {:induction false} TagsAccumulate(s: Settings, opts: seq<Option>)
    requires Configure(s, opts).Success?
    ensures Configure(s, opts).value.tags == s.tags + TagsOf(opts)
    decreases |opts|
  {
    if opts != [] {
      var s' := Apply(s, opts[0]).value;
      TagsAccumulate(s', opts[1..]);
      assert s'.tags == s.tags + (if opts[0].Tags? then opts[0].tags else []);
    }
  }

  /** `Retries(n)` as the last such option stores n unchanged, negative or not. */
  lemma {:induction false} LastRetriesStored(s: Settings, opts: seq<Option>, n: int)
    requires Configure(s, opts + [Retries(n)]).Success?
    ensures Configure(s, opts + [Retries(n)]).value.retries == n
    decreases |opts|
  {
    if opts == [] {
      assert [Retries(n)][1..] == [];
    } else {
      assert (opts + [Retries(n)])[1..] == opts[1..] + [Retries(n)];
      LastRetriesStored(Apply(s, opts[0]).value, opts[1..], n);
    }
  }

  /** No option changes the API key. */
  lemma {:induction false} ConfigureKeepsKey(s: Settings, opts: seq<Option>)
    requires Configure(s, opts).Success?
    ensures Configure(s, opts).value.apiKey == s.apiKey
    decreases |opts|
  {
    if opts != [] {
      ConfigureKeepsKey(Apply(s, opts[0]).value, opts[1..]);
    }
  }

  /** A notifier built by `New` has a UUID key, a valid or empty URL and a client made for its
      own key, retry count and URL. */
  lemma BuiltIsValid(apiKey: string, opts: seq<Option>, isUUID: string -> bool, isURL: string -> bool,
                     newClient: ClientConfig -> W.Option<string>)
    requires Construct(apiKey, opts, isUUID, isURL, newClient).Success?
    ensures var b := Construct(apiKey, opts, isUUID, isURL, newClient).value;
      && b.settings.apiKey == apiKey && isUUID(apiKey)
      && ValidField(b.settings.url, isURL)
      && Configure(Defaults(apiKey), opts) == W.Success(b.settings)
      && b.client == ClientFor(b.settings) && newClient(b.client).None?
  {
    ConfigureKeepsKey(Defaults(apiKey), opts);
  }

  /** As written, the client is made without the URL, so it talks to the default endpoint
      whatever the options chose: `EU()` is lost. */
  lemma AsWrittenLosesRegion(apiKey: string)
    requires apiKey != ""
    ensures Configure(Defaults(apiKey), [EU]).Success?
    ensures Configure(Defaults(apiKey), [EU]).value.url == ApiUrlEU
    ensures Endpoint(ClientForAsWritten(Configure(Defaults(apiKey), [EU]).value)) == ApiUrlDefault != ApiUrlEU
  {
    assert [EU][1..] == [];
  }

  /** With the URL handed over, the client talks to the URL the options chose, and to the
      default endpoint when none was chosen. */
  lemma ClientTargetsChosenURL(s: Settings, opts: seq<Option>, j: nat)
    requires Configure(s, opts).Success?
    requires j < |opts| && URLSet(opts[j]).Some? && URLSet(opts[j]).value != ""
    requires forall k :: j < k < |opts| ==> URLSet(opts[k]).None?
    ensures Endpoint(ClientFor(Configure(s, opts).value)) == URLSet(opts[j]).value
  {
    LastURLOptionWins(s, opts, j);
  }

  // Properties of Run

  /** At most one request per message, and exactly one each when warnings are not suppressed. */
  lemma {:induction false} RequestsPerMessage(s: Settings, ms: seq<Message>)
    ensures |Requests(s, ms)| <= |ms|
    ensures s.notifyOnWarning ==> |Requests(s, ms)| == |ms|
  {
    if ms != [] {
      RequestsPerMessage(s, ms[..|ms| - 1]);
    }
  }

  /** With warnings suppressed, a run of Warnings alone creates no incident. */
  lemma {:induction false} SuppressedWarningsSendNothing(s: Settings, ms: seq<Message>)
    requires !s.notifyOnWarning
    requires forall i :: 0 <= i < |ms| ==> ms[i].Warning?
    ensures Requests(s, ms) == []
  {
    if ms != [] {
      SuppressedWarningsSendNothing(s, ms[..|ms| - 1]);
    }
  }

  /** Every forwarded error is one that a `Create` call returned; none are forwarded when every
      call succeeds. */
  lemma {:induction false} ForwardedErrorsComeFromCreate(create: nat -> W.Option<string>, n: nat)
    ensures |CreateErrors(create, n)| <= n
    ensures forall e :: e in CreateErrors(create, n) ==> exists k :: 0 <= k < n && create(k) == W.Some(e)
    ensures (forall k :: 0 <= k < n ==> create(k).None?) ==> CreateErrors(create, n) == []
  {
    if n > 0 {
      ForwardedErrorsComeFromCreate(create, n - 1);
    }
  }
}
