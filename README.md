# Sentinel notification core in Dafny

Sentinel watches Velero `Backup` objects in a Kubernetes cluster. It relays partially failed
and failed backups to notification channels. This project models the decision logic and the
broadcasting loops of its Go source and proves properties of them:

- **Messages.** `Message` covers `message.Warning`, `message.Error` and any other
  implementation of the interface. `Notice` covers the older `notification.WarningMessage` and
  `ErrorMessage`.
- **Classification.** The watcher loops of `server/server.go` and `cmd/server.go` classify each
  watch event: skipped, logged or raised. `Classifier.Classify` is that switch as a total
  function. `Server.Serve` and `ServerCommand.Listen` are the loops, over the sequence of events
  received.
- **Broadcasters.** `pipeline/pipeline.go`, `notification/pipeline.go` and the goroutine of
  `notification/setup.go` are broadcasters. Downstream channels are an `array` of
  `Channels.Queue` values: the items received and a `closed` flag. A broadcast appends the value
  to every queue, first to last. Closing sets every flag. A ghost trace of `(channel, value)`
  sends records the order.
- **Notifiers.** These are the log notifiers, the webhook notifier with its bounded retry, and
  the OpsGenie notifier with its functional options and incident requests. The predefined Slack
  payload is stated as a function of the type, name and phase.

Every loop is a `method` proved against a specification function over its input, such as
`Server.Emitted`, `LogNotifier.Records`, `Webhook.Traffic`, `OpsGenie.Requests` or
`Setup.Expand`. The lemmas are about those functions.

Code outside the model appears as inputs, one per foreign call:

- **Kubernetes calls and watch channels.** `LoadConfig`, `factory.Client()` and `Watch` are
  the errors they returned. A watch channel is the sequence of events. A `select` is the
  sequence of cases in the order they fire.
- **`url.Parse` and govalidator.** These are predicates: `parses`, `isUUID` and `isURL`.
- **The HTTP transport.** `respond(k, i)` is how attempt `i` of message `k` ends.
- **The OpsGenie SDK.** `newClient` is the error `incident.NewClient` returns, if any.
  `create(k)` is the error of the `k`-th `Create` call.

## Modelling decisions

- **One module per source file.** The shared data model is in `Velero`, `Message`,
  `NotificationMessage`, `Dynamic` and `Channels`. `Classifier` is the switch that
  `server/server.go` and `cmd/server.go` both contain.
- **Mixed source revisions.** Each file is modelled as shown.
  - `cmd/server.go` builds `notification.WarningMessage{Backup: b}`, so `Notice` is generic in
    its payload: `Notice<Backup>` there, `Notice<string>` in `notification/message.go`.
  - `setup.go` calls `WarningChannel()`/`ErrorChannel()`, while `notification/log.go` defines
    `WarningC`/`ErrorC`. The model treats them as the same channels.
- **`notification/setup.go` appends per key.** It appends the map object once per key, as
  written. The map is a `class` (`Setup.ConfigMap`), so every copy is the same object and
  holds the whole map.
- **`cmd/server.go` panics on a client error.** It only logs a failed `factory.Client()`, but
  then requests the watcher on the nil client, which panics. `ServerCommand.Run` returns
  `Panicked(NilClient)` there.
- **The webhook body is not always rewound.** It is rewound only on a nil response or a status
  above 399. A response below 400 that comes with an error is retried without rewinding, so
  the retry sends an empty body. This is modelled as written; see
  `Webhook.ErrorWithResponseSendsEmptyRetry`.
- **OpsGenie `Run` works on a copy.** It has a value receiver, so `OpsGenie.Run` takes the
  notifier's settings as a value.
  - The options mutate a `*OpsGenieNotifier`, so they are a `class` method,
    `OpsGenieNotifier.ApplyOption`.
  - A caller-defined option, such as the URL override used in the tests, is
    `UserOption(outcome)`: it either sets the URL or returns an error.
- **The corrected OpsGenie client configuration.** `OpsGenie.New` builds the client from the
  chosen URL; see Findings.

## Model

| member | source | states |
|---|---|---|
| Message.StateText | message/message.go:36-38 | the text is the backup name, then " is in state ", then the phase |
| Message.WarningAndErrorSameText | message/message.go:36-50 | for the same backup, a Warning and an Error have the same text |
| Message.GetBackupReturnsWrapped | message/message.go:40-54 | `GetBackup` returns the wrapped backup for both variants |
| Message.StateTextNamesBackup | message/message.go:36-50 | either variant's text starts with the backup's name and ends with its phase |
| NotificationMessage.TextRoundTrip | notification/message.go:24-34 | converting a string to either kind and reading `Message()` gives the string back |
| NotificationMessage.NoticeDeterminedByKindAndText | notification/message.go:24-34 | two notices are equal exactly when their kinds and texts are |
| Classifier.Classify | server/server.go:67-98 | a non-Backup object, and only that, is NotABackup; an event raises exactly when it is a Backup, is neither Added nor Deleted, and is PartiallyFailed or Failed; it raises a warning exactly for PartiallyFailed, carrying that backup |
| Classifier.NonBackupLoggedAsError | server/server.go:67-72 | a non-Backup object raises nothing and is logged once at error level |
| Classifier.AddedDeletedNeverRaise | server/server.go:74-81 | Added and Deleted events never raise, whatever the phase |
| Classifier.ObservedPhasesLogInfo | server/server.go:83-93 | New, Completed, Deleting and InProgress raise nothing and are logged once at info level |
| Classifier.RaiseXorNote | server/server.go:83-98 | a raised event is not logged; an event that is not logged is raised or has an unlisted phase |
| Server.Emit | server/server.go:94-97 | one verdict sends at most one message, exactly when it raises; the message is a Warning exactly for a warning and carries the event's backup |
| Server.Serve | server/server.go:61-101 | the loop returns exactly when a done signal arrives; sends and logs are those of the events before the first done signal, in order |
| Server.Run | server/server.go:49-102 | client and watcher errors are returned with their prefixes and nothing is sent; otherwise as `Serve`, after the one "Setting up client" line |
| Server.AtMostOnePerEvent | server/server.go:61-101 | no more messages are sent than events received |
| Server.EmittedAppend | server/server.go:61-101 | the messages of later events follow those of earlier ones |
| Server.EmittedComeFromRaisingEvents | server/server.go:94-97 | every sent message is a Warning or an Error with the backup of a received event that raised it; Warnings come from PartiallyFailed backups |
| Server.OneEventDispatch | server/server.go:83-98 | one non-Added, non-Deleted event sends [Warning(b)] for PartiallyFailed, [Error(b)] for Failed, and nothing for any other phase |
| ServerCommand.Prelude | cmd/server.go:45-65 | the log lines before the watcher: from "Starting server" to "Setting up watcher", with the config and client error lines exactly when those calls failed |
| ServerCommand.Notify | cmd/server.go:111-114 | a verdict sends one notice exactly when it raises, with the backup; it is a WarningMessage exactly for a warning |
| ServerCommand.Listen | cmd/server.go:80-117 | the endless loop's sends and logs are those of the received events, in order |
| ServerCommand.Run | cmd/server.go:44-119 | a client error panics (nil client) and a watcher error panics after its error line, and both send nothing; otherwise the command listens exactly when notification setup succeeds, and then sends and logs per event; a malformed configuration logs "Setting up notifications" and panics, and a non-string key panics inside setup |
| ServerCommand.SameDispatchAsServer | cmd/server.go:91-115 | the command's i-th notice carries the backup of server/server.go's i-th message, and is a warning exactly when that message is |
| ServerCommand.SkippedEventsNotifyNothing | cmd/server.go:84-98 | non-Backup objects and Added and Deleted events lead to no notice |
| ServerCommand.OneEventNotice | cmd/server.go:100-115 | PartiallyFailed sends [WarningMessage(b)], Failed [ErrorMessage(b)], and the four observed phases nothing |
| Channels.Round | pipeline/pipeline.go:55-57 | one round sends the value to channel 0, 1, ..., n-1, in that order |
| Channels.Delivered | pipeline/pipeline.go:53-62 | every queue gains the values in order and is closed when asked, and nothing else changes |
| Channels.SendAll | pipeline/pipeline.go:55-57 | the value is appended to every queue, none is closed, and the sends go in channel order |
| Channels.CloseAll | pipeline/pipeline.go:60-62 | every queue is closed and keeps its items |
| Channels.FanOutSplit | pipeline/pipeline.go:53-58 | all sends of value k come after those of the earlier values and before those of the later ones |
| Channels.FanOutLength | pipeline/pipeline.go:53-58 | each value is sent exactly once to each channel: n sends per value |
| Channels.SendPosition | pipeline/pipeline.go:53-58 | value k reaches channel c at position k*n+c of the send trace, so each channel receives the values in upstream order |
| Pipeline.ConfigureWebhooks | pipeline/pipeline.go:36-48 | fails exactly when some URL does not parse, and then reports the first such webhook; otherwise one notifier per configuration, in order, each as `webhook.New` builds it |
| Pipeline.New | pipeline/pipeline.go:18-34 | fails the same way, with the error wrapped; otherwise the webhook notifiers in configuration order, then the log notifier last (only the log notifier without webhooks) |
| Pipeline.RunLog | pipeline/pipeline.go:54-63 | one "Received" line per message, then the two closing lines |
| Pipeline.Run | pipeline/pipeline.go:50-66 | every downstream queue receives the whole upstream sequence in order and is then closed; the send trace is the fan-out, value by value |
| NotificationPipeline.Run | notification/pipeline.go:18-36 | an empty downstream panics and changes nothing; otherwise every message before the first done signal reaches every queue in order; all queues are closed, and `Run` returns, exactly when a done signal arrives |
| NotificationPipeline.DoneAt | notification/pipeline.go:24-28 | nothing after the first done signal is forwarded |
| NotificationPipeline.NoDoneForwardsAll | notification/pipeline.go:29-34 | without a done signal every upstream message is forwarded, in order |
| Dynamic.StringKeyed | notification/setup.go:57-59 | the re-keyed map holds exactly the string keys of the decoded map, with their values |
| Setup.DefaultConfigComplete | notification/setup.go:26-39 | the default log configuration has both required keys as strings, so the default log notifier is always built |
| Setup.TypeLog | notification/setup.go:71-82 | a "not implemented" warning exactly for webhook, opsgenie, amqp and nats, naming that type (amqp for nats); otherwise "Channel unknown" at error level with the type value |
| Setup.NatsReportedAsAmqp | notification/setup.go:78-79 | a nats channel is logged as the type "amqp" |
| Setup.TypeLogsAt | notification/setup.go:70-83 | the i-th type line is the one for the i-th channel configuration |
| Setup.ConfigLogs | notification/setup.go:66-83 | one line per configuration, plus the "logging only" line exactly when there is none |
| Setup.NonMapIgnored | notification/setup.go:54-63 | a list entry that is not a map changes nothing |
| Setup.ExpandEmptyIff | notification/setup.go:54-68 | "logging only" is logged exactly when no map in the list has an entry |
| Setup.ExpandedFromList | notification/setup.go:54-63 | every channel configuration is a whole map of the list, re-keyed by its string keys |
| Setup.AppendPerKey | notification/setup.go:56-61 | succeeds exactly when every key is a string; then the same map object is appended once per key and holds the whole string-keyed map |
| Setup.ReadChannels | notification/setup.go:54-63 | starts exactly when every map has only string keys, and otherwise panics; the configurations are then exactly `Expand` of the list |
| Setup.LogChannels | notification/setup.go:66-83 | the logs are `ConfigLogs` of the configurations |
| Setup.Setup | notification/setup.go:35-83 | the log notifier is the only channel; a nil configuration logs "logging only"; a non-list "channels" value is `ErrMalformedConfiguration` with no logs; otherwise setup starts exactly when all keys are strings, and logs per configuration |
| Setup.Broadcast | notification/setup.go:95-112 | every warning reaches every warning channel, and every error every error channel, in arrival order; none is closed |
| Setup.SplitIsPartition | notification/setup.go:99-108 | together the warning and error splits hold every notice exactly once, each on the side of its kind |
| NotificationLog.ErrorText | notification/log.go:14-16 | the text is "Key '", the key, then "' is missing" |
| NotificationLog.ErrorTextNamesKey | notification/log.go:14-16 | different keys give different error texts |
| NotificationLog.NewLogNotifier | notification/log.go:19-40 | "name" is checked before "level" and the first missing one is reported; a present non-string value panics; otherwise a notifier with that name and level |
| NotificationLog.Run | notification/log.go:56-65 | one record per arrival: Warn "Problem with backup detected" for a warning, Error "Backup error" for an error, with the notice's text |
| LogNotifier.Run | notification/lognotifier/log.go:25-38 | the records are those of the messages received before the channel closed, in order |
| LogNotifier.RecordsMatchMessages | notification/lognotifier/log.go:27-36 | exactly one record per Warning or Error, in order, naming its backup at the level of its kind; no record for any other message |
| LogNotifier.EmittedAllKnown | notification/lognotifier/log.go:29-35 | every message the watcher loop sends is one the log notifier records |
| Webhook.New | notification/webhook/webhook.go:64-80 | fails exactly when the URL does not parse; otherwise keeps name, method and URL, with the default warning and error templates |
| Webhook.PayloadCarriesKind | notification/webhook/webhook.go:101-106 | a Warning's body declares "type": "warning", an Error's "type":"error", and any other message's body is empty |
| Webhook.Deliver | notification/webhook/webhook.go:108-133 | the requests and the failure flag are those of the retry rules (`Sent`, `Delivers`) |
| Webhook.AtMostThreeAttempts | notification/webhook/webhook.go:131 | at most three requests per message |
| Webhook.UnrecoverableSendsNothing | notification/webhook/webhook.go:113-116 | a request that cannot be built sends nothing, is not retried and fails |
| Webhook.OneFailureThenSuccess | notification/webhook/webhook.go:119-123 | one failure and then a success give exactly two requests with the whole payload, and no error |
| Webhook.AlwaysFailingGetsThree | notification/webhook/webhook.go:119-131 | an endpoint that always answers above 399 gets exactly three requests, and the delivery fails |
| Webhook.DeliveredIff | notification/webhook/webhook.go:111-133 | delivery succeeds exactly when some attempt succeeds after only retryable failures |
| Webhook.BodiesIntact | notification/webhook/webhook.go:108-122 | while every retried attempt rewinds, every request carries the whole payload |
| Webhook.ErrorWithResponseSendsEmptyRetry | notification/webhook/webhook.go:117-123 | a 3xx response that comes with an error is retried without rewinding, so the retry's body is empty |
| Webhook.TrafficStep | notification/webhook/webhook.go:99-137 | a failed delivery does not stop the loop: the next message's requests and failure log follow |
| Webhook.Run | notification/webhook/webhook.go:94-141 | the requests and failure logs are those of delivering each received message in turn (`Traffic`) |
| Webhook.TrafficBound | notification/webhook/webhook.go:99-137 | at most three requests and one failure log per message |
| Predefined.LowerOfUpper | notification/webhook/predefined.go:14-17 | lower-casing after upper-casing is lower-casing |
| Predefined.UpperIdempotent | notification/webhook/predefined.go:14 | upper-casing twice is upper-casing once |
| Predefined.Color | notification/webhook/predefined.go:17 | WarningColor exactly when the lower-cased type is "warning", and ErrorColor otherwise |
| Predefined.ColorIgnoresCase | notification/webhook/predefined.go:17 | the colour does not depend on the capitalisation of the type |
| Predefined.SlackWarning | notification/webhook/predefined.go:14-17 | type "warning" gives the title "<!channel> Velero *WARNING*" and the warning colour |
| Predefined.SlackError | notification/webhook/predefined.go:14-17 | type "error" gives the title "<!channel> Velero *ERROR*" and the error colour |
| Predefined.SlackFields | notification/webhook/predefined.go:11-23 | the payload carries the title, the colour and the "Backup '<name>' is in state '<phase>'" line unchanged, at fixed offsets |
| OpsGenie.Defaults | notification/opsgenie/notifier.go:34-38 | the key is set, both flags are false, and nothing else is set |
| OpsGenie.Apply | notification/opsgenie/notifier_options.go:9-49 | an option fails exactly when it is a failing caller option; none changes the API key; the URL becomes the one the option sets, if any |
| OpsGenie.OpsGenieNotifier.constructor | notification/opsgenie/notifier.go:34-38 | the notifier starts at `Defaults(apiKey)` with no client |
| OpsGenie.OpsGenieNotifier.ApplyOption | notification/opsgenie/notifier_options.go:9-49 | calling an option updates the fields as `Apply` says, and leaves them as they were when it fails |
| OpsGenie.ClientForAsWritten | notification/opsgenie/notifier.go:58-61 | the client configuration as written: key and retry count only |
| OpsGenie.ClientFor | notification/opsgenie/notifier.go:58-61 | the corrected configuration: key, retry count and the notifier's URL |
| OpsGenie.Endpoint | notification/opsgenie/notifier.go:58-65 | a client sends to its configured URL when one is set |
| OpsGenie.ErrorText | notification/opsgenie/notifier.go:26-32 | an empty key gives "Missing API Key" |
| OpsGenie.New | notification/opsgenie/notifier.go:28-68 | the notifier, or the error, agree with `Construct`: key check, options in order, validation, then client creation |
| OpsGenie.MissingKeyIff | notification/opsgenie/notifier.go:30-32 | `MissingApiKeyError` exactly when the key is empty |
| OpsGenie.ConfigureFailsAtFirst | notification/opsgenie/notifier.go:46-50 | the options fail exactly when some option fails, with the error of the first one that fails |
| OpsGenie.BuiltInOptionsNeverFail | notification/opsgenie/notifier_options.go:9-49 | the built-in options never fail |
| OpsGenie.NoURLOptionKeepsURL | notification/opsgenie/notifier_options.go:9-21 | without a URL option the URL stays as it was |
| OpsGenie.LastURLOptionWins | notification/opsgenie/notifier_options.go:9-21 | the last option that sets the URL decides it |
| OpsGenie.TagsAccumulate | notification/opsgenie/notifier_options.go:37-42 | the tags are the initial ones followed by every Tags option's list, in order |
| OpsGenie.LastRetriesStored | notification/opsgenie/notifier_options.go:44-49 | the last `Retries(n)` stores n unchanged, negative or not |
| OpsGenie.ConfigureKeepsKey | notification/opsgenie/notifier_options.go:9-49 | no option changes the API key |
| OpsGenie.BuiltIsValid | notification/opsgenie/notifier.go:54-67 | a built notifier has a UUID key and a valid or empty URL; its settings are those of the options, and its client was created from them |
| OpsGenie.AsWrittenLosesRegion | notification/opsgenie/notifier.go:58-61 | as written, `EU()` sets the URL but the client still talks to the default endpoint |
| OpsGenie.ClientTargetsChosenURL | notification/opsgenie/notifier.go:58-65 | with the URL passed on, the client talks to the URL the last URL option chose |
| OpsGenie.Details | notification/opsgenie/notifier.go:84-90 | the details hold every annotation and label key; a label wins over an annotation, and other annotations are kept |
| OpsGenie.Incident | notification/opsgenie/notifier.go:76-103 | no request exactly for a Warning with NotifyOnWarning off; otherwise details, tags, stakeholders and service "test"; P5 "<name> failed partially" for a Warning, P1 "<name> failed" for an Error, the default priority and "" otherwise |
| OpsGenie.Run | notification/opsgenie/notifier.go:70-112 | the requests are `Requests` of the messages; the forwarded errors are those of the `Create` calls, in order, and the loop goes on after one |
| OpsGenie.RequestsPerMessage | notification/opsgenie/notifier.go:75-109 | at most one request per message, and exactly one when warnings are not suppressed |
| OpsGenie.SuppressedWarningsSendNothing | notification/opsgenie/notifier.go:94-97 | with warnings suppressed, Warnings create no incident |
| OpsGenie.ForwardedErrorsComeFromCreate | notification/opsgenie/notifier.go:105-108 | every forwarded error is one `Create` returned; none when every call succeeds |

## Left out

- **Goroutines, blocking and timing.** Every goroutine is modelled by its loop over the
  sequence of values it receives. This covers:
  - `Stop()` and its `done` handshake in `server/server.go` and `notification/pipeline.go`;
  - the shutdown log lines;
  - the test sleeps.
- **Endless and channel-returning loops.** There is no last state to state, so these are
  modelled over the values received so far:
  - the endless loops of `cmd/server.go`, `notification/setup.go` and `notification/log.go`;
  - `Run`, which hands back the channel it reads.
- **Channel accessors.** `notification/pipeline.go`'s `Channel()` and `notification/log.go`'s
  `WarningC`/`ErrorC` return the notifier's own channel. They have no logic, and in the model
  that channel is the input sequence itself.
- **Debug logs.** The lognotifier's and the webhook's debug lines and start-up/shutdown lines
  are not modelled. The webhook's per-retry warning is not modelled either.
- **`notification/lognotifier/log.go` `New`.** It only stores the logger.
- **Log attributes.** The "state" attribute of the log lines in `server/server.go`,
  `cmd/server.go` and `notification/log.go` is not modelled. In `notification/log.go` it reads
  `GetBackup()` on a string message, which the revision shown does not have.
- **Case conversion.** `hclog.LevelFromString` is not modelled, and neither is viper's
  case-insensitive lookup of "channels". `upper`/`lower` are ASCII-only.
- **Go pointers.** Pointer and value message types (`*message.Warning` as well as
  `message.Warning`) are the same variant.
- Webhook.Run: it renders only the two default templates. The Slack template is not wired
  into this revision.
- OpsGenie.Details: it builds the merged map as a value. In Go the labels are written into
  the backup's own annotations map, and that aliasing is not modelled.
- OpsGenie.New: the client is built from the corrected configuration `ClientFor`, which passes
  the notifier's URL. notifier.go:58-61 passes only the key and the retry count; that version is
  `ClientForAsWritten` (see Findings).
- OpsGenie.BuiltIsValid: its client is `ClientFor(settings)`, the corrected configuration, not
  the key-and-retries configuration of notifier.go:58-61.
- OpsGenie.Apply: a caller-defined option can only set the URL or fail. A Go `Option` is any
  function on the notifier and may change any exported field, including the key, tags and
  retry count. That is why `New` validates the key after the options.
- OpsGenie.ConfigureKeepsKey: "no option changes the API key" holds for the built-in options.
  For caller-defined ones it holds only because they are limited to the URL, as above.
- Webhook.New: the notifier keeps the configured URL string. Go sends to, and logs, the parsed
  URL written back out (`n.url.String()`), which may be spelled differently.
- OpsGenie.New: the SDK client is an oracle (`newClient`) and its own checks, such as rejecting a
  negative retry count, are not modelled. govalidator's error text is not modelled:
  `ValidatingNotifier` records only which field failed.
- ServerCommand.Run: the log lines of `notification.Setup` are not part of its logs; they are
  `Setup.Setup`'s `logs`. A closed watch channel keeps yielding empty events; the model
  only sees the events actually received.
- **Kubernetes, HTTP, `url.Parse`, govalidator and the OpsGenie SDK.** These are inputs, as
  described above. So are the text/template and sprig engines: the templates' output is stated
  as functions, not evaluated.

## Findings

| source | as written | input that shows it | evidently intended | confidence | as-written member | corrected member |
|---|---|---|---|---|---|---|
| notification/opsgenie/notifier.go:58-61 | the SDK client is configured with the API key and retry count only; the URL the options set is not passed on | `New(key, EU())`: the notifier's URL is "api.eu.opsgenie.com", but the client sends to the SDK default "api.opsgenie.com" (likewise `Sandbox()` and a URL override, which the OpsGenie run test points at its mock server) | the client uses the notifier's URL | not executed | OpsGenie.AsWrittenLosesRegion | OpsGenie.ClientTargetsChosenURL |
