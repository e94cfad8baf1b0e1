# NovaMail: a verified model

NovaMail accepts mail over SMTP, queues a job in RabbitMQ, and delivers it through a chain of upstream
providers, with wait tiers for deferrals, a dead-letter queue for permanent failures and a generator of
failure notices behind that queue. An admin API repairs DNS records, watches deliverability and pushes
configuration. This Dafny project models the parts of it whose correctness depends on the order of
effects, on concurrency, or on text that another program has to read back, and proves what each of them
promises. `dafny verify dfyconfig.toml` checks everything.

## How the pieces fit

**The relay pipeline** (`Pipeline`, `PipelineSafety`, `PipelineTheorems`, `PipelineLineage`,
`PipelineProgress`, `PipelineHandlers`, `Failover`, `Ingress`). `Pipeline` is a state machine: copies of jobs in the work
queue, the wait tiers and the dead-letter queue, the unacked ones with their delivery tag; the body
store; the message table with its event log; the suppression table; and every running handler with the
effect it is about to perform. One external effect is one action, so a crash, a lost connection, a
refused write or an ambiguous publish can fall between any two. A worker whose broker connection is gone
keeps running while the broker already redelivers its copy, so duplicates and late deletions are
reachable. `PipelineSafety` holds the invariant, `PipelineTheorems` and `PipelineLineage` what follows for every
run, `PipelineProgress` what follows for runs without faults. `PipelineHandlers` is the code's own form: a
class whose methods perform the effects of `worker.handle`, `gen.handle` and `session.Data` in order,
each effect being an action of the machine. `Failover` is the provider chain with its pooled and direct
senders, `Ingress` the SMTP session.

**Shared connections.** `SmtpPool` (the warm connections of a smarthost), `AmqpConn` (the self-healing
broker connection with its supervisor and consumer registry) and `AdminBus` (the admin API's redialling
publisher) are state machines over every interleaving, with classes for the code's critical sections and
handlers. `MapLimit` is the bounded parallel map, any awaited call completing next.

**Text and decisions.** `Spf` and `Dkim` are the record repairs and gradings of the deliverability page,
`Dsn` the printer of failure notices and `DsnReader` an independent reader of them, `Alerts` the
debounced alert machine, `Routing` the rule index. `Text` and `Sums` hold shared vocabulary.

## Where the code does not do what it is for

The code is modelled as it is. Where a promise fails, the exact condition is proved.

- A duplicate of a job whose first copy was relayed finds its body deleted; the worker then gives it back
  to the queue on every delivery, so it never leaves (`PipelineTheorems.LeavesOnlyWithBody`: a queued copy
  can ever leave exactly if its body is stored; `OrphansHappen`: the state is reachable).
- `Conn.Close` during a redial returns before the redial finishes, which then leaves a connection open
  (`AmqpConn.CloseIsFinalUnlessDialling`, `CloseCanComeTooEarly`).
- An SPF record that ends in a bare `all` is still reported after the proposed repair, and one that relies
  on `redirect=` loses it (`Spf.RegradeRepaired`, `Spf.OthersKeepTheirResult`, with witnesses
  `BareAllIsReportedAgain` and `RedirectIsLost`).
- A key with a semicolon, or a blank one, makes the proposed DKIM record fail its own check
  (`Dkim.FixIsFixpoint`).
- `mapLimit` with a limit below one returns only holes (`MapLimit.Map`). No caller does this: both calls
  pass a constant (6 and 4).
- A failure notice reads back exactly if its inputs hold no CRLF (`DsnReader.RoundTripIffClean`), and, once
  a mail writer has turned bare line feeds into CRLF, exactly if they hold no line feed at all
  (`RoundTripIffUnfed`). The reply of an upstream in several lines can reach the diagnostic joined by line
  feeds.
- Counting NOTIFY=NEVER over all recipients is wrong if one recipient repeats it, which RFC 3461 forbids;
  it matters only if the SMTP library lets such a parameter through, and the library is not part of this
  model (`Ingress.QuietExactly`, `RepeatsMislead`).

## What is assumed of the broker

A publish whose channel write returns no error has reached the queue. The code asks for no publisher
confirms, so `PipelineTheorems.NothingIsLost` and everything built on it rests on this; a publish that
returns an error may or may not have reached the queue, any number of times. The broker drops nothing that
is not acked, hands an unacked copy out again at any time, and moves an expired tier copy to the work queue
whole.

## Model

| member | source | states |
|---|---|---|
| PipelineSafety.StepKeeps | cmd/delivery/main.go:249-381 | every action of ingress, broker, workers and DSN generator keeps the invariant: unique tags and ids, tier discipline, bodies and rows before jobs, no published message without a live copy unless settled |
| PipelineSafety.RunKeeps | cmd/delivery/main.go:249-381 | the same for every run |
| PipelineSafety.AckSpares | cmd/delivery/main.go:582-589 | an ack removes a copy only of a settled message, or one outranked by a replacement already in the broker |
| PipelineSafety.NoStepLoses | cmd/delivery/main.go:426-442 | no step makes an unsettled message fall back behind the attempt one of its copies had reached |
| PipelineTheorems.NothingIsLost | cmd/ingress/backend.go:150-212 | in every run with any crashes, requeues, ambiguous publishes and concurrent handlers, a published message was taken by an upstream, or a null-sender notice to its sender was published, or it was itself a bounce or NOTIFY=NEVER, or a copy is still in the broker |
| PipelineTheorems.BodiesOutliveNeed | cmd/delivery/main.go:357-365 | a copy can lack its body only once its message is settled; its row is always there |
| PipelineTheorems.BodyAndRowComeFirst | cmd/ingress/backend.go:147-207 | whichever step first enqueues an id, its body and row already exist |
| PipelineTheorems.TierDiscipline | internal/amqp/amqp.go:278-289 | wait tier k holds only attempt k, work copies attempts up to 3, dead-lettered copies up to 4, in every run |
| PipelineLineage.LineageBound | internal/amqp/amqp.go:47-61 | in every run, redeliveries included, a chain of copies each published in place of the one before has at most five members, waits at most 2130 s in tiers, and its fifth member is in the dead-letter queue |
| PipelineLineage.HistoryIsComplete | cmd/delivery/main.go:426-442 | in every run each copy in the broker, and each copy a handler works on, is one the history of the run saw published with that job |
| PipelineLineage.PublishAdds | internal/amqp/amqp.go:343-369 | a publish adds exactly one copy and touches no other copy and no handler but its publisher's phase |
| PipelineTheorems.BouncesNeverCascade | cmd/dsn/main.go:128-175 | a notice has a null sender, goes to the sender of the message it reports, is never itself reported and suppresses nobody; only messages with a sender that want notices are reported |
| PipelineTheorems.OnlyRealMailSuppresses | cmd/dsn/main.go:128-135 | every suppressed address is a recipient of a published message that had a sender |
| PipelineTheorems.RowsAgree | internal/db/db.go:341-385 | in every run the status of a row is its last event and its attempts are one less than its events |
| PipelineTheorems.SuppressionHolds | cmd/ingress/inbound.go:54-60 | once ingress lists an address and goes on listing it, no session that had not already named it publishes a job for it, in every continuation |
| PipelineTheorems.OrphanForever | cmd/delivery/main.go:273-278 | a work copy without its body stays in the work queue in every continuation |
| PipelineTheorems.LeavesOnlyWithBody | cmd/delivery/main.go:271-278 | a queued work copy can ever leave the broker if and only if its body is stored |
| PipelineTheorems.OrphansHappen | cmd/delivery/main.go:357-365 | such a copy is reachable from the empty system by one lost connection |
| PipelineProgress.StepPays | cmd/delivery/main.go:426-442 | every fault-free step lowers the potential of copies, handlers and sessions by its cost, or is new mail that brings its budget |
| PipelineProgress.CleanRunsAreShort | cmd/dsn/main.go:137-175 | n sessions without faults, with whatever verdicts and bounces, take at most 71 n effects and 16 n moves between queues |
| PipelineProgress.RowsTellThePlace | cmd/delivery/main.go:357-381 | without faults every published message has exactly one current copy, and its event log spells out the queue, attempt and phase of that copy, or it is over and the log says how |
| PipelineProgress.SomethingMoves | cmd/dsn/main.go:114-181 | without faults nothing gets stuck: while anything is under way some step is possible without new mail, a routing worker deciding as the route it was given does |
| PipelineProgress.RoutingMoves | cmd/delivery/main.go:280-381 | for every route and whatever the providers answer, a worker with the body in hand can decide, unless its deadline passes |
| PipelineProgress.CleanRunsEndWell | cmd/dsn/main.go:114-181 | a fault-free run that can go no further, whatever timely routes its workers are given, has emptied all queues and every message was relayed, reported or needed no report, as its row says |
| PipelineHandlers.Node.HandleDelivery | cmd/delivery/main.go:249-381 | the worker's handler on any queued copy: interrupted exactly without its body, else the verdict of route and chain; given back exactly if interrupted or its replacement was not reported sent; the exact row, body store and set of acceptances, and the copies up to how many equal replacements a retried publish adds |
| PipelineHandlers.Node.Carry | cmd/delivery/main.go:280-381 | the same from the fetched body on |
| PipelineHandlers.Choose | cmd/delivery/main.go:280-306 | routing, domain rate limit and chain together reach the declared verdict; an empty chain defers |
| PipelineHandlers.Node.Relay | cmd/delivery/main.go:357-365 | record, delete, ack in that order: the exact new state for every combination of failures |
| PipelineHandlers.Node.SetAside | cmd/delivery/main.go:426-442 | record, publish the replacement, then ack; given back unchanged if the publish is never reported sent |
| PipelineHandlers.Node.PublishReplacement | internal/amqp/amqp.go:303-328 | a retried publish adds only equal copies of the replacement, one per try that reached the broker, and leaves the rest alone |
| PipelineHandlers.Node.HandleDeadLetter | cmd/dsn/main.go:114-181 | the DSN generator's handler: the bounced row, the suppressions, the silent end of bounces and NOTIFY=NEVER, or a stored, inserted and published notice before the ack; given back exactly if storing, inserting or publishing fails, with what was done before that left in place |
| PipelineHandlers.Node.Inform | cmd/dsn/main.go:145-180 | body, row and job of the notice, in that order, then the ack of the reported copy; the first that fails gives it back |
| PipelineHandlers.Node.Data | cmd/ingress/backend.go:150-212 | accepted exactly if body, size, row and publish all succeed; the exact body store and rows for each failure, and nothing enqueued when a step before the publish fails |
| PipelineHandlers.Node.PublishSubmission | cmd/ingress/backend.go:201-207 | a publish reported failed may still have enqueued the job; one reported sent has |
| Pipeline.TierForAttempt | internal/amqp/amqp.go:55-61 | a tier exactly for attempts 1 to 3, namely tier k for attempt k |
| Failover.TryChain | cmd/delivery/main.go:308-381 | the loop reaches the declared verdict for chains of any length; it contacts each position at most once, in order, up to the one that ends the chain, and keeps the last provider's word |
| Failover.VerdictUnique | cmd/delivery/main.go:308-381 | a chain has at most one declared verdict |
| Failover.VerdictExists | cmd/delivery/main.go:280-381 | every route has a verdict, and it is an interruption exactly if the deadline passes |
| Failover.Read | cmd/delivery/main.go:346-356 | an error with a Delivered outcome counts as Defer, with the error as detail if there was none |
| Failover.RelayedMeansCleanExchange | internal/providers/smtp.go:181-209 | an accepted job had one error-free mail exchange at the accepting position, and no earlier position delivered |
| Failover.SendDirect | internal/providers/direct.go:85-115 | delivered exactly if some MX host had an error-free session after only transient ones, failed exactly if one rejected permanently after only transient ones or there is no domain; the answer is the settling host's, else the last one's |
| Failover.ToHost | internal/providers/direct.go:117-175 | a host delivers exactly if no command failed, and then without an error |
| Ingress.Session.Mail | cmd/ingress/backend.go:98-129 | accepted exactly if all gates pass, in their order; the sender changes only then |
| Ingress.Session.Rcpt | cmd/ingress/backend.go:131-145 | a suppressed address in any case is refused and leaves the session unchanged; otherwise recipient and NOTIFY list are appended and counted |
| Ingress.Session.Submission | cmd/ingress/backend.go:179-200 | the enqueued job has the session's sender, recipients and domains, and is quiet exactly as counting decides |
| Ingress.Session.Reset | cmd/ingress/backend.go:214-220 | a reset leaves nothing of the transaction behind |
| Ingress.SendersAllow | cmd/ingress/inbound.go:102-112 | true exactly for an empty list, a star, or a domain listed in any case |
| Ingress.DomainMeans | cmd/ingress/backend.go:245-253 | the domain is what follows the last at-sign, in lower case |
| Ingress.QuietExactly | cmd/ingress/backend.go:196-197 | when counting NEVERs decides as asked by every recipient, and when not |
| Ingress.QuietIffEveryoneAsked | cmd/ingress/backend.go:196-197 | on NOTIFY lists valid under section 4.1 of RFC 3461, quiet if and only if every recipient asked for NEVER |
| Ingress.RepeatsMislead | cmd/ingress/backend.go:137-143 | a repeated NEVER silences the notice another recipient wants |
| SmtpPool.Keeps | internal/providers/smtp.go:128-209 | every action of any number of concurrent sends and closes keeps the pool invariant |
| SmtpPool.OneOwner | internal/providers/smtp.go:128-237 | in every interleaving an opened connection has exactly one owner (idle list, one send, or one close) until it is closed, and none afterwards |
| SmtpPool.IdleAreReady | internal/providers/smtp.go:164-176 | idle connections are distinct, at most the maximum, open, greeted, outside a transaction and without a deadline; a transaction starts only on such a connection |
| SmtpPool.ClosedForGood | internal/providers/smtp.go:225-237 | after a close the idle list stays empty for ever |
| SmtpPool.NoLeak | internal/providers/smtp.go:225-237 | once closed with all sends over and drains done, no connection is open |
| SmtpPool.SmtpProvider.TakeIdle | internal/providers/smtp.go:130-138 | the newest idle connection leaves the list |
| SmtpPool.SmtpProvider.Release | internal/providers/smtp.go:166-176 | kept at the end of the list exactly if the pool is open and has room |
| SmtpPool.SmtpProvider.Shutdown | internal/providers/smtp.go:227-237 | all idle connections are handed over for closing and the pool is closed |
| SmtpPool.SmtpProvider.Acquire | internal/providers/smtp.go:128-151 | the newest idle connection that answers, having dropped exactly the newer ones, which do not |
| AmqpConn.ReconnectsServeEveryone | internal/amqp/amqp.go:153-217 | in every interleaving, with no reconnect under way and the connection open, every registered consumer is subscribed on it, except where the broker refused or closed its channel |
| AmqpConn.RegisteredIffTold | internal/amqp/amqp.go:387-400 | a consumer is in the registry exactly if its caller got the channel, and only once |
| AmqpConn.ChannelsAreStable | internal/amqp/amqp.go:63-70 | through any run a registered consumer keeps its queue, prefetch and channel |
| AmqpConn.CloseIsFinalUnlessDialling | internal/amqp/amqp.go:128-149 | once Close has returned, no connection is ever open again if and only if none is open then and no dial is under way |
| AmqpConn.CloseCanComeTooEarly | internal/amqp/amqp.go:153-167 | a Close that returns during a redial is reachable |
| AdminBus.ExactlyOne | services/admin-api/src/bus.ts:39-81 | from the first connect on, in every run, exactly one of dialling, armed timer and live channel, and a live channel is the latest generation's |
| AdminBus.StaleCloseIgnored | services/admin-api/src/bus.ts:58-74 | a close event changes something if and only if it is the live generation's |
| AdminBus.BackoffFollowsHistory | services/admin-api/src/bus.ts:32-46 | the counter is the number of failures in a row, and an armed timer has the delay of that number |
| AdminBus.DelayShape | services/admin-api/src/bus.ts:41 | min(1000 * 2^n, 30000): doubling up to the fifth failure, then the cap |
| AdminBus.Bus.ScheduleReconnect | services/admin-api/src/bus.ts:39-46 | at most one timer, with the delay of the current counter |
| AdminBus.Bus.Refused | services/admin-api/src/bus.ts:75-80 | a failed dial is the machine's step |
| AdminBus.Bus.Connected | services/admin-api/src/bus.ts:53-57 | a completed dial is the machine's step |
| AdminBus.Bus.Connect | services/admin-api/src/bus.ts:51-53 | the call up to its first await is the machine's start |
| AdminBus.Bus.TimerFired | services/admin-api/src/bus.ts:42-45 | the timer's callback is the machine's step |
| AdminBus.Bus.OnLost | services/admin-api/src/bus.ts:62-70 | a close event is the machine's step |
| MapLimit.Map | services/admin-api/src/deliverability.ts:231-242 | for every completion order the sequential map, if and only if the limit is at least one or there is nothing to do; each index called once and in order, and exactly min(limit, n) calls in flight at the peak |
| Alerts.AlertStore.EvalTransition | services/admin-api/src/alerts.ts:172-193 | one evaluation is the machine's step on that domain's row, and touches no other |
| Alerts.RowIsDigest | services/admin-api/src/alerts.ts:172-193 | the stored row is a digest of the whole status history |
| Alerts.FiresExactlyWhenDue | services/admin-api/src/alerts.ts:172-193 | for every history and threshold an alert fires if and only if the last k statuses are equal and differ from the last alerted one, which it names; recovery exactly for a good status |
| Alerts.LastingChangesAreAlerted | services/admin-api/src/alerts.ts:182-192 | a status that held for k checks is the alerted one |
| Alerts.AlertsAreApart | services/admin-api/src/alerts.ts:186-192 | two alerts are at least k checks apart |
| Routing.Engine.Build | internal/routing/routing.go:20-44 | the index answers every recipient key, sender key and the default as a scan of all rules does |
| Routing.Engine.Add | internal/routing/routing.go:24-42 | one pass of the loop keeps the index equal to the scan of the rules seen |
| Routing.Engine.Index | internal/routing/routing.go:28-41 | a usable rule answers its key, unless an earlier one does, and no other key |
| Routing.Engine.Resolve | internal/routing/routing.go:46-56 | for every pair of domains the chain of the plain scan: recipient, then sender, then default |
| Routing.First | internal/routing/routing.go:24-42 | the position of the first enabled rule with a chain for a key |
| Routing.ScanPicksTheBest | internal/db/db.go:299-304 | no chain if and only if no rule applies; else that of an applicable rule of the most specific kind, the first of it and, in the query's order, of highest priority |
| Routing.Chain | cmd/delivery/main.go:238-247 | exactly the configured providers of the chain, in chain order |
| Spf.SplitJoin | services/admin-api/src/deliverability.ts:107-113 | joining tokens and splitting again gives the tokens back |
| Spf.MergeKeepsTokens | services/admin-api/src/deliverability.ts:107-113 | the repaired record has the old tokens in order with the missing ones before the first `all`, or at the end with `-all`, for every old record |
| Spf.RepairMeaning | services/admin-api/src/deliverability.ts:107-113 | for every record and host, the evaluation of section 4.6.2 of RFC 7208 before and after the repair, fully related |
| Spf.OthersKeepTheirResult | services/admin-api/src/deliverability.ts:107-113 | a host no added mechanism matches keeps its result if and only if it was decided before the end or the record had an `all` |
| Spf.RouteIsAuthorized | services/admin-api/src/deliverability.ts:115-136 | a host of the added route passes unless the old record decided it before `all` |
| Spf.RegradeRepaired | services/admin-api/src/deliverability.ts:115-141 | publishing the repair leaves nothing missing, and grades `ok` if and only if the old record had no `all`, or a qualified one stands in it or in an added mechanism |
| Spf.RegradeBuilt | services/admin-api/src/deliverability.ts:101-141 | publishing the record built for a domain without one grades `ok`, or `info` without required mechanisms |
| Spf.SpfByFirstToken | services/admin-api/src/deliverability.ts:116 | the version test on the trimmed record is a test of its first token |
| Spf.QualifiedByTokens | services/admin-api/src/deliverability.ts:132 | the pattern for a qualified `all` can be looked up token by token |
| Spf.BareAllIsReportedAgain | services/admin-api/src/deliverability.ts:132-134 | a record ending in a bare `all` is graded `warning` again after the repair |
| Spf.RedirectIsLost | services/admin-api/src/deliverability.ts:111 | a record ending in `redirect=` fails, after the repair, hosts it used to redirect |
| Dkim.ExtractTag | services/admin-api/src/deliverability.ts:52-62 | the loop returns the value of the first tag of that name |
| Dkim.LookupIsFirst | services/admin-api/src/deliverability.ts:52-62 | that tag is the first piece with an equals sign and that name, in any case, among the pieces |
| Dkim.ReadsBack | services/admin-api/src/deliverability.ts:73-89 | from the printed record the parser recovers the key up to its first semicolon, modulo white space |
| Dkim.SpacesDoNotMatter | services/admin-api/src/deliverability.ts:52-92 | for every record, adding or removing white space in the value of any tag never changes the verdict |
| Dkim.FixIsFixpoint | services/admin-api/src/deliverability.ts:66-99 | the proposed record grades `ok` for active and retiring selectors if and only if the key has no semicolon and is not blank; otherwise the same proposal is made again |
| Dsn.BuildDsn | cmd/dsn/main.go:215-261 | the text is the lines of the notice, each ended by CRLF, the empty diagnostic replaced by the default |
| Dsn.Builder.WriteHuman | cmd/dsn/main.go:235-246 | the human-readable part with every recipient in order |
| Dsn.Builder.WriteMachine | cmd/dsn/main.go:248-258 | the machine-readable part with one group for every recipient in order |
| DsnReader.TwoParts | cmd/dsn/main.go:234-259 | the delimiters enclose exactly the two parts as written |
| DsnReader.MachineRead | cmd/dsn/main.go:248-258 | a reader after section 2.1 of RFC 3464 recovers the reporting host and each recipient with action, status and diagnostic, in order |
| DsnReader.RoundTrip | cmd/dsn/main.go:215-261 | printing and reading back gives exactly two parts, sender, host and all recipients, for all inputs without line breaks |
| DsnReader.RoundTripIffClean | cmd/dsn/main.go:215-261 | for at least one recipient, read as printed, if and only if host, sender, recipients and diagnostic hold no CRLF |
| DsnReader.RoundTripIffUnfed | cmd/dsn/main.go:215-261 | for at least one recipient, read after bare line feeds became CRLF, if and only if they hold no line feed |
| DsnReader.ReadLines | cmd/dsn/main.go:215-261 | each value the reader recovers from any text is the end of one of its lines |

## Left out

- Wire protocols of RabbitMQ, Postgres, SMTP, TLS and DNS: each call is a free outcome (success, error, crash, and for a publish an error although it was enqueued; a publish without an error counts as enqueued).
- The token buckets: only their answer (clear, small delay, large delay, deadline passed) enters the model.
- Jobs that do not parse, which the handlers reject; every published job parses.
- A body key different from the message id: the code always uses the id, so bodies are stored under it.
- Random identifiers are fresh; two draws never collide.
- Envelope and DKIM encryption, password hashing, signing, SES password derivation, tracing, metrics and health pages.
- Operator requeue, queue purge, alert mails and the maintenance sweep, which add or remove copies or bodies outside the pipeline; removal and expiry of suppressions.
- Config subscriptions of the broker connection; only registered consumers are modelled. A consumer may be subscribed twice after a race, so only "at least once" is claimed.
- Size header capture, subjects and other message metadata; SMTP AUTH and CIDR matching, which enter as the list of permitted senders.
- The sort of MX hosts by preference: the direct sender gets its hosts in order.
- Grading of DMARC, MX, MTA-STS, BIMI and TLS-RPT records, the roll-up, alert channels and their severity filter: single-branch decisions.
- Case folding beyond ASCII: domains, tags and mechanisms are compared in ASCII.
- DNS lookup limits of SPF: an added `include` counts towards the ten lookups of RFC 7208, which the evaluation here does not count. It reads the tokens the repair works on; a record whose terms are separated by anything but spaces is malformed for a receiver.
- RFC 5322 folding and encoded words in failure notices: the printer uses neither.
- The date of a failure notice is a parameter.
- PipelineHandlers.Node.HandleDelivery: runs the handler by itself from delivery to ack; interleavings with other handlers, and a redelivery while it runs, are covered by the theorems over the protocol's runs.
- PipelineHandlers.Node.HandleDeadLetter: the same.
- PipelineHandlers.Node.Data: the same.
- AmqpConn.ReconnectsServeEveryone: the lock-guarded fields of `Conn` are modelled as one machine on values, since its goroutines interleave at every lock; there is no class for it.
- SmtpPool.OneOwner: the pool is a machine on values with connection numbers; only the critical sections and `acquire`'s loop have the class form.
- Spf.MergeKeepsTokens: the spliced token array is a sequence value; the caller never sees it change.
