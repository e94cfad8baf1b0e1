/** The relay pipeline as a protocol: ingress, delivery workers, wait tiers, dead-letter queue and
    DSN generator around one broker, one body store and one message table.

    Every external effect of the handlers is one action, so that a crash, a lost connection or a
    refused publish can fall between any two. A handler that lost its broker connection keeps
    running: the broker has already requeued the copy, and the handler's later ack reaches nobody. */
module Pipeline {
  import opened Text
  import opened Failover

  type Id = string

  /** The wait tiers' time to live, in seconds. */
  const TIERS: seq<nat> := [30, 300, 1800]

  /** The tier for an already incremented attempt number; None means the schedule is exhausted. */
  function TierForAttempt(attempt: int): (r: Option<nat>)
    ensures r.Some? <==> 1 <= attempt <= |TIERS|
    ensures r.Some? ==> r.value == attempt
  {
    if attempt - 1 < 0 || attempt - 1 >= |TIERS| then None else Some(attempt)
  }

  /** A relay job; its body is stored under its id. `quiet` is NOTIFY=NEVER for every recipient. */
  datatype Job = Job(id: Id, sender: string, rcpts: seq<string>, quiet: bool, attempt: nat)

  datatype Queue = WorkQueue | Tier(level: nat) | Dlq

  /** A copy of a job inside the broker. `holder` is the delivery tag while it is unacked. */
  datatype Copy = Copy(job: Job, queue: Queue, holder: Option<nat>)

  datatype Phase =
    // delivery worker
    | Fetching | Routing
    | Accepting | RelayLogged | Cleaned
    | Deferring | DeferLogged | Failing | FailLogged | Replaced
    // DSN generator
    | Noting | Noted | Fed | Silent
    | DsnStored(dsn: Id) | DsnInserted(dsn: Id) | DsnSent(dsn: Id)
    | Closed

  /** A running handler: the copy it was given, its local job and how far it got. */
  datatype Handler = Handler(copy: nat, job: Job, phase: Phase)

  predicate OnDlq(p: Phase)
  {
    p.Noting? || p.Noted? || p.Fed? || p.Silent? || p.DsnStored? || p.DsnInserted? || p.DsnSent? || p.Closed?
  }

  function PendingDsn(p: Phase): Option<Id>
  {
    match p
    case DsnStored(d) => Some(d)
    case DsnInserted(d) => Some(d)
    case _ => None
  }

  datatype Status = Queued | Relayed | Deferred | Failed | Bounced

  /** A row of the message table with its event log. */
  datatype Row = Row(status: Status, attempts: nat, events: seq<Status>)

  datatype SubPhase = Envelope | Stored | Inserted

  /** An SMTP submission under way. */
  datatype Sub = Sub(sender: string, rcpts: seq<string>, nevers: nat, phase: SubPhase)

  datatype State = State(
    copies: map<nat, Copy>,
    handlers: map<nat, Handler>,
    subs: map<Id, Sub>,
    bodies: set<Id>,
    rows: map<Id, Row>,
    suppressed: set<string>,     // the suppression table
    policy: set<string>,         // the suppression snapshot ingress has loaded
    // history
    used: set<Id>,               // every id ever drawn
    published: map<Id, Job>,     // every id ever enqueued, with its first job
    relayed: set<Id>,            // accepted by an upstream
    silenced: set<Id>,           // dead-lettered and closed without a notice
    bounced: map<Id, Id>,        // a DSN about it was enqueued: the last one
    dsnOf: map<Id, Id>,          // DSN id to the message it reports
    next: nat)                   // source of copy keys and delivery tags

  const INITIAL := State(map[], map[], map[], {}, map[], {}, {}, {}, map[], {}, {}, map[], map[], 0)

  datatype IngressStep =
    | Open(sender: string) | Rcpt(to: string, never: bool)
    | StoreBody | RejectOversize(deleted: bool) | InsertRow
    | Abandon

  datatype BrokerStep = Deliver | Receive | Expire | Requeue

  datatype WorkStep =
    | Fetch | Decide(route: Route, verdict: Verdict) | Log(committed: bool) | DropBody(deleted: bool)
    | Feed(stored: set<string>) | Silence

  datatype DsnStep = StoreDsn(id: Id) | InsertDsn

  datatype ExitStep = Ack | Nack | Die

  /** A publish is `sent` if the channel reports no error, which is taken to mean that the broker has
      the message; there are no publisher confirms. One that is not `sent` reached the broker although
      the channel reported an error, so the publisher's retry loop goes round again. The broker drops
      nothing that is unacked. A write that is not `committed`, `deleted` or
      `stored` failed, and the handlers ignore that. `Requeue` is the broker noticing a lost
      connection, `Die` a handler's process ending, `Abandon` a submission ending anywhere. */
  datatype Action =
    | Reload(addresses: set<string>)
    | Ingress(id: Id, i: IngressStep)
    | Submit(id: Id, sent: bool)
    | Broker(c: nat, b: BrokerStep)
    | Work(h: nat, w: WorkStep)
    | Replace(h: nat, sent: bool)
    | Bounce(h: nat, d: DsnStep)
    | Notify(h: nat, sent: bool)
    | Exit(h: nat, e: ExitStep)

  /** The phases that call RecordAttempt, the status it writes, and where the handler goes next. */
  predicate Logs(p: Phase)
  {
    p.Accepting? || p.Deferring? || p.Failing? || p.Noting?
  }

  function LogStatus(p: Phase): Status
    requires Logs(p)
  {
    if p.Accepting? then Relayed else if p.Deferring? then Deferred else if p.Failing? then Failed else Bounced
  }

  function AfterLog(p: Phase): Phase
    requires Logs(p)
  {
    if p.Accepting? then RelayLogged else if p.Deferring? then DeferLogged else if p.Failing? then FailLogged else Noted
  }

  /** The phases that delete the body. */
  predicate Drops(p: Phase)
  {
    p.RelayLogged? || p.Silent? || p.DsnSent?
  }

  function AfterDrop(p: Phase): Phase
    requires Drops(p)
  {
    if p.RelayLogged? then Cleaned else Closed
  }

  predicate MayNack(p: Phase)
  {
    p.Fetching? || p.Routing? || p.DeferLogged? || p.FailLogged? || p.Fed? || p.DsnStored? || p.DsnInserted?
  }

  predicate MayAck(p: Phase)
  {
    p.Cleaned? || p.Replaced? || p.Closed?
  }

  predicate IngressEnabled(s: State, id: Id, i: IngressStep)
  {
    match i
    case Open(_) => id !in s.used
    case Rcpt(to, _) => id in s.subs && s.subs[id].phase.Envelope? && Lower(to) !in s.policy
    case StoreBody => id in s.subs && s.subs[id].phase.Envelope?
    case RejectOversize(_) => id in s.subs && s.subs[id].phase.Stored?
    case InsertRow => id in s.subs && s.subs[id].phase.Stored? && id !in s.rows
    case Abandon => id in s.subs
  }

  predicate BrokerEnabled(s: State, c: nat, b: BrokerStep)
  {
    && c in s.copies
    && match b
       case Deliver => s.copies[c].holder.None? && s.copies[c].queue.WorkQueue?
       case Receive => s.copies[c].holder.None? && s.copies[c].queue.Dlq?
       case Expire => s.copies[c].queue.Tier?
       case Requeue => s.copies[c].holder.Some?
  }

  /** The addresses a dead-lettered job puts on the suppression list. */
  function Complaints(j: Job): set<string>
  {
    if j.sender == "" then {} else set r | r in j.rcpts :: Lower(r)
  }

  /** Never bounce a bounce, and honour NOTIFY=NEVER. */
  predicate NoNotice(j: Job)
  {
    j.sender == "" || j.quiet
  }

  ghost predicate WorkEnabled(s: State, h: nat, w: WorkStep)
  {
    && h in s.handlers
    && var p := s.handlers[h].phase;
       match w
       case Fetch => p.Fetching? && s.handlers[h].job.id in s.bodies
       case Decide(route, verdict) => p.Routing? && RouteMeans(route, verdict) && !verdict.Interrupted?
       case Log(_) => Logs(p)
       case DropBody(_) => Drops(p)
       case Feed(stored) => p.Noted? && stored <= Complaints(s.handlers[h].job)
       case Silence => p.Fed? && NoNotice(s.handlers[h].job)
  }

  predicate DsnEnabled(s: State, h: nat, d: DsnStep)
  {
    && h in s.handlers
    && var p := s.handlers[h].phase;
       match d
       case StoreDsn(id) => p.Fed? && !NoNotice(s.handlers[h].job) && id !in s.used
       case InsertDsn => p.DsnStored? && p.dsn !in s.rows
  }

  predicate ExitEnabled(s: State, h: nat, e: ExitStep)
  {
    && h in s.handlers
    && match e
       case Ack => MayAck(s.handlers[h].phase)
       case Nack => MayNack(s.handlers[h].phase)
       case Die => true
  }

  predicate SubmitEnabled(s: State, id: Id)
  {
    id in s.subs && s.subs[id].phase.Inserted?
  }

  predicate ReplaceEnabled(s: State, h: nat)
  {
    h in s.handlers && (s.handlers[h].phase.DeferLogged? || s.handlers[h].phase.FailLogged?)
  }

  predicate NotifyEnabled(s: State, h: nat)
  {
    h in s.handlers && s.handlers[h].phase.DsnInserted?
  }

  ghost predicate Enabled(s: State, a: Action)
  {
    match a
    case Reload(_) => true
    case Ingress(id, i) => IngressEnabled(s, id, i)
    case Submit(id, _) => SubmitEnabled(s, id)
    case Broker(c, b) => BrokerEnabled(s, c, b)
    case Work(h, w) => WorkEnabled(s, h, w)
    case Replace(h, _) => ReplaceEnabled(s, h)
    case Bounce(h, d) => DsnEnabled(s, h, d)
    case Notify(h, _) => NotifyEnabled(s, h)
    case Exit(h, e) => ExitEnabled(s, h, e)
  }

  function JobOf(id: Id, sub: Sub): Job
  {
    Job(id, sub.sender, sub.rcpts, |sub.rcpts| > 0 && sub.nevers == |sub.rcpts|, 0)
  }

  function DsnJob(id: Id, about: Job): Job
  {
    Job(id, "", [about.sender], false, 0)
  }

  /** The copy that `defer_` or `toDLQ` publishes before acking the original. */
  function Replacement(h: Handler): Copy
  {
    if h.phase.FailLogged? then Copy(h.job, Dlq, None)
    else
      var j := h.job.(attempt := h.job.attempt + 1);
      match TierForAttempt(j.attempt)
      case Some(k) => Copy(j, Tier(k), None)
      case None => Copy(j, Dlq, None)
  }

  function Logged(rows: map<Id, Row>, id: Id, st: Status): (r: map<Id, Row>)
    ensures r.Keys == rows.Keys
  {
    if id !in rows then rows
    else var r := rows[id]; rows[id := Row(st, r.attempts + 1, r.events + [st])]
  }

  const FRESH_ROW := Row(Queued, 0, [Queued])

  function Goto(s: State, h: nat, p: Phase): State
    requires h in s.handlers
  {
    s.(handlers := s.handlers[h := s.handlers[h].(phase := p)])
  }

  function Enqueue(s: State, c: Copy): State
  {
    s.(copies := s.copies[s.next := c], next := s.next + 1)
  }

  /** A new job goes to the work queue; its first enqueueing enters it in the history. */
  function Publish(s: State, j: Job): State
  {
    Enqueue(s, Copy(j, WorkQueue, None))
    .(published := if j.id in s.published then s.published else s.published[j.id := j])
  }

  function Start(s: State, c: nat, p: Phase): State
    requires c in s.copies
  {
    s.(copies := s.copies[c := s.copies[c].(holder := Some(s.next))],
       handlers := s.handlers[s.next := Handler(c, s.copies[c].job, p)],
       next := s.next + 1)
  }

  /** The copy still counts as delivered to this handler. */
  predicate Holds(s: State, h: nat)
  {
    && h in s.handlers
    && s.handlers[h].copy in s.copies
    && s.copies[s.handlers[h].copy].holder == Some(h)
  }

  function IngressNext(s: State, id: Id, i: IngressStep): State
    requires IngressEnabled(s, id, i)
  {
    match i
    case Open(sender) =>
      s.(subs := s.subs[id := Sub(sender, [], 0, Envelope)], used := s.used + {id})
    case Rcpt(to, never) =>
      var u := s.subs[id];
      s.(subs := s.subs[id := u.(rcpts := u.rcpts + [to], nevers := if never then u.nevers + 1 else u.nevers)])
    case StoreBody =>
      s.(subs := s.subs[id := s.subs[id].(phase := Stored)], bodies := s.bodies + {id})
    case RejectOversize(deleted) =>
      s.(subs := s.subs - {id}, bodies := if deleted then s.bodies - {id} else s.bodies)
    case InsertRow =>
      s.(subs := s.subs[id := s.subs[id].(phase := Inserted)], rows := s.rows[id := FRESH_ROW])
    case Abandon => s.(subs := s.subs - {id})
  }

  function SubmitNext(s: State, id: Id, sent: bool): State
    requires id in s.subs
  {
    Publish(s, JobOf(id, s.subs[id])).(subs := if sent then s.subs - {id} else s.subs)
  }

  function BrokerNext(s: State, c: nat, b: BrokerStep): State
    requires BrokerEnabled(s, c, b)
  {
    match b
    case Deliver => Start(s, c, Fetching)
    case Receive => Start(s, c, Noting)
    case Expire => s.(copies := s.copies[c := s.copies[c].(queue := WorkQueue)])
    case Requeue => s.(copies := s.copies[c := s.copies[c].(holder := None)])
  }

  function DecideNext(s: State, h: nat, verdict: Verdict): State
    requires h in s.handlers
  {
    if verdict.Accepted? then Goto(s, h, Accepting).(relayed := s.relayed + {s.handlers[h].job.id})
    else if verdict.Postponed? then Goto(s, h, Deferring)
    else Goto(s, h, Failing)
  }

  function WorkNext(s: State, h: nat, w: WorkStep): State
    requires WorkEnabled(s, h, w)
  {
    var job := s.handlers[h].job;
    match w
    case Fetch => Goto(s, h, Routing)
    case Decide(_, verdict) => DecideNext(s, h, verdict)
    case Log(committed) =>
      var p := s.handlers[h].phase;
      Goto(s, h, AfterLog(p)).(rows := if committed then Logged(s.rows, job.id, LogStatus(p)) else s.rows)
    case DropBody(deleted) =>
      Goto(s, h, AfterDrop(s.handlers[h].phase)).(bodies := if deleted then s.bodies - {job.id} else s.bodies)
    case Feed(stored) => Goto(s, h, Fed).(suppressed := s.suppressed + stored)
    case Silence => Goto(s, h, Silent).(silenced := s.silenced + {job.id})
  }

  function ReplaceNext(s: State, h: nat, sent: bool): State
    requires h in s.handlers
  {
    var t := Enqueue(s, Replacement(s.handlers[h]));
    if sent then Goto(t, h, Replaced) else t
  }

  function DsnNext(s: State, h: nat, d: DsnStep): State
    requires DsnEnabled(s, h, d)
  {
    match d
    case StoreDsn(id) => Goto(s, h, DsnStored(id)).(bodies := s.bodies + {id}, used := s.used + {id})
    case InsertDsn =>
      var id := s.handlers[h].phase.dsn;
      Goto(s, h, DsnInserted(id)).(rows := s.rows[id := FRESH_ROW])
  }

  function NotifyNext(s: State, h: nat, sent: bool): State
    requires h in s.handlers && s.handlers[h].phase.DsnInserted?
  {
    var id := s.handlers[h].phase.dsn;
    var about := s.handlers[h].job;
    var t := Publish(s, DsnJob(id, about)).(dsnOf := s.dsnOf[id := about.id], bounced := s.bounced[about.id := id]);
    if sent then Goto(t, h, DsnSent(id)) else t
  }

  function ExitNext(s: State, h: nat, e: ExitStep): State
    requires ExitEnabled(s, h, e)
  {
    var t := s.(handlers := s.handlers - {h});
    var c := s.handlers[h].copy;
    if !Holds(s, h) then t
    else match e
      case Ack => t.(copies := s.copies - {c})
      case Nack => t.(copies := s.copies[c := s.copies[c].(holder := None)])
      case Die => t
  }

  function Next(s: State, a: Action): State
    requires Enabled(s, a)
  {
    match a
    case Reload(addresses) => s.(policy := addresses)
    case Ingress(id, i) => IngressNext(s, id, i)
    case Submit(id, sent) => SubmitNext(s, id, sent)
    case Broker(c, b) => BrokerNext(s, c, b)
    case Work(h, w) => WorkNext(s, h, w)
    case Replace(h, sent) => ReplaceNext(s, h, sent)
    case Bounce(h, d) => DsnNext(s, h, d)
    case Notify(h, sent) => NotifyNext(s, h, sent)
    case Exit(h, e) => ExitNext(s, h, e)
  }

  /** A run from `s`: each action is enabled where it is taken. */
  ghost predicate Runs(s: State, acts: seq<Action>)
    decreases |acts|
  {
    acts == [] || (Enabled(s, acts[0]) && Runs(Next(s, acts[0]), acts[1..]))
  }

  function After(s: State, acts: seq<Action>): State
    requires Runs(s, acts)
    decreases |acts|
  {
    if acts == [] then s else After(Next(s, acts[0]), acts[1..])
  }

  /** Runs grow at the end. */
  lemma {:induction false} Extend(s: State, acts: seq<Action>, a: Action)
    requires Runs(s, acts) && Enabled(After(s, acts), a)
    ensures Runs(s, acts + [a]) && After(s, acts + [a]) == Next(After(s, acts), a)
    decreases |acts|
  {
    if acts == [] {
      assert acts + [a] == [a];
      assert Runs(Next(s, a), []);
    } else {
      Extend(Next(s, acts[0]), acts[1..], a);
      assert (acts + [a])[1..] == acts[1..] + [a];
    }
  }
}
