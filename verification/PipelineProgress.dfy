/** Runs in which nothing fails: how long they can get, where they end, and what the message table
    says about every message on the way. */
module PipelineProgress {
  import opened Text
  import opened Failover
  import opened Pipeline
  import opened PipelineSafety
  import opened PipelineTheorems
  import opened Sums

  /** No crash, no lost connection, no failed publish, write or delete. */
  ghost predicate FaultFree(s: State, a: Action)
  {
    match a
    case Reload(_) => true
    case Ingress(_, i) => !i.Abandon?
    case Submit(_, sent) => sent
    case Broker(_, b) => !b.Requeue?
    case Work(h, w) =>
      (w.Log? ==> w.committed) && (w.DropBody? ==> w.deleted)
      && (w.Feed? ==> h in s.handlers && w.stored == Complaints(s.handlers[h].job))
    case Replace(_, sent) => sent
    case Bounce(_, _) => true
    case Notify(_, sent) => sent
    case Exit(_, e) => e.Ack?
  }

  /** New sessions, their recipients and policy reloads come from outside. */
  predicate Arrival(a: Action)
  {
    a.Reload? || (a.Ingress? && (a.i.Open? || a.i.Rcpt?))
  }

  // ---- Potential -------------------------------------------------------------------------

  /** The cost of a step: with `fine` every step counts one, without only the moves between queues
      (a delivery, an expiry, a DSN generator receipt). */
  function Cost(a: Action, fine: bool): nat
  {
    if Arrival(a) then 0 else if a.Broker? || fine then 1 else 0
  }

  /** The handler's own steps in one pass: fetch, decide, log, replace, ack. */
  function Own(n: nat, fine: bool): nat
  {
    if fine then n else 0
  }

  /** A null-sender job fresh in the work queue: its passes, then its silent end. */
  function WorkLeft0(fine: bool): nat
  {
    1 + Own(5, fine) + 1 + Own(5, fine) + |TIERS| * (2 + Own(5, fine))
  }

  function DlqLeft(mute: bool, fine: bool): nat
    decreases !mute
  {
    if mute then 1 + Own(5, fine)
    else 1 + Own(7, fine) + WorkLeft0(fine)
  }

  /** What is left for a copy in the work queue that can at worst be deferred to the end. */
  function WorkLeft(attempt: nat, mute: bool, fine: bool): nat
  {
    1 + Own(5, fine) + DlqLeft(mute, fine)
    + (if attempt <= |TIERS| then (|TIERS| - attempt) * (2 + Own(5, fine)) else 0)
  }

  function CopyLeft(fine: bool): Copy -> nat
  {
    (c: Copy) =>
      if c.holder.Some? then 0
      else match c.queue
        case WorkQueue => WorkLeft(c.job.attempt, c.job.sender == "", fine)
        case Tier(_) => 1 + WorkLeft(c.job.attempt, c.job.sender == "", fine)
        case Dlq => DlqLeft(c.job.sender == "", fine)
  }

  function PhaseLeft(h: Handler, fine: bool): nat
  {
    var mute := h.job.sender == "";
    var work := WorkLeft(h.job.attempt, mute, fine) - 1;
    var dlq := DlqLeft(mute, fine) - 1;
    match h.phase
    case Fetching => work
    case Routing => if fine then work - 1 else work
    case Accepting => Own(3, fine)
    case RelayLogged => Own(2, fine)
    case Cleaned => Own(1, fine)
    case Deferring => if fine then work - 2 else work
    case DeferLogged => if fine then work - 3 else work
    case Failing => if fine then work - 2 else work
    case FailLogged => if fine then work - 3 else work
    case Replaced => Own(1, fine)
    case Noting => dlq
    case Noted => if fine then dlq - 1 else dlq
    case Fed => if fine then dlq - 2 else dlq
    case Silent => Own(2, fine)
    case DsnStored(_) => Own(4, fine) + WorkLeft0(fine)
    case DsnInserted(_) => Own(3, fine) + WorkLeft0(fine)
    case DsnSent(_) => Own(2, fine)
    case Closed => Own(1, fine)
  }

  function HandlerLeft(fine: bool): Handler -> nat
  {
    (h: Handler) => PhaseLeft(h, fine)
  }

  /** One session: store, insert, submit, then at worst everything a message can go through. */
  function SubLeft(u: Sub, fine: bool): nat
  {
    (if u.phase.Envelope? then Own(3, fine) else if u.phase.Stored? then Own(2, fine) else Own(1, fine))
    + WorkLeft(0, false, fine)
  }

  function SubWeight(fine: bool): Sub -> nat
  {
    (u: Sub) => SubLeft(u, fine)
  }

  lemma PerMessage()
    ensures Own(3, true) + WorkLeft(0, false, true) == 71
    ensures Own(3, false) + WorkLeft(0, false, false) == 16
  {
    assert WorkLeft0(true) == 33 && WorkLeft0(false) == 8;
  }

  lemma OneTierLess(attempt: nat, mute: bool, fine: bool)
    requires attempt < |TIERS|
    ensures WorkLeft(attempt, mute, fine) == WorkLeft(attempt + 1, mute, fine) + 2 + Own(5, fine)
  {
    assert fine || !fine;
  }

  ghost function Left(s: State, fine: bool): nat
  {
    Sum(s.copies, CopyLeft(fine)) + Sum(s.handlers, HandlerLeft(fine)) + Sum(s.subs, SubWeight(fine))
  }

  /** What a session adds when it opens. */
  function Budget(fine: bool): nat
  {
    if fine then 71 else 16
  }

  ghost predicate Pays(s: State, a: Action, fine: bool)
    requires Enabled(s, a)
  {
    Left(Next(s, a), fine) + Cost(a, fine) <= Left(s, fine) + (if a.Ingress? && a.i.Open? then Budget(fine) else 0)
  }

  lemma HandlerPays(s: State, t: State, h: nat, fine: bool, cost: nat)
    requires h in s.handlers && h in t.handlers && t.handlers == s.handlers[h := t.handlers[h]]
    requires t.copies == s.copies && t.subs == s.subs
    requires PhaseLeft(t.handlers[h], fine) + cost <= PhaseLeft(s.handlers[h], fine)
    ensures Left(t, fine) + cost <= Left(s, fine)
  {
    Change(s.handlers, h, t.handlers[h], HandlerLeft(fine));
  }

  lemma LogDrops(s: State, h: nat, w: WorkStep, fine: bool)
    requires InvTiers(s) && WorkEnabled(s, h, w) && (w.Log?)
    ensures PhaseLeft(WorkNext(s, h, w).handlers[h], fine) + Cost(Work(h, w), fine) <= PhaseLeft(s.handlers[h], fine)
  {
  }

  lemma BodyDrops(s: State, h: nat, w: WorkStep, fine: bool)
    requires InvTiers(s) && WorkEnabled(s, h, w) && (w.DropBody? || w.Fetch?)
    ensures PhaseLeft(WorkNext(s, h, w).handlers[h], fine) + Cost(Work(h, w), fine) <= PhaseLeft(s.handlers[h], fine)
  {
  }

  lemma FeedDrops(s: State, h: nat, w: WorkStep, fine: bool)
    requires InvTiers(s) && WorkEnabled(s, h, w) && (w.Feed? || w.Silence?)
    ensures PhaseLeft(WorkNext(s, h, w).handlers[h], fine) + Cost(Work(h, w), fine) <= PhaseLeft(s.handlers[h], fine)
  {
  }

  lemma DecideDrops(s: State, h: nat, verdict: Verdict, fine: bool)
    requires InvTiers(s) && h in s.handlers && s.handlers[h].phase.Routing?
    ensures PhaseLeft(DecideNext(s, h, verdict).handlers[h], fine) + Own(1, fine) <= PhaseLeft(s.handlers[h], fine)
  {
  }

  lemma WorkPays(s: State, h: nat, w: WorkStep, fine: bool)
    requires InvTiers(s) && InvClaims(s) && WorkEnabled(s, h, w)
    ensures Pays(s, Work(h, w), fine)
  {
    WorkMoves(s, h, w);
    match w {
      case Decide(_, verdict) => DecideDrops(s, h, verdict, fine);
      case Log(_) => LogDrops(s, h, w, fine);
      case Feed(_) => FeedDrops(s, h, w, fine);
      case Silence => FeedDrops(s, h, w, fine);
      case _ => BodyDrops(s, h, w, fine);
    }
    HandlerPays(s, WorkNext(s, h, w), h, fine, Cost(Work(h, w), fine));
  }

  lemma DsnDrops(s: State, h: nat, d: DsnStep, fine: bool)
    requires DsnEnabled(s, h, d)
    ensures var t := DsnNext(s, h, d);
            && t.handlers == s.handlers[h := t.handlers[h]] && t.copies == s.copies && t.subs == s.subs
            && PhaseLeft(t.handlers[h], fine) + Own(1, fine) <= PhaseLeft(s.handlers[h], fine)
  {
  }

  lemma DsnPays(s: State, h: nat, d: DsnStep, fine: bool)
    requires DsnEnabled(s, h, d)
    ensures Pays(s, Bounce(h, d), fine)
  {
    DsnDrops(s, h, d, fine);
    HandlerPays(s, DsnNext(s, h, d), h, fine, Own(1, fine));
  }

  lemma StartPays(s: State, c: nat, p: Phase, fine: bool)
    requires InvKeys(s) && c in s.copies
    requires PhaseLeft(Handler(c, s.copies[c].job, p), fine) + 1 <= CopyLeft(fine)(s.copies[c])
    ensures Left(Start(s, c, p), fine) + 1 <= Left(s, fine)
  {
    var t := Start(s, c, p);
    assert CopyLeft(fine)(t.copies[c]) == 0;
    Change(s.copies, c, t.copies[c], CopyLeft(fine));
    PutNew(s.handlers, s.next, t.handlers[s.next], HandlerLeft(fine));
  }

  lemma DeliveryCheaper(s: State, c: nat, b: BrokerStep, fine: bool)
    requires InvTiers(s) && BrokerEnabled(s, c, b) && (b.Deliver? || b.Receive?)
    ensures PhaseLeft(Handler(c, s.copies[c].job, if b.Deliver? then Fetching else Noting), fine) + 1
            <= CopyLeft(fine)(s.copies[c])
  {
  }

  lemma ExpiryPays(s: State, c: nat, fine: bool)
    requires InvTiers(s) && c in s.copies && s.copies[c].queue.Tier?
    ensures Left(BrokerNext(s, c, Expire), fine) + 1 <= Left(s, fine)
  {
    Change(s.copies, c, s.copies[c].(queue := WorkQueue), CopyLeft(fine));
  }

  lemma BrokerPays(s: State, c: nat, b: BrokerStep, fine: bool)
    requires InvKeys(s) && InvTiers(s) && BrokerEnabled(s, c, b) && !b.Requeue?
    ensures Pays(s, Broker(c, b), fine)
  {
    if b.Expire? {
      ExpiryPays(s, c, fine);
    } else {
      DeliveryCheaper(s, c, b, fine);
      StartPays(s, c, if b.Deliver? then Fetching else Noting, fine);
    }
  }

  lemma ReplacementCheaper(h: Handler, fine: bool)
    requires (h.phase.DeferLogged? || h.phase.FailLogged?) && h.job.attempt <= |TIERS|
    ensures CopyLeft(fine)(Replacement(h)) + PhaseLeft(h.(phase := Replaced), fine) + Own(1, fine) <= PhaseLeft(h, fine)
  {
    if h.job.attempt < |TIERS| {
      OneTierLess(h.job.attempt, h.job.sender == "", fine);
    }
  }

  lemma ReplacePays(s: State, h: nat, fine: bool)
    requires InvKeys(s) && InvTiers(s) && ReplaceEnabled(s, h)
    ensures Pays(s, Replace(h, true), fine)
  {
    var t := ReplaceNext(s, h, true);
    ReplacementCheaper(s.handlers[h], fine);
    PutNew(s.copies, s.next, Replacement(s.handlers[h]), CopyLeft(fine));
    Change(s.handlers, h, t.handlers[h], HandlerLeft(fine));
  }

  lemma NoticeCheaper(h: Handler, fine: bool)
    requires h.phase.DsnInserted?
    ensures CopyLeft(fine)(Copy(DsnJob(h.phase.dsn, h.job), WorkQueue, None))
            + PhaseLeft(h.(phase := DsnSent(h.phase.dsn)), fine) + Own(1, fine) <= PhaseLeft(h, fine)
  {
  }

  lemma NotifyPays(s: State, h: nat, fine: bool)
    requires InvKeys(s) && NotifyEnabled(s, h)
    ensures Pays(s, Notify(h, true), fine)
  {
    var t := NotifyNext(s, h, true);
    NoticeCheaper(s.handlers[h], fine);
    PutNew(s.copies, s.next, t.copies[s.next], CopyLeft(fine));
    Change(s.handlers, h, t.handlers[h], HandlerLeft(fine));
  }

  lemma AckCost(h: Handler, fine: bool)
    requires MayAck(h.phase)
    ensures PhaseLeft(h, fine) == Own(1, fine)
  {
  }

  lemma LeavingPays(s: State, t: State, h: nat, fine: bool)
    requires h in s.handlers && t.handlers == s.handlers - {h} && t.subs == s.subs
    requires t.copies == s.copies || (exists c :: c in s.copies && t.copies == s.copies - {c})
    ensures Left(t, fine) + PhaseLeft(s.handlers[h], fine) <= Left(s, fine)
  {
    TakeOut(s.handlers, h, HandlerLeft(fine));
    if t.copies != s.copies {
      var c :| c in s.copies && t.copies == s.copies - {c};
      TakeOut(s.copies, c, CopyLeft(fine));
    }
  }

  lemma AckPays(s: State, h: nat, fine: bool)
    requires ExitEnabled(s, h, Ack)
    ensures Pays(s, Exit(h, Ack), fine)
  {
    AckCost(s.handlers[h], fine);
    LeavingPays(s, ExitNext(s, h, Ack), h, fine);
  }

  lemma SubmitPays(s: State, id: Id, fine: bool)
    requires InvKeys(s) && SubmitEnabled(s, id)
    ensures Pays(s, Submit(id, true), fine)
  {
    var t := SubmitNext(s, id, true);
    PutNew(s.copies, s.next, t.copies[s.next], CopyLeft(fine));
    TakeOut(s.subs, id, SubWeight(fine));
    assert WorkLeft(0, true, fine) <= WorkLeft(0, false, fine);
  }

  lemma IngressPays(s: State, id: Id, i: IngressStep, fine: bool)
    requires InvIds(s) && IngressEnabled(s, id, i) && !i.Abandon?
    ensures Pays(s, Ingress(id, i), fine)
  {
    var t := IngressNext(s, id, i);
    if i.Open? {
      PerMessage();
      PutNew(s.subs, id, t.subs[id], SubWeight(fine));
    } else if i.RejectOversize? {
      TakeOut(s.subs, id, SubWeight(fine));
    } else {
      Change(s.subs, id, t.subs[id], SubWeight(fine));
    }
  }

  lemma StepPays(s: State, a: Action, fine: bool)
    requires Inv(s) && Enabled(s, a) && FaultFree(s, a)
    ensures Pays(s, a, fine)
  {
    match a {
      case Reload(_) =>
      case Ingress(id, i) => IngressPays(s, id, i, fine);
      case Submit(id, _) => SubmitPays(s, id, fine);
      case Broker(c, b) => BrokerPays(s, c, b, fine);
      case Work(h, w) => WorkPays(s, h, w, fine);
      case Replace(h, _) => ReplacePays(s, h, fine);
      case Bounce(h, d) => DsnPays(s, h, d, fine);
      case Notify(h, _) => NotifyPays(s, h, fine);
      case Exit(h, _) => AckPays(s, h, fine);
    }
  }

  /** Every action of the run is enabled and fault-free where it is taken. */
  ghost predicate RunsClean(s: State, acts: seq<Action>): (clean: bool)
    ensures clean ==> Runs(s, acts)
    decreases |acts|
  {
    acts == [] || (Enabled(s, acts[0]) && FaultFree(s, acts[0]) && RunsClean(Next(s, acts[0]), acts[1..]))
  }

  function Spent(acts: seq<Action>, fine: bool): nat
  {
    if acts == [] then 0 else Cost(acts[0], fine) + Spent(acts[1..], fine)
  }

  function Sessions(acts: seq<Action>): nat
  {
    if acts == [] then 0 else (if acts[0].Ingress? && acts[0].i.Open? then 1 else 0) + Sessions(acts[1..])
  }

  function Granted(acts: seq<Action>, fine: bool): nat
  {
    if acts == [] then 0
    else (if acts[0].Ingress? && acts[0].i.Open? then Budget(fine) else 0) + Granted(acts[1..], fine)
  }

  lemma {:induction false} RunPays(s: State, acts: seq<Action>, fine: bool)
    requires Inv(s) && RunsClean(s, acts)
    ensures Spent(acts, fine) <= Left(s, fine) + Granted(acts, fine)
    decreases |acts|
  {
    if acts != [] {
      StepPays(s, acts[0], fine);
      StepKeeps(s, acts[0]);
      RunPays(Next(s, acts[0]), acts[1..], fine);
    }
  }

  lemma {:induction false} GrantedPerSession(acts: seq<Action>)
    ensures Granted(acts, true) == 71 * Sessions(acts) && Granted(acts, false) == 16 * Sessions(acts)
  {
    if acts != [] {
      GrantedPerSession(acts[1..]);
    }
  }

  lemma NothingLeft(fine: bool)
    ensures Left(INITIAL, fine) == 0
  {
  }

  lemma ShortFrom(s: State, acts: seq<Action>)
    requires Inv(s) && Left(s, true) == 0 && Left(s, false) == 0 && RunsClean(s, acts)
    ensures Spent(acts, true) <= 71 * Sessions(acts)
    ensures Spent(acts, false) <= 16 * Sessions(acts)
  {
    GrantedPerSession(acts);
    RunPays(s, acts, true);
    RunPays(s, acts, false);
  }

  /** Without faults, n sessions, whatever recipients, verdicts and bounces they lead to, take at
      most 71 n effects and at most 16 n moves between queues. */
  lemma CleanRunsAreShort(s: State, acts: seq<Action>)
    requires s == INITIAL && RunsClean(s, acts)
    ensures Spent(acts, true) <= 71 * Sessions(acts)
    ensures Spent(acts, false) <= 16 * Sessions(acts)
  {
    InitialInv();
    NothingLeft(true);
    NothingLeft(false);
    ShortFrom(s, acts);
  }

  // ---- Agreement of the message table ----------------------------------------------------

  /** The event log of a message deferred n times so far. */
  function Trail(n: nat): seq<Status>
  {
    [Queued] + seq(n, _ => Deferred)
  }

  /** The log of a message that has reached the dead-letter queue at that attempt. */
  predicate DeadTrail(attempt: nat, events: seq<Status>)
  {
    events == Trail(attempt) + [Failed] || (attempt == |TIERS| + 1 && events == Trail(attempt))
  }

  /** The log that goes with a copy at rest, or held by a handler in the given phase. */
  predicate Expects(c: Copy, p: Option<Phase>, events: seq<Status>)
  {
    var n := c.job.attempt;
    match p
    case None => if c.queue.Dlq? then DeadTrail(n, events) else events == Trail(n)
    case Some(Fetching) => events == Trail(n)
    case Some(Routing) => events == Trail(n)
    case Some(Accepting) => events == Trail(n)
    case Some(RelayLogged) => events == Trail(n) + [Relayed]
    case Some(Cleaned) => events == Trail(n) + [Relayed]
    case Some(Deferring) => events == Trail(n)
    case Some(DeferLogged) => events == Trail(n + 1)
    case Some(Failing) => events == Trail(n)
    case Some(FailLogged) => events == Trail(n) + [Failed]
    case Some(Noting) => DeadTrail(n, events)
    case Some(Replaced) => true
    case Some(_) => events != [] && events[|events| - 1] == Bounced && DeadTrail(n, events[..|events| - 1])
  }

  /** The phases after the message's fate is sealed. */
  predicate Sealed(p: Option<Phase>)
  {
    p.Some? && (p.value.Accepting? || p.value.RelayLogged? || p.value.Cleaned?
                || p.value.Silent? || p.value.DsnSent? || p.value.Closed?)
  }

  function PhaseAt(s: State, c: nat): Option<Phase>
    requires c in s.copies
  {
    match s.copies[c].holder
    case None => None
    case Some(h) => if h in s.handlers then Some(s.handlers[h].phase) else None
  }

  /** Not merely waiting for its ack. */
  predicate Current(s: State, c: nat)
  {
    c in s.copies && (PhaseAt(s, c).Some? ==> !MayAck(PhaseAt(s, c).value))
  }

  /** Without faults every handler holds its copy and every held copy has its handler. */
  ghost predicate CleanHeld(s: State)
  {
    && (forall h :: h in s.handlers ==> Holds(s, h))
    && (forall c :: c in s.copies && s.copies[c].holder.Some? ==> s.copies[c].holder.value in s.handlers)
  }

  ghost predicate CleanUnique(s: State)
  {
    forall c, d :: Current(s, c) && Current(s, d) && s.copies[c].job.id == s.copies[d].job.id ==> c == d
  }

  predicate Tells(s: State, c: nat)
    requires c in s.copies
  {
    var id := s.copies[c].job.id;
    id in s.rows && Expects(s.copies[c], PhaseAt(s, c), s.rows[id].events)
    && (Settled(s, id) <==> Sealed(PhaseAt(s, c)))
  }

  ghost predicate CleanAgree(s: State)
  {
    forall c :: Current(s, c) ==> Tells(s, c)
  }

  /** The message is over, and its row says how. */
  predicate Over(s: State, id: Id)
  {
    && Settled(s, id) && id in s.rows && s.rows[id].events != []
    && var last := s.rows[id].events[|s.rows[id].events| - 1];
       (last == Relayed && id in s.relayed) || (last == Bounced && (id in s.silenced || id in s.bounced))
  }

  ghost predicate HasCurrent(s: State, id: Id)
  {
    exists c :: Current(s, c) && s.copies[c].job.id == id
  }

  ghost predicate CleanGone(s: State)
  {
    forall id :: id in s.published ==> HasCurrent(s, id) || Over(s, id)
  }

  ghost predicate CleanFresh(s: State)
  {
    && (forall id :: id in s.subs && s.subs[id].phase.Inserted? ==>
          id !in s.published && id in s.rows && s.rows[id].events == [Queued])
    && (forall h :: h in s.handlers && s.handlers[h].phase.DsnInserted? ==>
          var d := s.handlers[h].phase.dsn; d !in s.published && d in s.rows && s.rows[d].events == [Queued])
  }

  ghost predicate Clean(s: State)
  {
    CleanHeld(s) && CleanUnique(s) && CleanAgree(s) && CleanGone(s) && CleanFresh(s)
  }

  // ---- Its preservation ------------------------------------------------------------------

  /** The copy looks the same from outside. */
  ghost predicate Same(s: State, t: State, c: nat)
  {
    && c in s.copies && c in t.copies && t.copies[c].job == s.copies[c].job
    && t.copies[c].queue.Dlq? == s.copies[c].queue.Dlq? && PhaseAt(t, c) == PhaseAt(s, c)
  }

  /** Histories, rows and fates of messages outside the set are unchanged. */
  ghost predicate TableElsewhere(s: State, t: State, ids: set<Id>)
  {
    && (forall id :: id in t.published && id !in ids ==> id in s.published)
    && (forall id :: id in s.rows && id !in ids ==> id in t.rows && t.rows[id] == s.rows[id])
    && (forall id :: id !in ids ==> Settled(s, id) == Settled(t, id))
    && (forall id :: id !in ids && Over(s, id) ==> Over(t, id))
  }

  /** Nothing changes for messages outside the set. */
  ghost predicate Elsewhere(s: State, t: State, ids: set<Id>)
  {
    && (forall c :: c in t.copies && t.copies[c].job.id !in ids ==> Same(s, t, c))
    && (forall c :: c in s.copies && s.copies[c].job.id !in ids ==> Same(s, t, c))
    && TableElsewhere(s, t, ids)
  }

  /** Copies other than c and handlers other than h are untouched, and h holds none of those copies. */
  ghost predicate Apart(s: State, t: State, c: nat, h: nat)
  {
    && (forall d :: d in s.copies && d != c ==>
          d in t.copies && t.copies[d] == s.copies[d] && s.copies[d].holder != Some(h))
    && (forall g :: g in s.handlers && g != h ==> g in t.handlers && t.handlers[g] == s.handlers[g])
    && (forall g :: g in t.handlers && g != h ==> g in s.handlers)
  }

  lemma OthersSame(s: State, t: State, c: nat, h: nat)
    requires Apart(s, t, c, h)
    ensures forall d :: d in s.copies && d != c ==> Same(s, t, d)
  {
  }

  lemma TableKept(s: State, t: State, ids: set<Id>)
    requires t.rows == s.rows && t.relayed == s.relayed && t.silenced == s.silenced
    requires forall id :: id !in ids ==> (id in t.bounced <==> id in s.bounced)
    requires forall id :: id in t.published && id !in ids ==> id in s.published
    ensures TableElsewhere(s, t, ids)
  {
  }

  /** Everything about messages outside the set is elsewhere than copy c, handler h and the new copies. */
  lemma KeptElsewhere(s: State, t: State, c: nat, h: nat, ids: set<Id>)
    requires Apart(s, t, c, h) && TableElsewhere(s, t, ids)
    requires c in s.copies ==> s.copies[c].job.id in ids
    requires c in t.copies ==> t.copies[c].job.id in ids
    requires forall d :: d in t.copies && d !in s.copies ==> t.copies[d].job.id in ids
    ensures Elsewhere(s, t, ids)
    ensures forall d :: d in s.copies && d != c ==> Same(s, t, d)
  {
    OthersSame(s, t, c, h);
  }

  /** Messages in the set have at most one current copy, which tells the truth, or are over. */
  ghost predicate Here(t: State, ids: set<Id>)
  {
    && (forall c :: Current(t, c) && t.copies[c].job.id in ids ==> Tells(t, c))
    && (forall c, d :: Current(t, c) && Current(t, d) && t.copies[c].job.id in ids
          && t.copies[c].job.id == t.copies[d].job.id
          ==> c == d)
    && (forall id :: id in t.published && id in ids ==> HasCurrent(t, id) || Over(t, id))
  }

  ghost predicate CleanTold(s: State)
  {
    CleanUnique(s) && CleanAgree(s) && CleanGone(s)
  }

  lemma Combine(s: State, t: State, ids: set<Id>)
    requires CleanTold(s) && Elsewhere(s, t, ids) && Here(t, ids)
    ensures CleanTold(t)
  {
    forall id | id in t.published && id !in ids
      ensures HasCurrent(t, id) || Over(t, id)
    {
      if HasCurrent(s, id) {
        var c :| Current(s, c) && s.copies[c].job.id == id;
        assert Same(s, t, c) && Current(t, c);
      }
    }
    forall c | Current(t, c)
      ensures Tells(t, c)
    {
      if t.copies[c].job.id !in ids {
        assert Same(s, t, c) && Current(s, c) && Tells(s, c);
      }
    }
    forall c, d | Current(t, c) && Current(t, d) && t.copies[c].job.id == t.copies[d].job.id
      ensures c == d
    {
      if t.copies[c].job.id !in ids {
        assert Same(s, t, c) && Same(s, t, d) && Current(s, c) && Current(s, d);
      }
    }
  }

  lemma IngressTable(s: State, id: Id, i: IngressStep)
    requires IngressEnabled(s, id, i)
    ensures TableElsewhere(s, IngressNext(s, id, i), {})
  {
  }

  lemma IngressElsewhere(s: State, id: Id, i: IngressStep)
    requires IngressEnabled(s, id, i)
    ensures Elsewhere(s, IngressNext(s, id, i), {})
  {
    IngressTable(s, id, i);
  }

  lemma ToldIngress(s: State, id: Id, i: IngressStep)
    requires CleanTold(s) && IngressEnabled(s, id, i)
    ensures CleanTold(IngressNext(s, id, i))
  {
    IngressElsewhere(s, id, i);
    Combine(s, IngressNext(s, id, i), {});
  }

  lemma SubmitElsewhere(s: State, id: Id)
    requires InvKeys(s) && id in s.subs
    ensures Elsewhere(s, SubmitNext(s, id, true), {id})
  {
    var t := SubmitNext(s, id, true);
    TableKept(s, t, {id});
    KeptElsewhere(s, t, s.next, s.next, {id});
  }

  lemma SubmitHere(s: State, id: Id)
    requires InvKeys(s) && InvJobs(s) && CleanFresh(s) && SubmitEnabled(s, id)
    ensures Here(SubmitNext(s, id, true), {id})
  {
    var t := SubmitNext(s, id, true);
    var c := s.next;
    assert forall d :: d in t.copies && t.copies[d].job.id == id ==> d == c;
    assert t.copies[c] == Copy(JobOf(id, s.subs[id]), WorkQueue, None);
    assert Trail(0) == [Queued];
    assert Current(t, c) && Tells(t, c);
  }

  lemma ToldSubmit(s: State, id: Id)
    requires InvKeys(s) && InvJobs(s) && InvIds(s) && CleanTold(s) && CleanFresh(s) && SubmitEnabled(s, id)
    ensures CleanTold(SubmitNext(s, id, true))
  {
    var t := SubmitNext(s, id, true);
    SubmitElsewhere(s, id);
    SubmitHere(s, id);
    Combine(s, t, {id});
  }

  lemma BrokerApart(s: State, c: nat, b: BrokerStep)
    requires InvKeys(s) && BrokerEnabled(s, c, b)
    ensures Apart(s, BrokerNext(s, c, b), c, s.next) && BrokerNext(s, c, b).copies.Keys == s.copies.Keys
    ensures BrokerNext(s, c, b).copies[c].job == s.copies[c].job
  {
  }

  lemma BrokerElsewhere(s: State, c: nat, b: BrokerStep)
    requires InvKeys(s) && BrokerEnabled(s, c, b)
    ensures Elsewhere(s, BrokerNext(s, c, b), {s.copies[c].job.id})
    ensures forall d :: d in s.copies && d != c ==> Same(s, BrokerNext(s, c, b), d)
    ensures BrokerNext(s, c, b).copies.Keys == s.copies.Keys
  {
    var t := BrokerNext(s, c, b);
    TableKept(s, t, {s.copies[c].job.id});
    BrokerApart(s, c, b);
    KeptElsewhere(s, t, c, s.next, {s.copies[c].job.id});
  }

  lemma BrokerTells(s: State, c: nat, b: BrokerStep)
    requires InvKeys(s) && InvTiers(s) && BrokerEnabled(s, c, b) && !b.Requeue? && Tells(s, c)
    ensures Current(BrokerNext(s, c, b), c) && Tells(BrokerNext(s, c, b), c)
    ensures BrokerNext(s, c, b).copies[c].job == s.copies[c].job
  {
  }

  lemma OneHere(t: State, c: nat, x: Id)
    requires Current(t, c) && Tells(t, c) && t.copies[c].job.id == x
    requires forall d :: Current(t, d) && t.copies[d].job.id == x ==> d == c
    ensures Here(t, {x})
  {
  }

  lemma BrokerHere(s: State, c: nat, b: BrokerStep)
    requires InvKeys(s) && InvTiers(s) && CleanTold(s) && BrokerEnabled(s, c, b) && !b.Requeue?
    ensures Here(BrokerNext(s, c, b), {s.copies[c].job.id})
  {
    var t := BrokerNext(s, c, b);
    BrokerElsewhere(s, c, b);
    assert Current(s, c) && Tells(s, c);
    BrokerTells(s, c, b);
    forall d | Current(t, d) && t.copies[d].job.id == s.copies[c].job.id
      ensures d == c
    {
      assert d != c ==> Same(s, t, d) && Current(s, d);
    }
    OneHere(t, c, s.copies[c].job.id);
  }

  lemma ToldBroker(s: State, c: nat, b: BrokerStep)
    requires InvKeys(s) && InvTiers(s) && CleanTold(s) && BrokerEnabled(s, c, b) && !b.Requeue?
    ensures CleanTold(BrokerNext(s, c, b))
  {
    var t := BrokerNext(s, c, b);
    var id := s.copies[c].job.id;
    BrokerElsewhere(s, c, b);
    BrokerHere(s, c, b);
    Combine(s, t, {id});
  }

  /** One handler moved on; the copies stayed. */
  ghost predicate PhaseOnly(s: State, t: State, h: nat)
  {
    && h in s.handlers && h in t.handlers && t.handlers == s.handlers[h := t.handlers[h]]
    && t.copies == s.copies && t.published == s.published
    && (forall id :: id in s.rows && id != s.handlers[h].job.id ==> id in t.rows && t.rows[id] == s.rows[id])
    && (forall id :: id != s.handlers[h].job.id ==> Settled(s, id) == Settled(t, id))
    && (forall id :: id != s.handlers[h].job.id && Over(s, id) ==> Over(t, id))
  }

  lemma PhaseElsewhere(s: State, t: State, h: nat)
    requires InvHolders(s) && PhaseOnly(s, t, h)
    ensures Elsewhere(s, t, {s.handlers[h].job.id})
    ensures forall d :: d in s.copies && d != s.handlers[h].copy ==> Same(s, t, d)
  {
    forall d | d in s.copies && (d != s.handlers[h].copy || s.copies[d].job != s.handlers[h].job)
      ensures Same(s, t, d)
    {
      assert s.copies[d].holder != Some(h);
    }
  }

  /** The handler's copy stays current and true. */
  lemma PhaseTold(s: State, t: State, h: nat)
    requires InvHolders(s) && InvJobs(s) && CleanHeld(s) && CleanTold(s) && PhaseOnly(s, t, h)
    requires !MayAck(s.handlers[h].phase) && !MayAck(t.handlers[h].phase)
    requires Tells(s, s.handlers[h].copy) ==> Tells(t, s.handlers[h].copy)
    ensures CleanTold(t)
  {
    var c, x := s.handlers[h].copy, s.handlers[h].job.id;
    assert Holds(s, h) && s.copies[c].job.id == x;
    PhaseElsewhere(s, t, h);
    assert Current(s, c) && Current(t, c);
    forall d | Current(t, d) && t.copies[d].job.id == x
      ensures d == c
    {
      assert d != c ==> Same(s, t, d) && Current(s, d);
    }
    Combine(s, t, {x});
  }

  /** The handler's copy is done with, and so is its message. */
  lemma PhaseOver(s: State, t: State, h: nat)
    requires InvHolders(s) && InvJobs(s) && CleanHeld(s) && CleanTold(s) && PhaseOnly(s, t, h)
    requires !MayAck(s.handlers[h].phase) && MayAck(t.handlers[h].phase) && Over(t, s.handlers[h].job.id)
    ensures CleanTold(t)
  {
    var c, x := s.handlers[h].copy, s.handlers[h].job.id;
    assert Holds(s, h) && s.copies[c].job.id == x;
    PhaseElsewhere(s, t, h);
    assert Current(s, c) && !Current(t, c);
    forall d | Current(t, d)
      ensures t.copies[d].job.id != x
    {
      assert d != c ==> Same(s, t, d) && Current(s, d);
    }
    Combine(s, t, {x});
  }

  lemma TrailGrows(n: nat)
    ensures Trail(n + 1) == Trail(n) + [Deferred]
  {
  }

  /** The log of a phase that records, with its event, is the log of the phase after it. */
  lemma LogExpects(c: Copy, p: Phase, events: seq<Status>)
    requires Logs(p) && Expects(c, Some(p), events)
    ensures Expects(c, Some(AfterLog(p)), events + [LogStatus(p)])
    ensures Sealed(Some(p)) == Sealed(Some(AfterLog(p)))
  {
    TrailGrows(c.job.attempt);
    assert (events + [Bounced])[..|events|] == events;
  }

  lemma LogTells(s: State, h: nat, w: WorkStep)
    requires Holds(s, h) && s.copies[s.handlers[h].copy].job == s.handlers[h].job
    requires WorkEnabled(s, h, w) && w.Log? && w.committed && Tells(s, s.handlers[h].copy)
    ensures Tells(WorkNext(s, h, w), s.handlers[h].copy)
  {
    var hd := s.handlers[h];
    LogExpects(s.copies[hd.copy], hd.phase, s.rows[hd.job.id].events);
  }

  lemma DecideTells(s: State, h: nat, verdict: Verdict)
    requires Holds(s, h) && s.copies[s.handlers[h].copy].job == s.handlers[h].job
    requires s.handlers[h].phase.Routing? && Tells(s, s.handlers[h].copy)
    ensures Tells(DecideNext(s, h, verdict), s.handlers[h].copy)
  {
  }

  lemma OtherTells(s: State, h: nat, w: WorkStep)
    requires Holds(s, h) && s.copies[s.handlers[h].copy].job == s.handlers[h].job
    requires WorkEnabled(s, h, w) && (w.Fetch? || w.Feed? || w.Silence?) && Tells(s, s.handlers[h].copy)
    ensures Tells(WorkNext(s, h, w), s.handlers[h].copy)
  {
  }

  lemma DropOver(s: State, h: nat, w: WorkStep)
    requires Holds(s, h) && s.copies[s.handlers[h].copy].job == s.handlers[h].job
    requires InvClaims(s) && WorkEnabled(s, h, w) && w.DropBody? && Tells(s, s.handlers[h].copy)
    ensures Over(WorkNext(s, h, w), s.handlers[h].job.id)
  {
    assert Claim(s, s.handlers[h]);
  }

  lemma WorkRows(s: State, h: nat, w: WorkStep)
    requires WorkEnabled(s, h, w)
    ensures forall id :: id in s.rows && id != s.handlers[h].job.id ==>
              id in WorkNext(s, h, w).rows && WorkNext(s, h, w).rows[id] == s.rows[id]
  {
  }

  lemma MovedPhaseOnly(s: State, t: State, h: nat)
    requires Moved(s, t, h)
    requires forall id :: id in s.rows && id != s.handlers[h].job.id ==> id in t.rows && t.rows[id] == s.rows[id]
    ensures PhaseOnly(s, t, h)
  {
  }

  lemma WorkPhaseOnly(s: State, h: nat, w: WorkStep)
    requires InvClaims(s) && WorkEnabled(s, h, w)
    ensures PhaseOnly(s, WorkNext(s, h, w), h)
  {
    WorkMoves(s, h, w);
    WorkRows(s, h, w);
    MovedPhaseOnly(s, WorkNext(s, h, w), h);
  }

  lemma WorkTells(s: State, h: nat, w: WorkStep)
    requires InvTiers(s) && Holds(s, h) && s.copies[s.handlers[h].copy].job == s.handlers[h].job
    requires WorkEnabled(s, h, w) && FaultFree(s, Work(h, w)) && !w.DropBody? && Tells(s, s.handlers[h].copy)
    ensures Tells(WorkNext(s, h, w), s.handlers[h].copy)
  {
    match w {
      case Decide(_, verdict) => DecideTells(s, h, verdict);
      case Log(_) => LogTells(s, h, w);
      case _ => OtherTells(s, h, w);
    }
  }

  lemma DecidingAcksNothing(s: State, h: nat, verdict: Verdict)
    requires h in s.handlers
    ensures !MayAck(DecideNext(s, h, verdict).handlers[h].phase)
  {
  }

  lemma WorkAcks(s: State, h: nat, w: WorkStep)
    requires WorkEnabled(s, h, w)
    ensures !MayAck(s.handlers[h].phase) && (MayAck(WorkNext(s, h, w).handlers[h].phase) <==> w.DropBody?)
  {
    match w {
      case Decide(_, verdict) => DecidingAcksNothing(s, h, verdict);
      case _ =>
    }
  }

  lemma ToldWork(s: State, h: nat, w: WorkStep)
    requires InvHolders(s) && InvTiers(s) && InvJobs(s) && InvClaims(s) && CleanHeld(s) && CleanTold(s)
    requires WorkEnabled(s, h, w) && FaultFree(s, Work(h, w))
    ensures CleanTold(WorkNext(s, h, w))
  {
    var t, c := WorkNext(s, h, w), s.handlers[h].copy;
    WorkPhaseOnly(s, h, w);
    WorkAcks(s, h, w);
    assert Holds(s, h);
    assert Current(s, c) && Tells(s, c);
    if w.DropBody? {
      DropOver(s, h, w);
      PhaseOver(s, t, h);
    } else {
      WorkTells(s, h, w);
      PhaseTold(s, t, h);
    }
  }

  lemma DsnPhaseOnly(s: State, h: nat, d: DsnStep)
    requires DsnEnabled(s, h, d)
    ensures PhaseOnly(s, DsnNext(s, h, d), h)
  {
  }

  lemma DsnTells(s: State, h: nat, d: DsnStep)
    requires Holds(s, h) && s.copies[s.handlers[h].copy].job == s.handlers[h].job
    requires DsnEnabled(s, h, d) && Tells(s, s.handlers[h].copy)
    ensures Tells(DsnNext(s, h, d), s.handlers[h].copy)
  {
  }

  lemma ToldDsn(s: State, h: nat, d: DsnStep)
    requires InvHolders(s) && InvJobs(s) && CleanHeld(s) && CleanTold(s) && DsnEnabled(s, h, d)
    ensures CleanTold(DsnNext(s, h, d))
  {
    assert Holds(s, h);
    assert Current(s, s.handlers[h].copy) && Tells(s, s.handlers[h].copy);
    DsnPhaseOnly(s, h, d);
    DsnTells(s, h, d);
    PhaseTold(s, DsnNext(s, h, d), h);
  }

  /** The message and the DSN about it. */
  function Both(s: State, h: nat): set<Id>
    requires NotifyEnabled(s, h)
  {
    {s.handlers[h].job.id, s.handlers[h].phase.dsn}
  }

  /** A handler holds at most the copy it was given. */
  lemma HoldsOne(s: State, h: nat)
    requires InvHolders(s) && Holds(s, h)
    ensures s.copies[s.handlers[h].copy].job == s.handlers[h].job
    ensures forall d :: d in s.copies && d != s.handlers[h].copy ==> s.copies[d].holder != Some(h)
  {
  }

  lemma NotifyElsewhere(s: State, h: nat)
    requires InvKeys(s) && InvHolders(s) && Holds(s, h) && NotifyEnabled(s, h)
    ensures Elsewhere(s, NotifyNext(s, h, true), Both(s, h))
    ensures forall d :: d in s.copies && d != s.handlers[h].copy ==> Same(s, NotifyNext(s, h, true), d)
  {
    var t := NotifyNext(s, h, true);
    NotifyNotifies(s, h, true);
    TableKept(s, t, Both(s, h));
    HoldsOne(s, h);
    KeptElsewhere(s, t, s.handlers[h].copy, h, Both(s, h));
  }

  lemma NotifyTellsOld(s: State, h: nat)
    requires InvKeys(s) && Holds(s, h) && NotifyEnabled(s, h) && Tells(s, s.handlers[h].copy)
    requires s.copies[s.handlers[h].copy].job == s.handlers[h].job
    ensures Current(NotifyNext(s, h, true), s.handlers[h].copy) && Tells(NotifyNext(s, h, true), s.handlers[h].copy)
  {
  }

  lemma NotifyTellsNew(s: State, h: nat)
    requires InvJobs(s) && CleanFresh(s) && NotifyEnabled(s, h)
    ensures Current(NotifyNext(s, h, true), s.next) && Tells(NotifyNext(s, h, true), s.next)
    ensures NotifyNext(s, h, true).copies
            == s.copies[s.next := Copy(DsnJob(s.handlers[h].phase.dsn, s.handlers[h].job), WorkQueue, None)]
  {
    assert Trail(0) == [Queued];
    assert Known(s, s.handlers[h].job);
    assert PhaseAt(NotifyNext(s, h, true), s.next) == None;
  }

  /** After the publish the reported message has its old copy and the DSN its new one. */
  lemma NotifyOnly(s: State, h: nat, d: nat)
    requires InvKeys(s) && InvHolders(s) && InvJobs(s) && Holds(s, h) && CleanUnique(s) && CleanFresh(s)
    requires NotifyEnabled(s, h) && Current(s, s.handlers[h].copy)
    requires Current(NotifyNext(s, h, true), d) && d != s.next
    ensures NotifyNext(s, h, true).copies[d].job.id != s.handlers[h].phase.dsn
    ensures NotifyNext(s, h, true).copies[d].job.id == s.handlers[h].job.id ==> d == s.handlers[h].copy
  {
    NotifyElsewhere(s, h);
    if d != s.handlers[h].copy {
      assert Same(s, NotifyNext(s, h, true), d) && Current(s, d);
    }
    assert Known(s, s.copies[d].job);
  }

  lemma TwoHere(t: State, x: Id, c: nat, y: Id, d: nat)
    requires Current(t, c) && Tells(t, c) && t.copies[c].job.id == x
    requires Current(t, d) && Tells(t, d) && t.copies[d].job.id == y && x != y
    requires forall e :: Current(t, e) && t.copies[e].job.id in {x, y} ==> e == c || e == d
    ensures Here(t, {x, y})
  {
  }

  lemma NotifyTwo(s: State, h: nat)
    requires NotifyEnabled(s, h) && Holds(s, h) && Current(s, s.handlers[h].copy)
    requires InvKeys(s) && InvHolders(s) && InvJobs(s) && CleanUnique(s) && CleanFresh(s)
    ensures forall d :: Current(NotifyNext(s, h, true), d) && NotifyNext(s, h, true).copies[d].job.id in Both(s, h) ==>
              d == s.handlers[h].copy || d == s.next
  {
    forall d | Current(NotifyNext(s, h, true), d) && d != s.next && d != s.handlers[h].copy
      ensures NotifyNext(s, h, true).copies[d].job.id !in Both(s, h)
    {
      NotifyOnly(s, h, d);
    }
  }

  lemma NotifyHere(s: State, h: nat)
    requires NotifyEnabled(s, h) && Holds(s, h)
    requires InvKeys(s) && InvHolders(s) && InvJobs(s) && CleanTold(s) && CleanFresh(s)
    ensures Here(NotifyNext(s, h, true), Both(s, h))
  {
    var t, c := NotifyNext(s, h, true), s.handlers[h].copy;
    assert Known(s, s.handlers[h].job);
    assert Current(s, c) && Tells(s, c);
    HoldsOne(s, h);
    NotifyTellsOld(s, h);
    NotifyTellsNew(s, h);
    NotifyTwo(s, h);
    TwoHere(t, s.handlers[h].job.id, c, s.handlers[h].phase.dsn, s.next);
  }

  lemma ToldNotify(s: State, h: nat)
    requires NotifyEnabled(s, h)
    requires InvKeys(s) && InvHolders(s) && InvJobs(s) && CleanHeld(s) && CleanTold(s) && CleanFresh(s)
    ensures CleanTold(NotifyNext(s, h, true))
  {
    assert Holds(s, h);
    NotifyElsewhere(s, h);
    NotifyHere(s, h);
    Combine(s, NotifyNext(s, h, true), Both(s, h));
  }

  lemma ReplaceElsewhere(s: State, h: nat)
    requires InvKeys(s) && InvHolders(s) && Holds(s, h) && ReplaceEnabled(s, h)
    ensures Elsewhere(s, ReplaceNext(s, h, true), {s.handlers[h].job.id})
    ensures forall d :: d in s.copies && d != s.handlers[h].copy ==> Same(s, ReplaceNext(s, h, true), d)
    ensures !Current(ReplaceNext(s, h, true), s.handlers[h].copy)
  {
    var t, x := ReplaceNext(s, h, true), s.handlers[h].job.id;
    ReplaceSupersedes(s, h, true);
    TableKept(s, t, {x});
    HoldsOne(s, h);
    KeptElsewhere(s, t, s.handlers[h].copy, h, {x});
  }

  lemma ReplaceTells(s: State, h: nat)
    requires InvTiers(s) && Holds(s, h) && s.copies[s.handlers[h].copy].job == s.handlers[h].job
    requires ReplaceEnabled(s, h) && Tells(s, s.handlers[h].copy) && s.next !in s.copies
    ensures Current(ReplaceNext(s, h, true), s.next) && Tells(ReplaceNext(s, h, true), s.next)
    ensures ReplaceNext(s, h, true).copies[s.next].job.id == s.handlers[h].job.id
  {
    TrailGrows(s.handlers[h].job.attempt);
    assert ReplaceNext(s, h, true).copies[s.next] == Replacement(s.handlers[h]);
  }

  lemma ReplacedAlone(s: State, t: State, c: nat, d: nat)
    requires CleanUnique(s) && Current(s, c) && !Current(t, c) && Current(t, d) && d in s.copies
    requires forall e :: e in s.copies && e != c ==> Same(s, t, e)
    ensures t.copies[d].job.id != s.copies[c].job.id
  {
    assert d != c && Same(s, t, d) && Current(s, d);
  }

  lemma ReplaceHere(s: State, h: nat)
    requires InvKeys(s) && InvHolders(s) && InvTiers(s) && CleanHeld(s) && CleanTold(s) && ReplaceEnabled(s, h)
    ensures Here(ReplaceNext(s, h, true), {s.handlers[h].job.id})
  {
    var t, c, x := ReplaceNext(s, h, true), s.handlers[h].copy, s.handlers[h].job.id;
    assert Holds(s, h);
    HoldsOne(s, h);
    assert Current(s, c) && Tells(s, c);
    ReplaceElsewhere(s, h);
    ReplaceTells(s, h);
    forall d | Current(t, d) && t.copies[d].job.id == x
      ensures d == s.next
    {
      if d != s.next {
        ReplacedAlone(s, t, c, d);
      }
    }
    OneHere(t, s.next, x);
  }

  lemma ToldReplace(s: State, h: nat)
    requires InvKeys(s) && InvHolders(s) && InvTiers(s) && CleanHeld(s) && CleanTold(s) && ReplaceEnabled(s, h)
    ensures CleanTold(ReplaceNext(s, h, true))
  {
    assert Holds(s, h);
    ReplaceElsewhere(s, h);
    ReplaceHere(s, h);
    Combine(s, ReplaceNext(s, h, true), {s.handlers[h].job.id});
  }

  lemma AckElsewhere(s: State, h: nat)
    requires InvHolders(s) && CleanHeld(s) && ExitEnabled(s, h, Ack)
    ensures Elsewhere(s, ExitNext(s, h, Ack), {s.handlers[h].job.id})
    ensures forall d :: d in s.copies && d != s.handlers[h].copy ==> Same(s, ExitNext(s, h, Ack), d)
    ensures ExitNext(s, h, Ack).copies == s.copies - {s.handlers[h].copy}
  {
    var t, x := ExitNext(s, h, Ack), s.handlers[h].job.id;
    assert Holds(s, h);
    ExitExits(s, h, Ack);
    TableKept(s, t, {x});
    HoldsOne(s, h);
    KeptElsewhere(s, t, s.handlers[h].copy, h, {x});
  }

  /** Removing a copy that was not current changes nothing of what is told. */
  lemma GoneHere(s: State, t: State, c: nat)
    requires CleanTold(s) && c in s.copies && !Current(s, c) && t.copies == s.copies - {c}
    requires t.rows == s.rows && t.published == s.published
    requires t.relayed == s.relayed && t.silenced == s.silenced && t.bounced == s.bounced
    requires forall d :: d in s.copies && d != c ==> Same(s, t, d)
    ensures Here(t, {s.copies[c].job.id})
  {
    var x := s.copies[c].job.id;
    forall d | Current(t, d)
      ensures Current(s, d) && (Tells(s, d) ==> Tells(t, d))
    {
      assert Same(s, t, d);
    }
    if HasCurrent(s, x) {
      var d :| Current(s, d) && s.copies[d].job.id == x;
      assert Same(s, t, d) && Current(t, d);
    }
    assert Over(s, x) ==> Over(t, x);
  }

  lemma ToldAck(s: State, h: nat)
    requires InvHolders(s) && CleanHeld(s) && CleanTold(s) && ExitEnabled(s, h, Ack)
    ensures CleanTold(ExitNext(s, h, Ack))
  {
    var t, c := ExitNext(s, h, Ack), s.handlers[h].copy;
    assert Holds(s, h);
    HoldsOne(s, h);
    assert !Current(s, c);
    AckElsewhere(s, h);
    ExitExits(s, h, Ack);
    GoneHere(s, t, c);
    Combine(s, t, {s.handlers[h].job.id});
  }

  lemma HeldIngress(s: State, id: Id, i: IngressStep)
    requires CleanHeld(s) && IngressEnabled(s, id, i)
    ensures CleanHeld(IngressNext(s, id, i))
  {
  }

  lemma HeldSubmit(s: State, id: Id)
    requires InvKeys(s) && CleanHeld(s) && id in s.subs
    ensures CleanHeld(SubmitNext(s, id, true))
  {
  }

  lemma HeldBroker(s: State, c: nat, b: BrokerStep)
    requires InvKeys(s) && InvTiers(s) && CleanHeld(s) && BrokerEnabled(s, c, b) && !b.Requeue?
    ensures CleanHeld(BrokerNext(s, c, b))
  {
  }

  lemma HeldReplace(s: State, h: nat)
    requires InvKeys(s) && CleanHeld(s) && h in s.handlers
    ensures CleanHeld(ReplaceNext(s, h, true))
  {
  }

  lemma HeldDsn(s: State, h: nat, d: DsnStep)
    requires CleanHeld(s) && DsnEnabled(s, h, d)
    ensures CleanHeld(DsnNext(s, h, d))
  {
  }

  lemma HeldNotify(s: State, h: nat)
    requires InvKeys(s) && CleanHeld(s) && NotifyEnabled(s, h)
    ensures CleanHeld(NotifyNext(s, h, true))
  {
  }

  lemma HeldAck(s: State, h: nat)
    requires InvHolders(s) && CleanHeld(s) && ExitEnabled(s, h, Ack)
    ensures CleanHeld(ExitNext(s, h, Ack))
  {
  }

  lemma HeldWork(s: State, h: nat, w: WorkStep)
    requires InvClaims(s) && CleanHeld(s) && WorkEnabled(s, h, w)
    ensures CleanHeld(WorkNext(s, h, w))
  {
    WorkMoves(s, h, w);
  }

  lemma FreshIngress(s: State, id: Id, i: IngressStep)
    requires InvIds(s) && CleanFresh(s) && IngressEnabled(s, id, i)
    ensures CleanFresh(IngressNext(s, id, i))
  {
  }

  lemma FreshSubmit(s: State, id: Id)
    requires InvIds(s) && CleanFresh(s) && id in s.subs
    ensures CleanFresh(SubmitNext(s, id, true))
  {
  }

  lemma FreshBroker(s: State, c: nat, b: BrokerStep)
    requires CleanFresh(s) && BrokerEnabled(s, c, b)
    ensures CleanFresh(BrokerNext(s, c, b))
  {
  }

  lemma FreshWork(s: State, h: nat, w: WorkStep)
    requires InvIds(s) && InvJobs(s) && InvClaims(s) && CleanFresh(s) && WorkEnabled(s, h, w)
    ensures CleanFresh(WorkNext(s, h, w))
  {
    WorkMoves(s, h, w);
    WorkPhaseOnly(s, h, w);
    assert Known(s, s.handlers[h].job);
  }

  lemma FreshReplace(s: State, h: nat)
    requires CleanFresh(s) && h in s.handlers
    ensures CleanFresh(ReplaceNext(s, h, true))
  {
  }

  lemma FreshDsn(s: State, h: nat, d: DsnStep)
    requires InvIds(s) && CleanFresh(s) && DsnEnabled(s, h, d)
    ensures CleanFresh(DsnNext(s, h, d))
  {
  }

  lemma FreshNotify(s: State, h: nat)
    requires InvIds(s) && CleanFresh(s) && NotifyEnabled(s, h)
    ensures CleanFresh(NotifyNext(s, h, true))
  {
  }

  lemma FreshAck(s: State, h: nat)
    requires CleanFresh(s) && ExitEnabled(s, h, Ack)
    ensures CleanFresh(ExitNext(s, h, Ack))
  {
  }

  lemma ReloadElsewhere(s: State, addresses: set<string>)
    ensures Elsewhere(s, s.(policy := addresses), {}) && Here(s.(policy := addresses), {})
  {
  }

  lemma ReloadTold(s: State, a: Action)
    requires CleanHeld(s) && CleanTold(s) && CleanFresh(s) && a.Reload?
    ensures Clean(Next(s, a))
  {
    ReloadElsewhere(s, a.addresses);
    Combine(s, Next(s, a), {});
  }

  lemma StepClean(s: State, a: Action)
    requires Inv(s) && Clean(s) && Enabled(s, a) && FaultFree(s, a)
    ensures Clean(Next(s, a))
  {
    match a {
      case Reload(_) => ReloadTold(s, a);
      case Ingress(id, i) => HeldIngress(s, id, i); ToldIngress(s, id, i); FreshIngress(s, id, i);
      case Submit(id, _) => HeldSubmit(s, id); ToldSubmit(s, id); FreshSubmit(s, id);
      case Broker(c, b) => HeldBroker(s, c, b); ToldBroker(s, c, b); FreshBroker(s, c, b);
      case Work(h, w) => HeldWork(s, h, w); ToldWork(s, h, w); FreshWork(s, h, w);
      case Replace(h, _) => HeldReplace(s, h); ToldReplace(s, h); FreshReplace(s, h);
      case Bounce(h, d) => HeldDsn(s, h, d); ToldDsn(s, h, d); FreshDsn(s, h, d);
      case Notify(h, _) => HeldNotify(s, h); ToldNotify(s, h); FreshNotify(s, h);
      case Exit(h, _) => HeldAck(s, h); ToldAck(s, h); FreshAck(s, h);
    }
  }

  lemma {:induction false} RunClean(s: State, acts: seq<Action>)
    requires Inv(s) && Clean(s) && RunsClean(s, acts)
    ensures Runs(s, acts) && Inv(After(s, acts)) && Clean(After(s, acts))
    decreases |acts|
  {
    if acts != [] {
      StepKeeps(s, acts[0]);
      StepClean(s, acts[0]);
      RunClean(Next(s, acts[0]), acts[1..]);
    }
  }

  /** Conservation: without faults every published message has exactly one current copy, whose place
      its event log spells out, or it is over and the log says how it ended. */
  lemma RowsTellThePlace(acts: seq<Action>, id: Id)
    requires RunsClean(INITIAL, acts)
    requires id in After(INITIAL, acts).published
    ensures var s := After(INITIAL, acts);
            || Over(s, id)
            || (exists c :: && Current(s, c) && s.copies[c].job.id == id && Tells(s, c)
                            && forall d :: Current(s, d) && s.copies[d].job.id == id ==> d == c)
  {
    InitialInv();
    RunClean(INITIAL, acts);
    var s := After(INITIAL, acts);
    if HasCurrent(s, id) {
      var c :| Current(s, c) && s.copies[c].job.id == id;
      assert Tells(s, c);
    }
  }

  // ---- Where clean runs end --------------------------------------------------------------

  lemma {:induction false} Longest(ids: set<Id>) returns (n: nat)
    ensures forall id :: id in ids ==> |id| <= n
    decreases |ids|
  {
    if ids == {} {
      n := 0;
    } else {
      var id :| id in ids;
      n := Longest(ids - {id});
      n := if |id| > n then |id| else n;
    }
  }

  /** There is always an id left to draw. */
  lemma FreshId(ids: set<Id>) returns (id: Id)
    ensures id !in ids
  {
    var n := Longest(ids);
    id := seq(n + 1, _ => '0');
  }

  /** A fault-free step that needs nothing from outside. */
  ghost predicate Inner(s: State, a: Action)
  {
    Enabled(s, a) && FaultFree(s, a) && !Arrival(a)
  }

  lemma HandlerReady(s: State, h: nat)
    requires Inv(s) && Clean(s) && h in s.handlers
    ensures s.handlers[h].phase.Fetching? ==> s.handlers[h].job.id in s.bodies
    ensures s.handlers[h].phase.DsnStored? ==> s.handlers[h].phase.dsn !in s.rows
  {
    var hd := s.handlers[h];
    assert Holds(s, h) && Known(s, hd.job);
    assert hd.phase.Fetching? ==> Current(s, hd.copy) && Tells(s, hd.copy);
  }

  /** The routes the workers are given, none of which lasts beyond the deadline. */
  ghost predicate Timely(routes: nat -> Route)
  {
    forall h :: routes(h) != Chain([]) && !Expires(routes(h))
  }

  /** A fault-free step from inside that decides as the route given to the worker does. */
  ghost predicate InnerBy(s: State, a: Action, routes: nat -> Route)
  {
    Inner(s, a) && (a.Work? && a.w.Decide? ==> a.w.route == routes(a.h))
  }

  /** Whatever route the configuration gives and whatever the providers answer, a worker with the body
      in hand can decide, unless its deadline passes. */
  lemma RoutingMoves(s: State, h: nat, routes: nat -> Route) returns (a: Action)
    requires h in s.handlers && s.handlers[h].phase.Routing?
    requires routes(h) != Chain([]) && !Expires(routes(h))
    ensures InnerBy(s, a, routes) && a.Work? && a.h == h && a.w.Decide?
  {
    var v := VerdictExists(routes(h));
    a := Work(h, Decide(routes(h), v));
  }

  /** The next step of a delivery worker that is not routing, and of the DSN generator. */
  function DeliveryMove(h: nat, p: Phase): Action
  {
    if p.Fetching? then Work(h, Fetch)
    else if p.RelayLogged? then Work(h, DropBody(true))
    else if p.DeferLogged? || p.FailLogged? then Replace(h, true)
    else if MayAck(p) then Exit(h, Ack)
    else Work(h, Log(true))
  }

  function DsnMove(h: nat, hd: Handler, id: Id): Action
  {
    match hd.phase
    case Noted => Work(h, Feed(Complaints(hd.job)))
    case Fed => if NoNotice(hd.job) then Work(h, Silence) else Bounce(h, StoreDsn(id))
    case DsnStored(_) => Bounce(h, InsertDsn)
    case DsnInserted(_) => Notify(h, true)
    case Closed => Exit(h, Ack)
    case Noting => Work(h, Log(true))
    case _ => Work(h, DropBody(true))
  }

  lemma DeliveryMoves(s: State, h: nat)
    requires h in s.handlers && !OnDlq(s.handlers[h].phase) && !s.handlers[h].phase.Routing?
    requires s.handlers[h].phase.Fetching? ==> s.handlers[h].job.id in s.bodies
    ensures Inner(s, DeliveryMove(h, s.handlers[h].phase))
    ensures var a := DeliveryMove(h, s.handlers[h].phase); a.Work? ==> !a.w.Decide?
  {
  }

  lemma DsnMoves(s: State, h: nat, id: Id)
    requires h in s.handlers && OnDlq(s.handlers[h].phase) && id !in s.used
    requires s.handlers[h].phase.DsnStored? ==> s.handlers[h].phase.dsn !in s.rows
    ensures Inner(s, DsnMove(h, s.handlers[h], id))
    ensures var a := DsnMove(h, s.handlers[h], id); a.Work? ==> !a.w.Decide?
  {
  }

  lemma QueueMoves(s: State, c: nat) returns (a: Action)
    requires InvTiers(s) && c in s.copies && s.copies[c].holder.None?
    ensures Inner(s, a) && !a.Work?
  {
    assert Placed(s.copies[c]);
    a := Broker(c, match s.copies[c].queue case WorkQueue => Deliver case Dlq => Receive case Tier(_) => Expire);
  }

  lemma SessionMoves(s: State, id: Id) returns (a: Action)
    requires InvIds(s) && id in s.subs
    ensures Inner(s, a) && !a.Work?
  {
    a := match s.subs[id].phase
         case Envelope => Ingress(id, StoreBody)
         case Stored => Ingress(id, InsertRow)
         case Inserted => Submit(id, true);
  }

  /** As long as anything is under way, some step is possible without new mail, whatever routes the
      workers are given. */
  lemma SomethingMoves(s: State, routes: nat -> Route) returns (a: Action)
    requires Inv(s) && Clean(s) && (s.handlers != map[] || s.copies != map[] || s.subs != map[])
    requires Timely(routes)
    ensures InnerBy(s, a, routes)
  {
    if h :| h in s.handlers {
      HandlerReady(s, h);
      if OnDlq(s.handlers[h].phase) {
        var id := FreshId(s.used);
        DsnMoves(s, h, id);
        a := DsnMove(h, s.handlers[h], id);
      } else if s.handlers[h].phase.Routing? {
        a := RoutingMoves(s, h, routes);
      } else {
        DeliveryMoves(s, h);
        a := DeliveryMove(h, s.handlers[h].phase);
      }
    } else if c :| c in s.copies {
      a := QueueMoves(s, c);
    } else {
      var id :| id in s.subs;
      a := SessionMoves(s, id);
    }
  }

  /** A clean run that can go no further without new mail has emptied every queue, and every message
      it published was relayed, or reported to its sender, or needed no report; the message table
      says which. Together with `CleanRunsAreShort`: every accepted message gets there, whatever routes
      the workers are given. */
  lemma CleanRunsEndWell(acts: seq<Action>, routes: nat -> Route)
    requires RunsClean(INITIAL, acts) && Timely(routes)
    requires forall a :: !InnerBy(After(INITIAL, acts), a, routes)
    ensures var s := After(INITIAL, acts);
            && s.copies == map[] && s.handlers == map[] && s.subs == map[]
            && forall id :: id in s.published ==> Over(s, id)
  {
    InitialInv();
    RunClean(INITIAL, acts);
    var s := After(INITIAL, acts);
    if s.handlers != map[] || s.copies != map[] || s.subs != map[] {
      var a := SomethingMoves(s, routes);
    }
    forall id | id in s.published
      ensures Over(s, id)
    {
      assert !HasCurrent(s, id);
    }
  }
}
