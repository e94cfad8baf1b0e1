/** The promises of the pipeline, for every run from the empty system. */
module PipelineTheorems {
  import opened Text
  import opened Failover
  import opened Pipeline
  import opened PipelineSafety

  lemma InitialInv()
    ensures Inv(INITIAL)
  {
  }

  /** What may have become of a published message. */
  ghost predicate Accounted(s: State, id: Id)
    requires id in s.published
  {
    || id in s.relayed
    || (id in s.silenced && NoNotice(s.published[id]))
    || (exists d :: && d in s.dsnOf && s.dsnOf[d] == id && d in s.published
                    && s.published[d].sender == "" && s.published[d].rcpts == [s.published[id].sender])
    || (exists c :: c in s.copies && s.copies[c].job.id == id)
  }

  /** No accepted message is ever lost: an upstream took it, or a DSN about it went on its way to its
      sender, or it was a bounce or asked for no notice, or the broker still has a copy. */
  lemma NothingIsLost(acts: seq<Action>, id: Id)
    requires Runs(INITIAL, acts)
    requires id in After(INITIAL, acts).published
    ensures Accounted(After(INITIAL, acts), id)
  {
    InitialInv();
    RunKeeps(INITIAL, acts);
    var s := After(INITIAL, acts);
    if id in s.bounced {
      var d := s.bounced[id];
      assert d in s.dsnOf && s.dsnOf[d] == id && Reports(s, d, id);
    } else if id !in s.relayed && id !in s.silenced {
      assert Live(s.copies, id, 0);
    }
  }

  /** A copy can lack its body only after an upstream took the message or its dead-lettering was
      dealt with; its row is always there. */
  lemma BodiesOutliveNeed(acts: seq<Action>, c: nat)
    requires Runs(INITIAL, acts)
    requires c in After(INITIAL, acts).copies
    ensures var s := After(INITIAL, acts);
            var id := s.copies[c].job.id;
            id in s.rows && (id in s.bodies || Settled(s, id))
  {
    InitialInv();
    RunKeeps(INITIAL, acts);
    var s := After(INITIAL, acts);
    assert Known(s, s.copies[c].job);
    assert s.copies[c].job.id in s.published;
  }

  lemma IngressPublishesNothing(s: State, id: Id, i: IngressStep)
    requires IngressEnabled(s, id, i)
    ensures IngressNext(s, id, i).published == s.published
  {
  }

  lemma WorkIsNameless(s: State, h: nat, w: WorkStep)
    requires InvClaims(s) && WorkEnabled(s, h, w)
    ensures var t := WorkNext(s, h, w);
            t.subs == s.subs && t.published == s.published && t.dsnOf == s.dsnOf && t.policy == s.policy
  {
    WorkMoves(s, h, w);
  }

  lemma ExitIsNameless(s: State, h: nat, e: ExitStep)
    requires ExitEnabled(s, h, e)
    ensures var t := ExitNext(s, h, e);
            t.subs == s.subs && t.published == s.published && t.dsnOf == s.dsnOf && t.policy == s.policy
  {
  }

  lemma BrokerIsNameless(s: State, c: nat, b: BrokerStep)
    requires BrokerEnabled(s, c, b)
    ensures var t := BrokerNext(s, c, b);
            t.subs == s.subs && t.published == s.published && t.dsnOf == s.dsnOf && t.policy == s.policy
  {
  }

  lemma DsnIsNameless(s: State, h: nat, d: DsnStep)
    requires DsnEnabled(s, h, d)
    ensures var t := DsnNext(s, h, d);
            t.subs == s.subs && t.published == s.published && t.dsnOf == s.dsnOf && t.policy == s.policy
  {
  }

  /** Steps that leave the names alone: submissions, published jobs, DSNs and the policy. */
  lemma Nameless(s: State, a: Action)
    requires InvClaims(s) && Enabled(s, a) && (a.Broker? || a.Work? || a.Replace? || a.Bounce? || a.Exit?)
    ensures var t := Next(s, a);
            t.subs == s.subs && t.published == s.published && t.dsnOf == s.dsnOf && t.policy == s.policy
  {
    match a {
      case Work(h, w) => WorkIsNameless(s, h, w);
      case Exit(h, e) => ExitIsNameless(s, h, e);
      case Broker(c, b) => BrokerIsNameless(s, c, b);
      case Bounce(h, d) => DsnIsNameless(s, h, d);
      case Replace(h, sent) =>
    }
  }

  lemma OnlyTwoPublish(s: State, a: Action, id: Id)
    requires InvBodies(s) && InvJobs(s) && InvClaims(s)
    requires Enabled(s, a) && id !in s.published && id in Next(s, a).published
    ensures id in s.bodies && id in s.rows
  {
    match a {
      case Submit(i, _) => assert Readable(s, i);
      case Notify(h, _) => assert Readable(s, PendingDsn(s.handlers[h].phase).value);
      case Ingress(i, st) => IngressPublishesNothing(s, i, st);
      case Reload(_) =>
      case _ => Nameless(s, a);
    }
  }

  /** The first copy of a job enters the broker only when its body and its row exist. */
  lemma BodyAndRowComeFirst(acts: seq<Action>, a: Action, id: Id)
    requires Runs(INITIAL, acts) && Enabled(After(INITIAL, acts), a)
    requires id !in After(INITIAL, acts).published && id in Next(After(INITIAL, acts), a).published
    ensures id in After(INITIAL, acts).bodies && id in After(INITIAL, acts).rows
  {
    InitialInv();
    RunKeeps(INITIAL, acts);
    OnlyTwoPublish(After(INITIAL, acts), a, id);
  }

  /** Tier k holds only jobs at attempt k, and no copy is retried beyond the last tier. */
  lemma TierDiscipline(acts: seq<Action>, c: nat)
    requires Runs(INITIAL, acts)
    requires c in After(INITIAL, acts).copies
    ensures Placed(After(INITIAL, acts).copies[c])
  {
    InitialInv();
    RunKeeps(INITIAL, acts);
  }

  /** A DSN is never the subject of a DSN, and nobody is suppressed on a DSN's account. */
  lemma BouncesNeverCascade(acts: seq<Action>, d: Id)
    requires Runs(INITIAL, acts)
    requires d in After(INITIAL, acts).dsnOf
    ensures var s := After(INITIAL, acts);
            && s.dsnOf[d] !in s.dsnOf && d !in s.dsnOf.Values
            && d in s.published && s.published[d].sender == "" && Complaints(s.published[d]) == {}
            && s.dsnOf[d] in s.published && !NoNotice(s.published[s.dsnOf[d]])
            && s.published[d].rcpts == [s.published[s.dsnOf[d]].sender]
  {
    InitialInv();
    RunKeeps(INITIAL, acts);
    var s := After(INITIAL, acts);
    assert Reports(s, d, s.dsnOf[d]);
    forall e | e in s.dsnOf
      ensures NoNotice(s.published[e]) && !NoNotice(s.published[s.dsnOf[e]])
    {
      assert Reports(s, e, s.dsnOf[e]);
    }
  }

  /** Every suppressed address is a recipient of a message that had a sender. */
  lemma OnlyRealMailSuppresses(acts: seq<Action>, x: string)
    requires Runs(INITIAL, acts)
    requires x in After(INITIAL, acts).suppressed
    ensures var s := After(INITIAL, acts);
            exists id :: id in s.published && s.published[id].sender != ""
                      && (exists r :: r in s.published[id].rcpts && Lower(r) == x)
  {
    InitialInv();
    RunKeeps(INITIAL, acts);
    var s := After(INITIAL, acts);
    var id :| id in s.published && x in Complaints(s.published[id]);
  }

  /** Status, attempt count and event log of every row agree. */
  lemma RowsAgree(acts: seq<Action>, id: Id)
    requires Runs(INITIAL, acts)
    requires id in After(INITIAL, acts).rows
    ensures Audited(After(INITIAL, acts).rows[id])
  {
    InitialInv();
    RunKeeps(INITIAL, acts);
  }

  // ---- Suppression -----------------------------------------------------------------------

  /** Ingress goes on having the address on its list. */
  ghost predicate KeepsListed(acts: seq<Action>, address: string)
  {
    forall k :: 0 <= k < |acts| && acts[k].Reload? ==> address in acts[k].addresses
  }

  predicate Mentions(rcpts: seq<string>, address: string)
  {
    exists k :: 0 <= k < |rcpts| && Lower(rcpts[k]) == address
  }

  /** Submissions, and published messages with a sender, that reach the address. */
  ghost predicate Quiet(s: State, address: string, before: set<Id>)
  {
    && address in s.policy
    && (forall id :: id in s.subs && id !in before ==> !Mentions(s.subs[id].rcpts, address))
    && (forall id :: id in s.published && id !in before && id !in s.dsnOf ==>
          !Mentions(s.published[id].rcpts, address))
  }

  lemma QuietIngress(s: State, id: Id, i: IngressStep, address: string, before: set<Id>)
    requires Quiet(s, address, before) && IngressEnabled(s, id, i)
    ensures Quiet(IngressNext(s, id, i), address, before)
  {
  }

  lemma QuietSubmit(s: State, id: Id, sent: bool, address: string, before: set<Id>)
    requires Quiet(s, address, before) && id in s.subs
    ensures Quiet(SubmitNext(s, id, sent), address, before)
  {
  }

  lemma QuietNotify(s: State, h: nat, sent: bool, address: string, before: set<Id>)
    requires Quiet(s, address, before) && NotifyEnabled(s, h)
    ensures Quiet(NotifyNext(s, h, sent), address, before)
  {
  }

  lemma QuietStep(s: State, a: Action, address: string, before: set<Id>)
    requires Quiet(s, address, before) && InvClaims(s) && Enabled(s, a)
    requires a.Reload? ==> address in a.addresses
    ensures Quiet(Next(s, a), address, before)
  {
    match a {
      case Reload(_) =>
      case Ingress(id, i) => QuietIngress(s, id, i, address, before);
      case Submit(id, sent) => QuietSubmit(s, id, sent, address, before);
      case Notify(h, sent) => QuietNotify(s, h, sent, address, before);
      case _ => Nameless(s, a);
    }
  }

  /** Once ingress has loaded a suppressed address and keeps it listed, no session that had not
      already named the address ever publishes a job for it; only DSNs may still go there. */
  lemma {:induction false} SuppressionHolds(s: State, acts: seq<Action>, address: string, before: set<Id>)
    requires Inv(s) && Runs(s, acts) && KeepsListed(acts, address) && Quiet(s, address, before)
    ensures Quiet(After(s, acts), address, before)
    decreases |acts|
  {
    if acts != [] {
      QuietStep(s, acts[0], address, before);
      StepKeeps(s, acts[0]);
      SuppressionHolds(Next(s, acts[0]), acts[1..], address, before);
    }
  }

  // ---- Duplicates ------------------------------------------------------------------------

  /** A work copy whose body is gone, at most being fetched. */
  ghost predicate Orphan(s: State, c: nat)
  {
    && c in s.copies && s.copies[c].queue.WorkQueue? && s.copies[c].job.id !in s.bodies
    && (s.copies[c].holder.Some? && s.copies[c].holder.value in s.handlers ==>
          s.handlers[s.copies[c].holder.value].phase.Fetching?)
  }

  lemma OrphanUnderWork(s: State, h: nat, w: WorkStep, c: nat)
    requires InvHolders(s) && InvClaims(s) && WorkEnabled(s, h, w) && Orphan(s, c)
    ensures Orphan(WorkNext(s, h, w), c)
  {
    WorkMoves(s, h, w);
  }

  lemma OrphanUnderIngress(s: State, id: Id, i: IngressStep, c: nat)
    requires InvJobs(s) && InvIds(s) && IngressEnabled(s, id, i) && Orphan(s, c)
    ensures Orphan(IngressNext(s, id, i), c)
  {
    assert Known(s, s.copies[c].job);
  }

  lemma OrphanUnderDsn(s: State, h: nat, d: DsnStep, c: nat)
    requires InvJobs(s) && InvIds(s) && DsnEnabled(s, h, d) && Orphan(s, c)
    ensures Orphan(DsnNext(s, h, d), c)
  {
    assert Known(s, s.copies[c].job);
  }

  lemma OrphanUnderExit(s: State, h: nat, e: ExitStep, c: nat)
    requires InvHolders(s) && ExitEnabled(s, h, e) && Orphan(s, c)
    ensures Orphan(ExitNext(s, h, e), c)
  {
  }

  /** A step that adds a copy and changes at most the phase of one handler that fetches nothing. */
  lemma OrphanUnderNewCopy(s: State, t: State, x: Copy, h: nat, c: nat)
    requires InvKeys(s) && Orphan(s, c) && t.bodies == s.bodies
    requires t.copies == s.copies[s.next := x]
    requires forall g :: g in t.handlers && g != h ==> g in s.handlers && t.handlers[g] == s.handlers[g]
    requires h in t.handlers ==> h in s.handlers && (s.handlers[h].phase.Fetching? ==> t.handlers[h].phase.Fetching?)
    ensures Orphan(t, c)
  {
  }

  lemma OrphanUnderSubmit(s: State, id: Id, sent: bool, c: nat)
    requires InvKeys(s) && id in s.subs && Orphan(s, c)
    ensures Orphan(SubmitNext(s, id, sent), c)
  {
    OrphanUnderNewCopy(s, SubmitNext(s, id, sent), Copy(JobOf(id, s.subs[id]), WorkQueue, None), s.next, c);
  }

  lemma OrphanUnderReplace(s: State, h: nat, sent: bool, c: nat)
    requires InvKeys(s) && ReplaceEnabled(s, h) && Orphan(s, c)
    ensures Orphan(ReplaceNext(s, h, sent), c)
  {
    OrphanUnderNewCopy(s, ReplaceNext(s, h, sent), Replacement(s.handlers[h]), h, c);
  }

  lemma OrphanUnderNotify(s: State, h: nat, sent: bool, c: nat)
    requires InvKeys(s) && NotifyEnabled(s, h) && Orphan(s, c)
    ensures Orphan(NotifyNext(s, h, sent), c)
  {
    var t := NotifyNext(s, h, sent);
    NotifyNotifies(s, h, sent);
    OrphanUnderNewCopy(s, t, t.copies[s.next], h, c);
  }

  lemma OrphanUnderBroker(s: State, c0: nat, b: BrokerStep, c: nat)
    requires InvKeys(s) && BrokerEnabled(s, c0, b) && Orphan(s, c)
    ensures Orphan(BrokerNext(s, c0, b), c)
  {
  }

  lemma OrphanStep(s: State, a: Action, c: nat)
    requires Inv(s) && Enabled(s, a) && Orphan(s, c)
    ensures Orphan(Next(s, a), c)
  {
    match a {
      case Reload(_) =>
      case Ingress(id, i) => OrphanUnderIngress(s, id, i, c);
      case Broker(c0, b) => OrphanUnderBroker(s, c0, b, c);
      case Work(h, w) => OrphanUnderWork(s, h, w, c);
      case Bounce(h, d) => OrphanUnderDsn(s, h, d, c);
      case Exit(h, e) => OrphanUnderExit(s, h, e, c);
      case Submit(id, sent) => OrphanUnderSubmit(s, id, sent, c);
      case Replace(h, sent) => OrphanUnderReplace(s, h, sent, c);
      case Notify(h, sent) => OrphanUnderNotify(s, h, sent, c);
    }
  }

  /** Such a copy is redelivered and nacked for ever: no run takes it out of the work queue. */
  lemma {:induction false} OrphanForever(s: State, acts: seq<Action>, c: nat)
    requires Inv(s) && Runs(s, acts) && Orphan(s, c)
    ensures Orphan(After(s, acts), c)
    decreases |acts|
  {
    if acts != [] {
      OrphanStep(s, acts[0], c);
      StepKeeps(s, acts[0]);
      OrphanForever(Next(s, acts[0]), acts[1..], c);
    }
  }

  ghost predicate CanLeave(s: State, c: nat)
  {
    exists acts :: Runs(s, acts) && c !in After(s, acts).copies
  }

  /** What can happen after a step can happen before it. */
  lemma LeaveLater(s: State, a: Action, c: nat)
    requires Enabled(s, a) && CanLeave(Next(s, a), c)
    ensures CanLeave(s, c)
  {
    var acts :| Runs(Next(s, a), acts) && c !in After(Next(s, a), acts).copies;
    assert ([a] + acts)[1..] == acts;
    assert Runs(s, [a] + acts) && c !in After(s, [a] + acts).copies;
  }

  lemma LeavesOnceLogged(s: State, h: nat, c: nat)
    requires c in s.copies && c < s.next && Holds(s, h) && s.handlers[h].copy == c && s.handlers[h].phase.DeferLogged?
    ensures CanLeave(s, c)
  {
    var t := Next(s, Replace(h, true));
    assert Holds(t, h) && t.handlers[h].phase.Replaced?;
    var u := Next(t, Exit(h, Ack));
    assert Runs(u, []) && c !in After(u, []).copies;
    LeaveLater(t, Exit(h, Ack), c);
    LeaveLater(s, Replace(h, true), c);
  }

  /** The deferral of a copy whose body is in hand. */
  lemma LeavesOnceRouting(s: State, h: nat, c: nat)
    requires c in s.copies && c < s.next && Holds(s, h) && s.handlers[h].copy == c && s.handlers[h].phase.Routing?
    ensures CanLeave(s, c)
  {
    var t := Next(s, Work(h, Decide(NoRoute, Postponed)));
    assert Holds(t, h) && t.handlers[h].phase.Deferring?;
    var u := Next(t, Work(h, Log(false)));
    LeavesOnceLogged(u, h, c);
    LeaveLater(t, Work(h, Log(false)), c);
    LeaveLater(s, Work(h, Decide(NoRoute, Postponed)), c);
  }

  /** The deferral of a queued copy, effect by effect. */
  lemma DeferralRun(s: State, c: nat)
    requires InvKeys(s) && c in s.copies && s.copies[c].queue.WorkQueue? && s.copies[c].holder.None?
    requires s.copies[c].job.id in s.bodies
    ensures CanLeave(s, c)
  {
    var h := s.next;
    var s0 := Next(s, Broker(c, Deliver));
    assert s0.handlers[h] == Handler(c, s.copies[c].job, Fetching);
    var s1 := Next(s0, Work(h, Fetch));
    LeavesOnceRouting(s1, h, c);
    LeaveLater(s0, Work(h, Fetch), c);
    LeaveLater(s, Broker(c, Deliver), c);
  }

  /** Exactly when a queued work copy can ever leave the broker: when its body is still stored. */
  lemma LeavesOnlyWithBody(s: State, c: nat)
    requires Inv(s) && c in s.copies && s.copies[c].queue.WorkQueue? && s.copies[c].holder.None?
    ensures CanLeave(s, c) <==> s.copies[c].job.id in s.bodies
  {
    if s.copies[c].job.id in s.bodies {
      DeferralRun(s, c);
    } else {
      forall acts | Runs(s, acts)
        ensures c in After(s, acts).copies
      {
        OrphanForever(s, acts, c);
      }
    }
  }

  ghost predicate CanOrphan(s: State)
  {
    exists acts, c :: Runs(s, acts) && Orphan(After(s, acts), c)
  }

  lemma OrphanLater(s: State, a: Action)
    requires Enabled(s, a) && CanOrphan(Next(s, a))
    ensures CanOrphan(s)
  {
    var acts, c :| Runs(Next(s, a), acts) && Orphan(After(Next(s, a), acts), c);
    assert ([a] + acts)[1..] == acts;
    assert Runs(s, [a] + acts) && Orphan(After(s, [a] + acts), c);
  }

  /** The broker requeues a copy whose handler then still deletes the body. */
  lemma OrphanFromAccepting(s: State, h: nat)
    requires Holds(s, h) && s.handlers[h].phase.Accepting? && s.copies[s.handlers[h].copy].queue.WorkQueue?
    requires s.copies[s.handlers[h].copy].job == s.handlers[h].job
    ensures CanOrphan(s)
  {
    var c := s.handlers[h].copy;
    var s1 := Next(s, Work(h, Log(true)));
    var s2 := Next(s1, Broker(c, Requeue));
    var s3 := Next(s2, Work(h, DropBody(true)));
    assert Runs(s3, []) && After(s3, []) == s3 && Orphan(s3, c);
    OrphanLater(s2, Work(h, DropBody(true)));
    OrphanLater(s1, Broker(c, Requeue));
    OrphanLater(s, Work(h, Log(true)));
  }

  lemma OrphanFromQueued(s: State, c: nat)
    requires c in s.copies && s.copies[c].queue.WorkQueue? && s.copies[c].holder.None?
    requires s.copies[c].job.id in s.bodies
    ensures CanOrphan(s)
  {
    var h := s.next;
    var clean := [Turn("smtp", Clear, Reply(Delivered, "250 ok", None))];
    assert EndsAt(clean, 0);
    var s1 := Next(s, Broker(c, Deliver));
    var s2 := Next(s1, Work(h, Fetch));
    var s3 := Next(s2, Work(h, Decide(Chain(clean), Accepted(0))));
    OrphanFromAccepting(s3, h);
    OrphanLater(s2, Work(h, Decide(Chain(clean), Accepted(0))));
    OrphanLater(s1, Work(h, Fetch));
    OrphanLater(s, Broker(c, Deliver));
  }

  /** Orphans are reachable: one lost connection at the wrong moment is enough. */
  lemma OrphansHappen(id: Id, sender: string)
    ensures CanOrphan(INITIAL)
  {
    var s1 := Next(INITIAL, Ingress(id, Open(sender)));
    var s2 := Next(s1, Ingress(id, StoreBody));
    var s3 := Next(s2, Ingress(id, InsertRow));
    var s4 := Next(s3, Submit(id, true));
    OrphanFromQueued(s4, 0);
    OrphanLater(s3, Submit(id, true));
    OrphanLater(s2, Ingress(id, InsertRow));
    OrphanLater(s1, Ingress(id, StoreBody));
    OrphanLater(INITIAL, Ingress(id, Open(sender)));
  }
}
