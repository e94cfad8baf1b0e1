/** What every reachable state of the pipeline satisfies, whatever crashes, lost connections, failed
    publishes, redeliveries and interleavings of handlers the run contains. */
module PipelineSafety {
  import opened Text
  import opened Failover
  import opened Pipeline

  // ---- The invariant ---------------------------------------------------------------------

  predicate SameMessage(j: Job, k: Job)
  {
    j == k.(attempt := j.attempt)
  }

  /** The end of a message: an upstream has it, or its dead-lettering has been dealt with. */
  predicate Settled(s: State, id: Id)
  {
    id in s.relayed || id in s.silenced || id in s.bounced
  }

  /** How far along a copy is: its attempt number, with the dead-letter queue beyond every attempt. */
  function Rank(c: Copy): nat
  {
    if c.queue.Dlq? then |TIERS| + 1 else c.job.attempt
  }

  /** Some copy of the message, queued or unacked, is at least that far along. */
  ghost predicate Live(copies: map<nat, Copy>, id: Id, rank: nat)
  {
    exists c :: c in copies && copies[c].job.id == id && Rank(copies[c]) >= rank
  }

  /** Copy keys and delivery tags come from one counter, and a tag is never given out twice. */
  ghost predicate InvKeys(s: State)
  {
    && (forall c :: c in s.copies ==> c < s.next && (s.copies[c].holder.Some? ==> s.copies[c].holder.value < s.next))
    && (forall h :: h in s.handlers ==> h < s.next)
  }

  /** A held copy belongs to the handler that holds it. */
  ghost predicate InvHolders(s: State)
  {
    forall c :: c in s.copies && s.copies[c].holder.Some? && s.copies[c].holder.value in s.handlers ==>
      var h := s.handlers[s.copies[c].holder.value];
      h.copy == c && h.job == s.copies[c].job && s.copies[c].queue == (if OnDlq(h.phase) then Dlq else WorkQueue)
  }

  predicate Placed(c: Copy)
  {
    match c.queue
    case WorkQueue => c.job.attempt <= |TIERS|
    case Tier(k) => 1 <= k <= |TIERS| && c.job.attempt == k && c.holder.None?
    case Dlq => c.job.attempt <= |TIERS| + 1
  }

  /** Tier discipline. */
  ghost predicate InvTiers(s: State)
  {
    && (forall c :: c in s.copies ==> Placed(s.copies[c]))
    && (forall h :: h in s.handlers ==>
          s.handlers[h].job.attempt <= |TIERS| + (if OnDlq(s.handlers[h].phase) then 1 else 0))
  }

  predicate Known(s: State, j: Job)
  {
    j.id in s.published && SameMessage(j, s.published[j.id])
  }

  /** Every copy and every handler is about a published message and agrees with it. */
  ghost predicate InvJobs(s: State)
  {
    && (forall id :: id in s.published ==> s.published[id].id == id && s.published[id].attempt == 0)
    && (forall c :: c in s.copies ==> Known(s, s.copies[c].job))
    && (forall h :: h in s.handlers ==> Known(s, s.handlers[h].job))
    && (forall id :: id in s.relayed || id in s.silenced || id in s.bounced ==> id in s.published)
  }

  /** A publish that is being retried is about the message its first try announced. */
  ghost predicate InvFirst(s: State)
  {
    && (forall id :: id in s.subs && id in s.published ==> s.published[id] == JobOf(id, s.subs[id]))
    && (forall h :: h in s.handlers && s.handlers[h].phase.DsnInserted? && s.handlers[h].phase.dsn in s.published ==>
          s.published[s.handlers[h].phase.dsn] == DsnJob(s.handlers[h].phase.dsn, s.handlers[h].job))
  }

  /** Whatever has a name has drawn it, and nobody but a submission uses its name before its row is in. */
  ghost predicate InvDrawn(s: State)
  {
    && (forall id :: id in s.subs || id in s.published || id in s.rows ==> id in s.used)
    && (forall id :: id in s.subs && !s.subs[id].phase.Inserted? ==> id !in s.published && id !in s.rows)
  }

  /** A DSN's id not yet published belongs to one handler. */
  ghost predicate InvPending(s: State)
  {
    && (forall h :: h in s.handlers && PendingDsn(s.handlers[h].phase).Some? ==>
          var d := PendingDsn(s.handlers[h].phase).value; d in s.used && d !in s.subs)
    && (forall g, h :: g in s.handlers && h in s.handlers && PendingDsn(s.handlers[g].phase).Some?
          && PendingDsn(s.handlers[g].phase) == PendingDsn(s.handlers[h].phase)
          ==> g == h)
    && (forall h :: h in s.handlers && s.handlers[h].phase.DsnStored? ==>
          s.handlers[h].phase.dsn !in s.published && s.handlers[h].phase.dsn !in s.rows)
  }

  /** Ids drawn but not yet published belong to one submission or one DSN handler. */
  ghost predicate InvIds(s: State)
  {
    InvDrawn(s) && InvPending(s)
  }

  /** The body is there, or nobody will need it. */
  predicate Readable(s: State, id: Id)
  {
    id in s.bodies || Settled(s, id)
  }

  /** Body and row exist from before the first enqueueing; the body goes only once settled. */
  ghost predicate InvBodies(s: State)
  {
    && (forall id :: id in s.published ==> id in s.rows && Readable(s, id))
    && (forall id :: id in s.subs && !s.subs[id].phase.Envelope? ==> Readable(s, id))
    && (forall id :: id in s.subs && s.subs[id].phase.Inserted? ==> id in s.rows)
    && (forall h :: h in s.handlers && PendingDsn(s.handlers[h].phase).Some? ==>
          Readable(s, PendingDsn(s.handlers[h].phase).value))
    && (forall h :: h in s.handlers && s.handlers[h].phase.DsnInserted? ==> s.handlers[h].phase.dsn in s.rows)
  }

  /** What a handler's progress says about its message. */
  predicate Claim(s: State, h: Handler)
  {
    match h.phase
    case Accepting => h.job.id in s.relayed
    case RelayLogged => h.job.id in s.relayed
    case Cleaned => Settled(s, h.job.id)
    case Silent => h.job.id in s.silenced
    case DsnStored(_) => !NoNotice(h.job)
    case DsnInserted(_) => !NoNotice(h.job)
    case DsnSent(_) => h.job.id in s.bounced
    case Closed => Settled(s, h.job.id)
    case _ => true
  }

  ghost predicate InvClaims(s: State)
  {
    forall h :: h in s.handlers ==> Claim(s, s.handlers[h])
  }

  /** Nothing published is lost, and a handler about to ack after publishing a replacement can
      still point to a copy strictly further along. */
  ghost predicate InvLive(s: State)
  {
    && (forall id :: id in s.published ==> Settled(s, id) || Live(s.copies, id, 0))
    && (forall h :: h in s.handlers && s.handlers[h].phase.Replaced? ==>
          Settled(s, s.handlers[h].job.id) || Live(s.copies, s.handlers[h].job.id, s.handlers[h].job.attempt + 1))
  }

  /** A DSN has a null sender, goes to the sender of the message it reports, and that message is
      itself no DSN and asked for notices. */
  predicate Reports(s: State, d: Id, about: Id)
  {
    && d in s.published && about in s.published
    && SameMessage(s.published[d], DsnJob(d, s.published[about]))
    && !NoNotice(s.published[about])
  }

  ghost predicate InvBounces(s: State)
  {
    forall d :: d in s.dsnOf ==> Reports(s, d, s.dsnOf[d])
  }

  /** A message counts as bounced only if a DSN about it was enqueued, and as silenced only if it
      was a bounce itself or asked for no notice. */
  ghost predicate InvNotices(s: State)
  {
    && (forall id :: id in s.bounced ==> s.bounced[id] in s.dsnOf && s.dsnOf[s.bounced[id]] == id)
    && (forall id :: id in s.silenced ==> id in s.published && NoNotice(s.published[id]))
    && (forall h :: h in s.handlers && s.handlers[h].phase.DsnInserted? && s.handlers[h].phase.dsn in s.dsnOf ==>
          s.dsnOf[s.handlers[h].phase.dsn] == s.handlers[h].job.id)
  }

  /** Only the recipients of a message with a sender are ever suppressed. */
  ghost predicate InvSuppressed(s: State)
  {
    forall a :: a in s.suppressed ==> exists id :: id in s.published && a in Complaints(s.published[id])
  }

  predicate Audited(r: Row)
  {
    |r.events| == r.attempts + 1 && r.events[0] == Queued && r.events[|r.events| - 1] == r.status
  }

  ghost predicate InvRows(s: State)
  {
    forall id :: id in s.rows ==> Audited(s.rows[id])
  }

  ghost predicate Inv(s: State)
  {
    && InvKeys(s) && InvHolders(s) && InvTiers(s) && InvJobs(s) && InvFirst(s) && InvIds(s) && InvBodies(s)
    && InvClaims(s) && InvLive(s) && InvBounces(s) && InvNotices(s) && InvSuppressed(s) && InvRows(s)
  }
  // ---- Preservation ----------------------------------------------------------------------

  /** Where things are, and what their names mean: the invariant without `InvLive`. */
  ghost predicate InvPlaces(s: State)
  {
    InvKeys(s) && InvTiers(s) && InvClaims(s) && InvRows(s)
  }

  ghost predicate InvNames(s: State)
  {
    InvJobs(s) && InvFirst(s) && InvIds(s) && InvBodies(s) && InvBounces(s) && InvNotices(s)
  }

  /** What a step of a handler's own work may touch. */
  ghost predicate Moved(s: State, t: State, h: nat)
  {
    && h in s.handlers && h in t.handlers
    && t.handlers == s.handlers[h := s.handlers[h].(phase := t.handlers[h].phase)]
    && OnDlq(t.handlers[h].phase) == OnDlq(s.handlers[h].phase)
    && PendingDsn(s.handlers[h].phase).None? && PendingDsn(t.handlers[h].phase).None?
    && t.copies == s.copies && t.subs == s.subs && t.used == s.used && t.published == s.published
    && t.dsnOf == s.dsnOf && t.bounced == s.bounced && t.next == s.next && t.rows.Keys == s.rows.Keys
    && (t.relayed == s.relayed || t.relayed == s.relayed + {s.handlers[h].job.id})
    && (t.silenced == s.silenced ||
        (t.silenced == s.silenced + {s.handlers[h].job.id} && NoNotice(s.handlers[h].job)))
    && (t.bodies == s.bodies ||
        (t.bodies == s.bodies - {s.handlers[h].job.id} && Settled(s, s.handlers[h].job.id)))
    && !t.handlers[h].phase.Replaced?
    && Claim(t, t.handlers[h])
  }

  lemma LogMoves(s: State, h: nat, w: WorkStep)
    requires InvClaims(s) && WorkEnabled(s, h, w) && w.Log?
    ensures Moved(s, WorkNext(s, h, w), h)
  {
    assert Claim(s, s.handlers[h]);
  }

  lemma DropMoves(s: State, h: nat, w: WorkStep)
    requires InvClaims(s) && WorkEnabled(s, h, w) && w.DropBody?
    ensures Moved(s, WorkNext(s, h, w), h)
  {
    assert Claim(s, s.handlers[h]);
  }

  lemma DecideMoves(s: State, h: nat, verdict: Verdict)
    requires h in s.handlers && s.handlers[h].phase.Routing?
    ensures Moved(s, DecideNext(s, h, verdict), h)
  {
  }

  lemma OtherMoves(s: State, h: nat, w: WorkStep)
    requires InvClaims(s) && WorkEnabled(s, h, w) && (w.Fetch? || w.Feed? || w.Silence?)
    ensures Moved(s, WorkNext(s, h, w), h)
  {
  }

  lemma DecidingWritesNothing(s: State, h: nat, verdict: Verdict)
    requires h in s.handlers
    ensures DecideNext(s, h, verdict).rows == s.rows
  {
  }

  lemma LoggedAudited(rows: map<Id, Row>, id: Id, st: Status)
    requires forall i :: i in rows ==> Audited(rows[i])
    ensures forall i :: i in Logged(rows, id, st) ==> Audited(Logged(rows, id, st)[i])
  {
  }

  lemma WorkKeepsRows(s: State, h: nat, w: WorkStep)
    requires InvRows(s) && WorkEnabled(s, h, w)
    ensures InvRows(WorkNext(s, h, w))
  {
    match w {
      case Decide(_, verdict) => DecidingWritesNothing(s, h, verdict);
      case Log(_) => LoggedAudited(s.rows, s.handlers[h].job.id, LogStatus(s.handlers[h].phase));
      case _ =>
    }
  }

  lemma IngressKeepsPlaces(s: State, id: Id, i: IngressStep)
    requires InvPlaces(s) && IngressEnabled(s, id, i)
    ensures InvPlaces(IngressNext(s, id, i))
  {
  }

  lemma IngressKeepsHolders(s: State, id: Id, i: IngressStep)
    requires InvHolders(s) && IngressEnabled(s, id, i)
    ensures InvHolders(IngressNext(s, id, i))
  {
  }

  lemma IngressKeepsJobs(s: State, id: Id, i: IngressStep)
    requires InvJobs(s) && IngressEnabled(s, id, i)
    ensures InvJobs(IngressNext(s, id, i))
  {
  }

  lemma IngressKeepsFirst(s: State, id: Id, i: IngressStep)
    requires InvIds(s) && InvJobs(s) && InvFirst(s) && IngressEnabled(s, id, i)
    ensures InvFirst(IngressNext(s, id, i))
  {
  }

  lemma IngressKeepsIds(s: State, id: Id, i: IngressStep)
    requires InvIds(s) && IngressEnabled(s, id, i)
    ensures InvIds(IngressNext(s, id, i))
  {
  }

  /** A session deletes at most its own body. */
  lemma IngressSpares(s: State, id: Id, i: IngressStep)
    requires IngressEnabled(s, id, i)
    ensures forall x :: Readable(s, x) && (x != id || !i.RejectOversize?) ==> Readable(IngressNext(s, id, i), x)
  {
  }

  lemma IngressKeepsBodies(s: State, id: Id, i: IngressStep)
    requires InvIds(s) && InvBodies(s) && IngressEnabled(s, id, i)
    ensures InvBodies(IngressNext(s, id, i))
  {
    IngressSpares(s, id, i);
  }

  lemma IngressKeepsBounces(s: State, id: Id, i: IngressStep)
    requires InvBounces(s) && IngressEnabled(s, id, i)
    ensures InvBounces(IngressNext(s, id, i))
  {
  }

  lemma IngressKeepsNotices(s: State, id: Id, i: IngressStep)
    requires InvNotices(s) && IngressEnabled(s, id, i)
    ensures InvNotices(IngressNext(s, id, i))
  {
  }

  lemma SubmitKeepsPlaces(s: State, id: Id, sent: bool)
    requires InvPlaces(s) && SubmitEnabled(s, id)
    ensures InvPlaces(SubmitNext(s, id, sent))
  {
  }

  lemma SubmitKeepsHolders(s: State, id: Id, sent: bool)
    requires InvHolders(s) && SubmitEnabled(s, id)
    ensures InvHolders(SubmitNext(s, id, sent))
  {
  }

  lemma SubmitKeepsJobs(s: State, id: Id, sent: bool)
    requires InvJobs(s) && InvFirst(s) && SubmitEnabled(s, id)
    ensures InvJobs(SubmitNext(s, id, sent))
  {
  }

  lemma SubmitKeepsFirst(s: State, id: Id, sent: bool)
    requires InvIds(s) && InvJobs(s) && InvFirst(s) && SubmitEnabled(s, id)
    ensures InvFirst(SubmitNext(s, id, sent))
  {
  }

  lemma SubmitKeepsDrawn(s: State, id: Id, sent: bool)
    requires InvDrawn(s) && SubmitEnabled(s, id)
    ensures InvDrawn(SubmitNext(s, id, sent))
  {
  }

  lemma SubmitKeepsPending(s: State, id: Id, sent: bool)
    requires InvIds(s) && SubmitEnabled(s, id)
    ensures InvPending(SubmitNext(s, id, sent))
  {
  }

  lemma SubmitKeepsBodies(s: State, id: Id, sent: bool)
    requires InvBodies(s) && SubmitEnabled(s, id)
    ensures InvBodies(SubmitNext(s, id, sent))
  {
  }

  lemma SubmitKeepsBounces(s: State, id: Id, sent: bool)
    requires InvBounces(s) && SubmitEnabled(s, id)
    ensures InvBounces(SubmitNext(s, id, sent))
  {
  }

  lemma SubmitKeepsNotices(s: State, id: Id, sent: bool)
    requires InvNotices(s) && SubmitEnabled(s, id)
    ensures InvNotices(SubmitNext(s, id, sent))
  {
  }

  lemma BrokerKeepsPlaces(s: State, c: nat, b: BrokerStep)
    requires InvPlaces(s) && BrokerEnabled(s, c, b)
    ensures InvPlaces(BrokerNext(s, c, b))
  {
  }

  lemma BrokerKeepsHolders(s: State, c: nat, b: BrokerStep)
    requires InvKeys(s) && InvHolders(s) && BrokerEnabled(s, c, b)
    ensures InvHolders(BrokerNext(s, c, b))
  {
  }

  lemma BrokerKeepsJobs(s: State, c: nat, b: BrokerStep)
    requires InvJobs(s) && BrokerEnabled(s, c, b)
    ensures InvJobs(BrokerNext(s, c, b))
  {
  }

  lemma BrokerKeepsFirst(s: State, c: nat, b: BrokerStep)
    requires InvFirst(s) && BrokerEnabled(s, c, b)
    ensures InvFirst(BrokerNext(s, c, b))
  {
  }

  lemma BrokerKeepsIds(s: State, c: nat, b: BrokerStep)
    requires InvIds(s) && BrokerEnabled(s, c, b)
    ensures InvIds(BrokerNext(s, c, b))
  {
  }

  lemma BrokerKeepsBodies(s: State, c: nat, b: BrokerStep)
    requires InvBodies(s) && BrokerEnabled(s, c, b)
    ensures InvBodies(BrokerNext(s, c, b))
  {
  }

  lemma BrokerKeepsBounces(s: State, c: nat, b: BrokerStep)
    requires InvBounces(s) && BrokerEnabled(s, c, b)
    ensures InvBounces(BrokerNext(s, c, b))
  {
  }

  lemma BrokerKeepsNotices(s: State, c: nat, b: BrokerStep)
    requires InvNotices(s) && BrokerEnabled(s, c, b)
    ensures InvNotices(BrokerNext(s, c, b))
  {
  }

  lemma MovedKeepsPlaces(s: State, t: State, h: nat)
    requires InvPlaces(s) && Moved(s, t, h)
    ensures InvKeys(t) && InvTiers(t) && InvClaims(t)
  {
  }

  lemma MovedKeepsHolders(s: State, t: State, h: nat)
    requires InvHolders(s) && Moved(s, t, h)
    ensures InvHolders(t)
  {
  }

  lemma MovedKeepsJobs(s: State, t: State, h: nat)
    requires InvJobs(s) && Moved(s, t, h)
    ensures InvJobs(t)
  {
  }

  lemma MovedKeepsFirst(s: State, t: State, h: nat)
    requires InvFirst(s) && Moved(s, t, h)
    ensures InvFirst(t)
  {
  }

  lemma MovedKeepsIds(s: State, t: State, h: nat)
    requires InvIds(s) && Moved(s, t, h)
    ensures InvIds(t)
  {
  }

  lemma MovedKeepsBodies(s: State, t: State, h: nat)
    requires InvBodies(s) && Moved(s, t, h)
    ensures InvBodies(t)
  {
  }

  lemma MovedKeepsBounces(s: State, t: State, h: nat)
    requires InvBounces(s) && Moved(s, t, h)
    ensures InvBounces(t)
  {
  }

  lemma MovedKeepsNotices(s: State, t: State, h: nat)
    requires InvIds(s) && InvJobs(s) && InvBounces(s) && InvNotices(s) && Moved(s, t, h)
    ensures InvNotices(t)
  {
  }

  lemma ReplaceKeepsPlaces(s: State, h: nat, sent: bool)
    requires InvPlaces(s) && ReplaceEnabled(s, h)
    ensures InvPlaces(ReplaceNext(s, h, sent))
  {
  }

  lemma ReplaceKeepsHolders(s: State, h: nat, sent: bool)
    requires InvHolders(s) && ReplaceEnabled(s, h)
    ensures InvHolders(ReplaceNext(s, h, sent))
  {
  }

  lemma ReplaceKeepsJobs(s: State, h: nat, sent: bool)
    requires InvJobs(s) && ReplaceEnabled(s, h)
    ensures InvJobs(ReplaceNext(s, h, sent))
  {
  }

  lemma ReplaceKeepsFirst(s: State, h: nat, sent: bool)
    requires InvFirst(s) && ReplaceEnabled(s, h)
    ensures InvFirst(ReplaceNext(s, h, sent))
  {
  }

  lemma ReplaceKeepsIds(s: State, h: nat, sent: bool)
    requires InvIds(s) && ReplaceEnabled(s, h)
    ensures InvIds(ReplaceNext(s, h, sent))
  {
  }

  lemma ReplaceKeepsBodies(s: State, h: nat, sent: bool)
    requires InvBodies(s) && ReplaceEnabled(s, h)
    ensures InvBodies(ReplaceNext(s, h, sent))
  {
  }

  lemma ReplaceKeepsBounces(s: State, h: nat, sent: bool)
    requires InvBounces(s) && ReplaceEnabled(s, h)
    ensures InvBounces(ReplaceNext(s, h, sent))
  {
  }

  lemma ReplaceKeepsNotices(s: State, h: nat, sent: bool)
    requires InvNotices(s) && ReplaceEnabled(s, h)
    ensures InvNotices(ReplaceNext(s, h, sent))
  {
  }

  lemma DsnKeepsPlaces(s: State, h: nat, d: DsnStep)
    requires InvPlaces(s) && DsnEnabled(s, h, d)
    ensures InvPlaces(DsnNext(s, h, d))
  {
  }

  lemma DsnKeepsHolders(s: State, h: nat, d: DsnStep)
    requires InvHolders(s) && DsnEnabled(s, h, d)
    ensures InvHolders(DsnNext(s, h, d))
  {
  }

  lemma DsnKeepsJobs(s: State, h: nat, d: DsnStep)
    requires InvJobs(s) && DsnEnabled(s, h, d)
    ensures InvJobs(DsnNext(s, h, d))
  {
  }

  lemma DsnKeepsFirst(s: State, h: nat, d: DsnStep)
    requires InvIds(s) && InvJobs(s) && InvFirst(s) && DsnEnabled(s, h, d)
    ensures InvFirst(DsnNext(s, h, d))
  {
  }

  lemma DsnKeepsIds(s: State, h: nat, d: DsnStep)
    requires InvIds(s) && DsnEnabled(s, h, d)
    ensures InvIds(DsnNext(s, h, d))
  {
  }

  lemma DsnKeepsBodies(s: State, h: nat, d: DsnStep)
    requires InvBodies(s) && DsnEnabled(s, h, d)
    ensures InvBodies(DsnNext(s, h, d))
  {
  }

  lemma DsnKeepsBounces(s: State, h: nat, d: DsnStep)
    requires InvBounces(s) && DsnEnabled(s, h, d)
    ensures InvBounces(DsnNext(s, h, d))
  {
  }

  lemma DsnKeepsNotices(s: State, h: nat, d: DsnStep)
    requires InvIds(s) && InvJobs(s) && InvBounces(s) && InvNotices(s) && DsnEnabled(s, h, d)
    ensures InvNotices(DsnNext(s, h, d))
  {
  }

  /** What publishing a DSN changes. */
  ghost predicate Notified(s: State, t: State, h: nat)
    requires NotifyEnabled(s, h)
  {
    var hd := s.handlers[h];
    var id := hd.phase.dsn;
    var j := DsnJob(id, hd.job);
    && t.copies == s.copies[s.next := Copy(j, WorkQueue, None)] && t.next == s.next + 1
    && (t.handlers == s.handlers || t.handlers == s.handlers[h := hd.(phase := DsnSent(id))])
    && t.published == (if id in s.published then s.published else s.published[id := j])
    && t.dsnOf == s.dsnOf[id := hd.job.id] && t.bounced == s.bounced[hd.job.id := id]
    && t.subs == s.subs && t.bodies == s.bodies && t.rows == s.rows && t.used == s.used
    && t.relayed == s.relayed && t.silenced == s.silenced && t.suppressed == s.suppressed
  }

  lemma NotifyNotifies(s: State, h: nat, sent: bool)
    requires NotifyEnabled(s, h)
    ensures Notified(s, NotifyNext(s, h, sent), h)
  {
  }

  /** The DSN's id is this handler's alone. */
  ghost predicate Alone(s: State, h: nat)
    requires NotifyEnabled(s, h)
  {
    var id := s.handlers[h].phase.dsn;
    && id in s.used && id !in s.subs
    && forall g :: g in s.handlers && g != h ==> PendingDsn(s.handlers[g].phase) != Some(id)
  }

  lemma IdsAlone(s: State, h: nat)
    requires NotifyEnabled(s, h) && InvIds(s)
    ensures Alone(s, h)
  {
    assert PendingDsn(s.handlers[h].phase) == Some(s.handlers[h].phase.dsn);
  }

  lemma NotifyKeepsKeys(s: State, t: State, h: nat)
    requires InvKeys(s) && NotifyEnabled(s, h) && Notified(s, t, h)
    ensures InvKeys(t)
  {
  }

  lemma NotifyKeepsTiers(s: State, t: State, h: nat)
    requires InvTiers(s) && NotifyEnabled(s, h) && Notified(s, t, h)
    ensures InvTiers(t)
  {
  }

  lemma NotifyKeepsClaims(s: State, t: State, h: nat)
    requires InvClaims(s) && InvRows(s) && NotifyEnabled(s, h) && Notified(s, t, h)
    ensures InvClaims(t) && InvRows(t)
  {
  }

  lemma NotifyKeepsHolders(s: State, t: State, h: nat)
    requires InvKeys(s) && InvHolders(s) && NotifyEnabled(s, h) && Notified(s, t, h)
    ensures InvHolders(t)
  {
  }

  lemma NotifyKeepsJobs(s: State, t: State, h: nat)
    requires InvJobs(s) && InvFirst(s) && NotifyEnabled(s, h) && Notified(s, t, h)
    ensures InvJobs(t)
  {
    assert Known(s, s.handlers[h].job);
  }

  lemma NotifyKeepsFirst(s: State, t: State, h: nat)
    requires InvFirst(s) && NotifyEnabled(s, h) && Notified(s, t, h) && Alone(s, h)
    ensures InvFirst(t)
  {
    var id := s.handlers[h].phase.dsn;
    forall g | g in t.handlers && t.handlers[g].phase.DsnInserted? && t.handlers[g].phase.dsn in t.published
      ensures t.published[t.handlers[g].phase.dsn] == DsnJob(t.handlers[g].phase.dsn, t.handlers[g].job)
    {
      if g != h {
        assert t.handlers[g] == s.handlers[g] && PendingDsn(s.handlers[g].phase) != Some(id);
      }
    }
  }

  lemma NotifyKeepsDrawn(s: State, t: State, h: nat)
    requires InvDrawn(s) && NotifyEnabled(s, h) && Notified(s, t, h) && Alone(s, h)
    ensures InvDrawn(t)
  {
  }

  lemma NotifyKeepsPending(s: State, t: State, h: nat)
    requires InvPending(s) && NotifyEnabled(s, h) && Notified(s, t, h) && Alone(s, h)
    ensures InvPending(t)
  {
  }

  lemma NotifyKeepsBodies(s: State, t: State, h: nat)
    requires InvBodies(s) && NotifyEnabled(s, h) && Notified(s, t, h) && Alone(s, h)
    ensures InvBodies(t)
  {
    assert PendingDsn(s.handlers[h].phase) == Some(s.handlers[h].phase.dsn);
    forall id | Readable(s, id)
      ensures Readable(t, id)
    {
    }
  }

  /** The DSN is about a published message that wants one, and is published as such. */
  lemma NoticeDue(s: State, t: State, h: nat)
    requires InvJobs(s) && InvFirst(s) && InvClaims(s) && NotifyEnabled(s, h) && Notified(s, t, h)
    ensures Known(s, s.handlers[h].job) && !NoNotice(s.handlers[h].job)
    ensures t.published[s.handlers[h].phase.dsn] == DsnJob(s.handlers[h].phase.dsn, s.handlers[h].job)
  {
    assert Claim(s, s.handlers[h]);
  }

  lemma NotifyKeepsBounces(s: State, t: State, h: nat)
    requires InvBounces(s) && NotifyEnabled(s, h) && Notified(s, t, h)
    requires Known(s, s.handlers[h].job) && !NoNotice(s.handlers[h].job)
    requires t.published[s.handlers[h].phase.dsn] == DsnJob(s.handlers[h].phase.dsn, s.handlers[h].job)
    ensures InvBounces(t)
  {
    var dsn := s.handlers[h].phase.dsn;
    forall d | d in t.dsnOf
      ensures Reports(t, d, t.dsnOf[d])
    {
      if d != dsn {
        assert d in s.dsnOf && Reports(s, d, s.dsnOf[d]);
      }
    }
  }

  lemma NotifyKeepsNotices(s: State, t: State, h: nat)
    requires InvIds(s) && InvJobs(s) && InvBounces(s) && InvNotices(s) && NotifyEnabled(s, h) && Notified(s, t, h)
    ensures InvNotices(t)
  {
    var dsn, j := s.handlers[h].phase.dsn, s.handlers[h].job;
    assert t.dsnOf == s.dsnOf[dsn := j.id] && t.bounced == s.bounced[j.id := dsn];
    forall id | id in t.bounced
      ensures t.bounced[id] in t.dsnOf && t.dsnOf[t.bounced[id]] == id
    {
      assert id != j.id ==> id in s.bounced;
    }
    forall g | g in t.handlers && t.handlers[g].phase.DsnInserted? && t.handlers[g].phase.dsn in t.dsnOf
      ensures t.dsnOf[t.handlers[g].phase.dsn] == t.handlers[g].job.id
    {
      assert g in s.handlers && (g != h ==> PendingDsn(s.handlers[g].phase) != PendingDsn(s.handlers[h].phase));
    }
  }

  /** What the end of a handler changes. */
  ghost predicate Exited(s: State, t: State, h: nat)
    requires h in s.handlers
  {
    var c := s.handlers[h].copy;
    && t.handlers == s.handlers - {h}
    && (|| t.copies == s.copies
        || (Holds(s, h) && t.copies == s.copies - {c})
        || (Holds(s, h) && t.copies == s.copies[c := s.copies[c].(holder := None)]))
    && t.next == s.next && t.published == s.published && t.subs == s.subs && t.bodies == s.bodies
    && t.rows == s.rows && t.used == s.used && t.dsnOf == s.dsnOf && t.bounced == s.bounced
    && t.relayed == s.relayed && t.silenced == s.silenced && t.suppressed == s.suppressed
  }

  lemma ExitExits(s: State, h: nat, e: ExitStep)
    requires ExitEnabled(s, h, e)
    ensures Exited(s, ExitNext(s, h, e), h)
  {
  }

  lemma ExitKeepsKeys(s: State, t: State, h: nat)
    requires InvKeys(s) && h in s.handlers && Exited(s, t, h)
    ensures InvKeys(t)
  {
  }

  lemma ExitKeepsTiers(s: State, t: State, h: nat)
    requires InvTiers(s) && h in s.handlers && Exited(s, t, h)
    ensures InvTiers(t)
  {
  }

  lemma ExitKeepsClaims(s: State, t: State, h: nat)
    requires InvClaims(s) && InvRows(s) && h in s.handlers && Exited(s, t, h)
    ensures InvClaims(t) && InvRows(t)
  {
  }

  lemma ExitKeepsHolders(s: State, t: State, h: nat)
    requires InvHolders(s) && h in s.handlers && Exited(s, t, h)
    ensures InvHolders(t)
  {
  }

  lemma ExitKeepsJobs(s: State, t: State, h: nat)
    requires InvJobs(s) && h in s.handlers && Exited(s, t, h)
    ensures InvJobs(t)
  {
  }

  lemma ExitKeepsFirst(s: State, t: State, h: nat)
    requires InvFirst(s) && h in s.handlers && Exited(s, t, h)
    ensures InvFirst(t)
  {
  }

  lemma ExitKeepsIds(s: State, t: State, h: nat)
    requires InvIds(s) && h in s.handlers && Exited(s, t, h)
    ensures InvIds(t)
  {
  }

  lemma ExitKeepsBodies(s: State, t: State, h: nat)
    requires InvBodies(s) && h in s.handlers && Exited(s, t, h)
    ensures InvBodies(t)
  {
  }

  lemma ExitKeepsNotices(s: State, t: State, h: nat)
    requires InvBounces(s) && InvNotices(s) && h in s.handlers && Exited(s, t, h)
    ensures InvBounces(t) && InvNotices(t)
  {
  }

  lemma WorkMoves(s: State, h: nat, w: WorkStep)
    requires InvClaims(s) && WorkEnabled(s, h, w)
    ensures Moved(s, WorkNext(s, h, w), h)
  {
    match w {
      case Decide(_, verdict) => DecideMoves(s, h, verdict);
      case Log(_) => LogMoves(s, h, w);
      case DropBody(_) => DropMoves(s, h, w);
      case _ => OtherMoves(s, h, w);
    }
  }

  /** The history only grows. */
  ghost predicate Grows(s: State, t: State)
  {
    && (forall id :: id in s.published ==> id in t.published && t.published[id] == s.published[id])
    && s.relayed <= t.relayed && s.silenced <= t.silenced && s.bounced.Keys <= t.bounced.Keys
  }

  /** No copy is taken away or set back, a newly published id has a copy, and a handler newly
      ready to ack has a copy further along. */
  ghost predicate Carries(s: State, t: State)
  {
    && Grows(s, t)
    && (forall c :: c in s.copies ==>
          c in t.copies && t.copies[c].job == s.copies[c].job && Rank(t.copies[c]) == Rank(s.copies[c]))
    && (forall id :: id in t.published && id !in s.published ==> Live(t.copies, id, 0))
    && (forall g :: g in t.handlers && t.handlers[g].phase.Replaced? ==>
          && g in s.handlers && t.handlers[g].job == s.handlers[g].job
          && (s.handlers[g].phase.Replaced? || Live(t.copies, t.handlers[g].job.id, t.handlers[g].job.attempt + 1)))
  }

  lemma ReloadCarries(s: State, addresses: set<string>)
    requires InvKeys(s) && InvTiers(s) && Enabled(s, Reload(addresses))
    ensures Carries(s, s.(policy := addresses)) && s.(policy := addresses).suppressed == s.suppressed
  {
  }

  lemma IngressCarries(s: State, id: Id, i: IngressStep)
    requires InvKeys(s) && InvTiers(s) && Enabled(s, Ingress(id, i))
    ensures Carries(s, IngressNext(s, id, i)) && IngressNext(s, id, i).suppressed == s.suppressed
  {
  }

  lemma SubmitCarries(s: State, id: Id, sent: bool)
    requires InvKeys(s) && InvTiers(s) && SubmitEnabled(s, id)
    ensures Carries(s, SubmitNext(s, id, sent)) && SubmitNext(s, id, sent).suppressed == s.suppressed
  {
    var t := SubmitNext(s, id, sent);
    assert t.copies[s.next].job.id == id;
  }

  lemma StartCarries(s: State, c: nat, p: Phase)
    requires InvKeys(s) && c in s.copies && !p.Replaced?
    ensures Carries(s, Start(s, c, p)) && Start(s, c, p).suppressed == s.suppressed
  {
  }

  lemma ExpiryCarries(s: State, c: nat)
    requires InvTiers(s) && c in s.copies && s.copies[c].queue.Tier?
    ensures Carries(s, s.(copies := s.copies[c := s.copies[c].(queue := WorkQueue)]))
  {
  }

  lemma RequeueCarries(s: State, c: nat)
    requires c in s.copies
    ensures Carries(s, s.(copies := s.copies[c := s.copies[c].(holder := None)]))
  {
  }

  lemma BrokerCarries(s: State, c: nat, b: BrokerStep)
    requires InvKeys(s) && InvTiers(s) && BrokerEnabled(s, c, b)
    ensures Carries(s, BrokerNext(s, c, b)) && BrokerNext(s, c, b).suppressed == s.suppressed
  {
    match b {
      case Deliver => StartCarries(s, c, Fetching);
      case Receive => StartCarries(s, c, Noting);
      case Expire => ExpiryCarries(s, c);
      case Requeue => RequeueCarries(s, c);
    }
  }

  lemma ReplacementRank(h: Handler)
    requires (h.phase.DeferLogged? || h.phase.FailLogged?) && h.job.attempt <= |TIERS|
    ensures Rank(Replacement(h)) >= h.job.attempt + 1 && Replacement(h).job.id == h.job.id
  {
  }

  /** What publishing a replacement changes. */
  ghost predicate Superseded(s: State, t: State, h: nat)
    requires h in s.handlers
  {
    && t.copies == s.copies[s.next := Replacement(s.handlers[h])] && t.next == s.next + 1
    && (t.handlers == s.handlers || t.handlers == s.handlers[h := s.handlers[h].(phase := Replaced)])
    && t.published == s.published && t.bounced == s.bounced && t.relayed == s.relayed && t.silenced == s.silenced
    && t.suppressed == s.suppressed
  }

  lemma ReplaceSupersedes(s: State, h: nat, sent: bool)
    requires ReplaceEnabled(s, h)
    ensures Superseded(s, ReplaceNext(s, h, sent), h)
  {
  }

  lemma ReplaceCarries(s: State, t: State, h: nat)
    requires InvKeys(s) && InvTiers(s) && ReplaceEnabled(s, h) && Superseded(s, t, h)
    ensures Carries(s, t)
  {
    ReplacementRank(s.handlers[h]);
    assert t.copies[s.next] == Replacement(s.handlers[h]);
    assert Live(t.copies, s.handlers[h].job.id, s.handlers[h].job.attempt + 1);
  }

  lemma DsnCarries(s: State, h: nat, d: DsnStep)
    requires InvKeys(s) && InvTiers(s) && Enabled(s, Bounce(h, d))
    ensures Carries(s, DsnNext(s, h, d)) && DsnNext(s, h, d).suppressed == s.suppressed
  {
  }

  lemma NotifyCarries(s: State, t: State, h: nat)
    requires InvKeys(s) && InvTiers(s) && NotifyEnabled(s, h) && Notified(s, t, h)
    ensures Carries(s, t)
  {
    assert t.copies[s.next].job.id == s.handlers[h].phase.dsn;
  }

  lemma MovedCarries(s: State, t: State, h: nat)
    requires Moved(s, t, h)
    ensures Carries(s, t)
  {
  }

  lemma StepCarries(s: State, a: Action)
    requires InvKeys(s) && InvTiers(s) && InvClaims(s) && Enabled(s, a) && !a.Exit?
    ensures Carries(s, Next(s, a)) && (!a.Work? ==> Next(s, a).suppressed == s.suppressed)
  {
    match a {
      case Reload(addresses) => ReloadCarries(s, addresses);
      case Ingress(id, i) => IngressCarries(s, id, i);
      case Submit(id, sent) => SubmitCarries(s, id, sent);
      case Broker(c, b) => BrokerCarries(s, c, b);
      case Work(h, w) => WorkMoves(s, h, w); MovedCarries(s, Next(s, a), h);
      case Replace(h, sent) => ReplaceSupersedes(s, h, sent); ReplaceCarries(s, Next(s, a), h);
      case Bounce(h, d) => DsnCarries(s, h, d);
      case Notify(h, sent) => NotifyNotifies(s, h, sent); NotifyCarries(s, Next(s, a), h);
    }
  }

  lemma ExitGrows(s: State, h: nat, e: ExitStep)
    requires ExitEnabled(s, h, e)
    ensures Grows(s, ExitNext(s, h, e)) && ExitNext(s, h, e).published == s.published
    ensures ExitNext(s, h, e).suppressed == s.suppressed
    ensures ExitNext(s, h, e).handlers == s.handlers - {h}
  {
  }

  lemma GrowsKeepsSuppressed(s: State, t: State)
    requires InvSuppressed(s) && Grows(s, t)
    ensures forall x :: x in s.suppressed ==> exists id :: id in t.published && x in Complaints(t.published[id])
  {
    forall x | x in s.suppressed
      ensures exists id :: id in t.published && x in Complaints(t.published[id])
    {
      var id :| id in s.published && x in Complaints(s.published[id]);
      assert t.published[id] == s.published[id];
    }
  }

  lemma FeedKeepsSuppressed(s: State, a: Action)
    requires InvSuppressed(s) && InvJobs(s) && Enabled(s, a) && a.Work? && a.w.Feed?
    ensures InvSuppressed(Next(s, a))
  {
    var t := Next(s, a);
    var j := s.handlers[a.h].job;
    forall x | x in t.suppressed
      ensures exists id :: id in t.published && x in Complaints(t.published[id])
    {
      if x !in s.suppressed {
        assert Known(s, j) && x in Complaints(j);
        assert Complaints(s.published[j.id]) == Complaints(j);
      }
    }
  }

  lemma DecidingSuppressesNobody(s: State, h: nat, verdict: Verdict)
    requires h in s.handlers
    ensures DecideNext(s, h, verdict).suppressed == s.suppressed
  {
  }

  lemma OnlyFeedSuppresses(s: State, h: nat, w: WorkStep)
    requires WorkEnabled(s, h, w) && !w.Feed?
    ensures WorkNext(s, h, w).suppressed == s.suppressed
  {
    match w {
      case Decide(_, verdict) => DecidingSuppressesNobody(s, h, verdict);
      case _ =>
    }
  }

  // ---- No loss ---------------------------------------------------------------------------

  /** Acking removes a copy only of a settled message, or one that is outranked by another copy. */
  lemma AckSpares(s: State, h: nat, e: ExitStep, id: Id, rank: nat)
    requires InvHolders(s) && InvTiers(s) && InvClaims(s) && InvLive(s) && ExitEnabled(s, h, e)
    requires Live(s.copies, id, rank)
    ensures Settled(s, id) || Live(ExitNext(s, h, e).copies, id, rank)
  {
    var t := ExitNext(s, h, e);
    var c :| c in s.copies && s.copies[c].job.id == id && Rank(s.copies[c]) >= rank;
    if c in t.copies {
      assert t.copies[c].job.id == id && Rank(t.copies[c]) >= rank;
    } else {
      var hd := s.handlers[h];
      assert e.Ack? && Holds(s, h) && hd.copy == c && hd.job.id == id;
      assert Claim(s, hd);
      if !Settled(s, id) {
        assert hd.phase.Replaced? && Rank(s.copies[c]) == hd.job.attempt;
        var d :| d in s.copies && s.copies[d].job.id == id && Rank(s.copies[d]) >= hd.job.attempt + 1;
        assert d != c && d in t.copies && t.copies[d] == s.copies[d];
      }
    }
  }

  lemma CarriesSpares(s: State, t: State, id: Id, rank: nat)
    requires Carries(s, t) && Live(s.copies, id, rank)
    ensures Live(t.copies, id, rank)
  {
    var c :| c in s.copies && s.copies[c].job.id == id && Rank(s.copies[c]) >= rank;
    assert c in t.copies && t.copies[c].job.id == id && Rank(t.copies[c]) >= rank;
  }

  /** No step makes an unsettled message fall back: whatever rank one of its copies had reached,
      some copy has reached afterwards. */
  lemma NoStepLoses(s: State, a: Action, id: Id, rank: nat)
    requires Inv(s) && Enabled(s, a)
    requires Live(s.copies, id, rank)
    ensures Settled(Next(s, a), id) || Live(Next(s, a).copies, id, rank)
  {
    if a.Exit? {
      AckSpares(s, a.h, a.e, id, rank);
      ExitGrows(s, a.h, a.e);
    } else {
      StepCarries(s, a);
      CarriesSpares(s, Next(s, a), id, rank);
    }
  }

  lemma CarriesKeepsLive(s: State, t: State)
    requires InvLive(s) && Carries(s, t)
    ensures InvLive(t)
  {
    forall id | id in t.published
      ensures Settled(t, id) || Live(t.copies, id, 0)
    {
      if Live(s.copies, id, 0) { CarriesSpares(s, t, id, 0); }
    }
    forall g | g in t.handlers && t.handlers[g].phase.Replaced?
      ensures Settled(t, t.handlers[g].job.id) || Live(t.copies, t.handlers[g].job.id, t.handlers[g].job.attempt + 1)
    {
      var j := t.handlers[g].job;
      if Live(s.copies, j.id, j.attempt + 1) { CarriesSpares(s, t, j.id, j.attempt + 1); }
    }
  }

  lemma ExitKeepsLive(s: State, h: nat, e: ExitStep)
    requires InvHolders(s) && InvTiers(s) && InvClaims(s) && InvLive(s) && ExitEnabled(s, h, e)
    ensures InvLive(ExitNext(s, h, e))
  {
    var t := ExitNext(s, h, e);
    ExitGrows(s, h, e);
    forall id | id in t.published
      ensures Settled(t, id) || Live(t.copies, id, 0)
    {
      if Live(s.copies, id, 0) { AckSpares(s, h, e, id, 0); }
    }
    forall g | g in t.handlers && t.handlers[g].phase.Replaced?
      ensures Settled(t, t.handlers[g].job.id) || Live(t.copies, t.handlers[g].job.id, t.handlers[g].job.attempt + 1)
    {
      var j := t.handlers[g].job;
      if Live(s.copies, j.id, j.attempt + 1) { AckSpares(s, h, e, j.id, j.attempt + 1); }
    }
  }

  // ---- Every run -------------------------------------------------------------------------

  /** Everything but `InvLive` and `InvSuppressed`. */
  ghost predicate InvState(s: State)
  {
    InvPlaces(s) && InvHolders(s) && InvNames(s)
  }

  lemma IngressKeeps(s: State, id: Id, i: IngressStep)
    requires InvState(s) && IngressEnabled(s, id, i)
    ensures InvState(IngressNext(s, id, i))
  {
    IngressKeepsPlaces(s, id, i); IngressKeepsHolders(s, id, i); IngressKeepsJobs(s, id, i);
    IngressKeepsFirst(s, id, i);
    IngressKeepsIds(s, id, i); IngressKeepsBodies(s, id, i); IngressKeepsBounces(s, id, i);
    IngressKeepsNotices(s, id, i);
  }

  lemma SubmitKeeps(s: State, id: Id, sent: bool)
    requires InvState(s) && SubmitEnabled(s, id)
    ensures InvState(SubmitNext(s, id, sent))
  {
    SubmitKeepsPlaces(s, id, sent); SubmitKeepsHolders(s, id, sent); SubmitKeepsJobs(s, id, sent);
    SubmitKeepsFirst(s, id, sent);
    SubmitKeepsDrawn(s, id, sent); SubmitKeepsPending(s, id, sent); SubmitKeepsBodies(s, id, sent);
    SubmitKeepsBounces(s, id, sent); SubmitKeepsNotices(s, id, sent);
  }

  lemma BrokerKeeps(s: State, c: nat, b: BrokerStep)
    requires InvState(s) && BrokerEnabled(s, c, b)
    ensures InvState(BrokerNext(s, c, b))
  {
    BrokerKeepsPlaces(s, c, b); BrokerKeepsHolders(s, c, b); BrokerKeepsJobs(s, c, b);
    BrokerKeepsFirst(s, c, b);
    BrokerKeepsIds(s, c, b); BrokerKeepsBodies(s, c, b); BrokerKeepsBounces(s, c, b);
    BrokerKeepsNotices(s, c, b);
  }

  lemma WorkKeeps(s: State, h: nat, w: WorkStep)
    requires InvState(s) && WorkEnabled(s, h, w)
    ensures InvState(WorkNext(s, h, w))
  {
    var t := WorkNext(s, h, w);
    WorkMoves(s, h, w);
    WorkKeepsRows(s, h, w);
    MovedKeepsPlaces(s, t, h); MovedKeepsHolders(s, t, h); MovedKeepsJobs(s, t, h); MovedKeepsFirst(s, t, h);
    MovedKeepsIds(s, t, h); MovedKeepsBodies(s, t, h); MovedKeepsBounces(s, t, h);
    MovedKeepsNotices(s, t, h);
  }

  lemma ReplaceKeeps(s: State, h: nat, sent: bool)
    requires InvState(s) && ReplaceEnabled(s, h)
    ensures InvState(ReplaceNext(s, h, sent))
  {
    ReplaceKeepsPlaces(s, h, sent); ReplaceKeepsHolders(s, h, sent); ReplaceKeepsJobs(s, h, sent);
    ReplaceKeepsFirst(s, h, sent);
    ReplaceKeepsIds(s, h, sent); ReplaceKeepsBodies(s, h, sent); ReplaceKeepsBounces(s, h, sent);
    ReplaceKeepsNotices(s, h, sent);
  }

  lemma DsnKeeps(s: State, h: nat, d: DsnStep)
    requires InvState(s) && DsnEnabled(s, h, d)
    ensures InvState(DsnNext(s, h, d))
  {
    DsnKeepsPlaces(s, h, d); DsnKeepsHolders(s, h, d); DsnKeepsJobs(s, h, d); DsnKeepsFirst(s, h, d);
    DsnKeepsIds(s, h, d); DsnKeepsBodies(s, h, d); DsnKeepsBounces(s, h, d); DsnKeepsNotices(s, h, d);
  }

  lemma NotifyKeeps(s: State, h: nat, sent: bool)
    requires InvState(s) && NotifyEnabled(s, h)
    ensures InvState(NotifyNext(s, h, sent))
  {
    var t := NotifyNext(s, h, sent);
    NotifyNotifies(s, h, sent);
    IdsAlone(s, h);
    NotifyKeepsKeys(s, t, h); NotifyKeepsTiers(s, t, h); NotifyKeepsClaims(s, t, h);
    NotifyKeepsHolders(s, t, h);
    NotifyKeepsJobs(s, t, h); NotifyKeepsFirst(s, t, h);
    NotifyKeepsDrawn(s, t, h); NotifyKeepsPending(s, t, h); NotifyKeepsBodies(s, t, h);
    NoticeDue(s, t, h);
    NotifyKeepsBounces(s, t, h); NotifyKeepsNotices(s, t, h);
  }

  lemma ExitKeeps(s: State, h: nat, e: ExitStep)
    requires InvState(s) && ExitEnabled(s, h, e)
    ensures InvState(ExitNext(s, h, e))
  {
    var t := ExitNext(s, h, e);
    ExitExits(s, h, e);
    ExitKeepsKeys(s, t, h); ExitKeepsTiers(s, t, h); ExitKeepsClaims(s, t, h); ExitKeepsHolders(s, t, h);
    ExitKeepsJobs(s, t, h); ExitKeepsFirst(s, t, h); ExitKeepsIds(s, t, h); ExitKeepsBodies(s, t, h);
    ExitKeepsNotices(s, t, h);
  }

  lemma StepKeepsHistory(s: State, a: Action)
    requires Inv(s) && Enabled(s, a)
    ensures InvLive(Next(s, a)) && InvSuppressed(Next(s, a))
  {
    if a.Exit? {
      ExitGrows(s, a.h, a.e);
      ExitKeepsLive(s, a.h, a.e);
    } else {
      StepCarries(s, a);
      CarriesKeepsLive(s, Next(s, a));
    }
    if a.Work? && a.w.Feed? {
      FeedKeepsSuppressed(s, a);
    } else {
      if a.Work? { OnlyFeedSuppresses(s, a.h, a.w); }
      GrowsKeepsSuppressed(s, Next(s, a));
    }
  }

  lemma ReloadKeepsPlaces(s: State, addresses: set<string>)
    requires InvPlaces(s) && InvHolders(s)
    ensures InvPlaces(s.(policy := addresses)) && InvHolders(s.(policy := addresses))
  {
  }

  lemma ReloadKeepsJobs(s: State, addresses: set<string>)
    requires InvJobs(s) && InvFirst(s) && InvIds(s)
    ensures var t := s.(policy := addresses); InvJobs(t) && InvFirst(t) && InvIds(t)
  {
  }

  lemma ReloadKeepsBodies(s: State, addresses: set<string>)
    requires InvBodies(s)
    ensures InvBodies(s.(policy := addresses))
  {
  }

  lemma ReloadKeepsNotices(s: State, addresses: set<string>)
    requires InvBounces(s) && InvNotices(s)
    ensures var t := s.(policy := addresses); InvBounces(t) && InvNotices(t)
  {
  }

  lemma ReloadKeepsNames(s: State, addresses: set<string>)
    requires InvNames(s)
    ensures InvNames(s.(policy := addresses))
  {
    ReloadKeepsJobs(s, addresses);
    ReloadKeepsBodies(s, addresses);
    ReloadKeepsNotices(s, addresses);
  }

  lemma StepKeeps(s: State, a: Action)
    requires Inv(s) && Enabled(s, a)
    ensures Inv(Next(s, a))
  {
    StepKeepsHistory(s, a);
    match a {
      case Reload(addresses) => ReloadKeepsPlaces(s, addresses); ReloadKeepsNames(s, addresses);
      case Ingress(id, i) => IngressKeeps(s, id, i);
      case Submit(id, sent) => SubmitKeeps(s, id, sent);
      case Broker(c, b) => BrokerKeeps(s, c, b);
      case Work(h, w) => WorkKeeps(s, h, w);
      case Replace(h, sent) => ReplaceKeeps(s, h, sent);
      case Bounce(h, d) => DsnKeeps(s, h, d);
      case Notify(h, sent) => NotifyKeeps(s, h, sent);
      case Exit(h, e) => ExitKeeps(s, h, e);
    }
  }

  lemma {:induction false} RunKeeps(s: State, acts: seq<Action>)
    requires Inv(s) && Runs(s, acts)
    ensures Inv(After(s, acts))
    decreases |acts|
  {
    if acts != [] {
      StepKeeps(s, acts[0]);
      RunKeeps(Next(s, acts[0]), acts[1..]);
    }
  }
}
