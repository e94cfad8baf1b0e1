/** The handlers as the services run them, effect by effect, on one shared system. Each effect is an
    action of the protocol, so whatever holds in every run holds between any two effects here. */
module PipelineHandlers {
  import opened Text
  import opened Failover
  import opened Pipeline
  import opened PipelineSafety
  import opened PipelineTheorems

  /** How the effects of one handling turn out: the body store answers, a row is inserted, the event
      committed, the body deleted. `tries` publishes reach the broker although the channel reports an
      error; then one is reported sent, or the deadline passes. */
  datatype Luck = Luck(readable: bool, inserted: bool, committed: bool, deleted: bool,
                       tries: nat, sent: bool, acked: bool)

  /** How a handling ends. */
  datatype End = Done | Moved | Returned | Dead

  /** `now` is `before` plus copies that equal `extra`, at keys not used before. */
  ghost predicate Gains(before: map<nat, Copy>, now: map<nat, Copy>, extra: Copy)
  {
    && (forall k :: k in before ==> k in now && now[k] == before[k])
    && (forall k :: k in now && k !in before ==> now[k] == extra)
  }

  /** The history once a DSN has reached the broker. */
  ghost function Announced(s: State, j: Job, about: Id, sent: bool): State
  {
    if !sent then s
    else s.(published := s.published[j.id := j], dsnOf := s.dsnOf[j.id := about], bounced := s.bounced[about := j.id])
  }

  /** All the effects on the way to a published notice come off. */
  predicate Informs(luck: Luck)
  {
    luck.readable && luck.inserted && luck.sent
  }

  /** The body store after a dead letter that wants a notice. */
  ghost function NoticeBodies(bodies: set<Id>, id: Id, dsn: Id, luck: Luck): set<Id>
  {
    (if luck.readable then bodies + {dsn} else bodies) - (if Informs(luck) && luck.deleted then {id} else {})
  }

  /** The DSN has reached the broker n times since s, and nothing else has happened. */
  ghost predicate AnnouncedSince(s: State, t: State, h: nat, n: nat)
    requires NotifyEnabled(s, h)
  {
    var j := DsnJob(s.handlers[h].phase.dsn, s.handlers[h].job);
    && t == Announced(s, j, s.handlers[h].job.id, n > 0).(copies := t.copies, next := t.next)
    && (n == 0 ==> t == s)
    && Gains(s.copies, t.copies, Copy(j, WorkQueue, None))
    && (forall k :: k in t.copies ==> k < t.next)
  }

  /** A job waits in the work queue. */
  ghost predicate Sends(s: State, j: Job)
  {
    exists k :: k in s.copies && s.copies[k] == Copy(j, WorkQueue, None)
  }

  /** What the broker does with the original copy. */
  ghost function Settle(copies: map<nat, Copy>, c: nat, luck: Luck): map<nat, Copy>
    requires c in copies
  {
    if !luck.sent then copies[c := copies[c].(holder := None)] else if luck.acked then copies - {c} else copies
  }

  /** The copy published instead. */
  ghost function Instead(h: Handler): Copy
    requires Logs(h.phase)
  {
    Replacement(h.(phase := AfterLog(h.phase)))
  }

  /** The message table after a verdict has been recorded. */
  ghost function RowsFor(rows: map<Id, Row>, id: Id, verdict: Verdict, luck: Luck): map<Id, Row>
  {
    if verdict.Interrupted? || !luck.committed then rows
    else Logged(rows, id, if verdict.Accepted? then Relayed else if verdict.Postponed? then Deferred else Failed)
  }

  /** The worker gives the copy back: interrupted, or its replacement never reported sent. */
  predicate Returns(verdict: Verdict, luck: Luck)
  {
    verdict.Interrupted? || (!verdict.Accepted? && !luck.sent)
  }

  function EndOf(verdict: Verdict, luck: Luck): End
  {
    if Returns(verdict, luck) then Returned
    else if !luck.acked then Dead
    else if verdict.Accepted? then Done
    else Moved
  }

  /** The job has reached the broker n times since s, and nothing else has happened. */
  ghost predicate Handed(s: State, t: State, j: Job, n: nat)
  {
    && t == s.(copies := t.copies, next := t.next,
               published := if n > 0 then s.published[j.id := j] else s.published)
    && (forall k :: k in t.copies ==> k < t.next)
    && Gains(s.copies, t.copies, Copy(j, WorkQueue, None))
    && (n == 0 ==> t.copies == s.copies)
    && (n > 0 ==> exists k :: k in t.copies && t.copies[k].job.id == j.id)
  }

  /** The broker's copies after the original is given back, acked, or left with a dead worker. */
  ghost function Kept(copies: map<nat, Copy>, c: nat, tag: nat, returned: bool, acked: bool): map<nat, Copy>
    requires c in copies
  {
    if returned then copies else if acked then copies - {c} else copies[c := copies[c].(holder := Some(tag))]
  }

  /** The copy that goes to a tier or to the dead-letter queue. */
  ghost function Successor(job: Job, verdict: Verdict): Copy
  {
    Replacement(Handler(0, job, if verdict.Postponed? then DeferLogged else FailLogged))
  }

  /** The handler has its body in hand and still holds its copy. */
  predicate Routes(s: State, h: nat)
  {
    Holds(s, h) && s.handlers[h].phase.Routing? && s.copies[s.handlers[h].copy].job == s.handlers[h].job
  }

  /** The system with the copy back in its queue. */
  function Waiting(s: State, c: nat): State
    requires c in s.copies
  {
    s.(copies := s.copies[c := s.copies[c].(holder := None)])
  }

  /** From s, where the copy waits, to t, where the delivery with that tag has been handled. */
  ghost predicate Handled(s: State, t: State, c: nat, tag: nat, verdict: Verdict, luck: Luck)
    requires c in s.copies
  {
    var job := s.copies[c].job;
    var base := Kept(s.copies, c, tag, Returns(verdict, luck), luck.acked);
    && t.published == s.published
    && t.rows == RowsFor(s.rows, job.id, verdict, luck)
    && t.bodies == s.bodies - (if verdict.Accepted? && luck.deleted then {job.id} else {})
    && t.relayed == s.relayed + (if verdict.Accepted? then {job.id} else {})
    && if verdict.Accepted? || verdict.Interrupted? then t.copies == base
       else
         && Gains(base, t.copies, Successor(job, verdict))
         && (luck.sent ==> exists k :: k in t.copies && k !in s.copies && t.copies[k] == Successor(job, verdict))
  }

  /** The body is stored and the store answers. */
  predicate Fetches(s: State, c: nat, luck: Luck)
    requires c in s.copies
  {
    luck.readable && s.copies[c].job.id in s.bodies
  }

  /** The verdict of the routing branches and the chain; an empty chain is no route. */
  ghost predicate Decides(route: Route, v: Verdict)
  {
    RouteMeans(if route == Chain([]) then NoRoute else route, v)
  }

  /** The routing branches of `handle`. */
  method Choose(route: Route) returns (v: Verdict)
    ensures Decides(route, v)
  {
    match route {
      case NoRoute => v := Postponed;
      case DomainBacklog => v := Postponed;
      case DomainExpired => v := Interrupted;
      case Chain(turns) =>
        if turns == [] {
          v := Postponed;
        } else {
          var calls, lastProvider, lastDetail;
          v, calls, lastProvider, lastDetail := TryChain(turns);
        }
    }
  }

  class Node {
    var sys: State
    ghost var trace: seq<Action>

    /** The system is where its trace leads. */
    ghost predicate Valid()
      reads this
    {
      Runs(INITIAL, trace) && After(INITIAL, trace) == sys
    }

    constructor ()
      ensures Valid() && sys == INITIAL && trace == []
    {
      sys, trace := INITIAL, [];
    }

    method Do(a: Action)
      requires Valid() && Enabled(sys, a)
      modifies this
      ensures Valid() && sys == Next(old(sys), a) && trace == old(trace) + [a]
    {
      Extend(INITIAL, trace, a);
      sys, trace := Next(sys, a), trace + [a];
    }

    /** Keys in use are below the counter, and a key in use stays in use. */
    lemma Keys()
      requires Valid()
      ensures forall k :: k in sys.copies ==> k < sys.next
      ensures sys.next !in sys.handlers
    {
      InitialInv();
      RunKeeps(INITIAL, trace);
    }

    /** Publish with retries until sent or out of time. */
    method PublishReplacement(h: nat, luck: Luck)
      requires Valid() && Enabled(sys, Replace(h, true))
      modifies this
      ensures Valid() && old(trace) <= trace
      ensures sys == old(sys).(copies := sys.copies, next := sys.next,
                               handlers := old(sys).handlers[h := old(sys).handlers[h].(phase :=
                                 if luck.sent then Replaced else old(sys).handlers[h].phase)])
      ensures Gains(old(sys).copies, sys.copies, Replacement(old(sys).handlers[h]))
      ensures sys.next == old(sys).next + luck.tries + (if luck.sent then 1 else 0)
      ensures luck.sent ==> exists k :: k in sys.copies && k >= old(sys).next
                                          && sys.copies[k] == Replacement(old(sys).handlers[h])
    {
      Keys();
      var n := 0;
      while n < luck.tries
        invariant 0 <= n <= luck.tries
        invariant Valid() && old(trace) <= trace
        invariant sys == old(sys).(copies := sys.copies, next := old(sys).next + n)
        invariant Gains(old(sys).copies, sys.copies, Replacement(old(sys).handlers[h]))
        invariant forall k :: k in sys.copies ==> k < sys.next
      {
        Do(Replace(h, false));
        n := n + 1;
      }
      if luck.sent {
        ghost var k := sys.next;
        Do(Replace(h, true));
        assert sys.copies[k] == Replacement(old(sys).handlers[h]);
      } else {
        assert old(sys).handlers[h := old(sys).handlers[h].(phase := old(sys).handlers[h].phase)] == old(sys).handlers;
      }
    }

    /** Ids not drawn, or drawn by a session still before its row, are nowhere yet. */
    lemma Unused(id: Id)
      requires Valid()
      ensures id !in sys.used ==> id !in sys.published && id !in sys.rows
      ensures id in sys.subs && !sys.subs[id].phase.Inserted? ==> id !in sys.published && id !in sys.rows
    {
      InitialInv();
      RunKeeps(INITIAL, trace);
    }

    /** Ack, or lose the connection or the process before it. */
    method Finish(h: nat, acked: bool)
      requires Valid() && Holds(sys, h) && MayAck(sys.handlers[h].phase)
      modifies this
      ensures Valid() && old(trace) <= trace
      ensures sys == old(sys).(
                handlers := old(sys).handlers - {h},
                copies := if acked then old(sys).copies - {old(sys).handlers[h].copy} else old(sys).copies)
    {
      if acked {
        Do(Exit(h, Ack));
      } else {
        Do(Exit(h, Die));
      }
    }

    /** The end of `handle` after a delivery: record, delete the body, ack. */
    method Relay(h: nat, luck: Luck)
      requires Valid() && Holds(sys, h) && sys.handlers[h].phase.Accepting?
      modifies this
      ensures Valid() && old(trace) <= trace
      ensures var job := old(sys).handlers[h].job;
              sys == old(sys).(
                handlers := old(sys).handlers - {h},
                copies := if luck.acked then old(sys).copies - {old(sys).handlers[h].copy} else old(sys).copies,
                rows := if luck.committed then Logged(old(sys).rows, job.id, Relayed) else old(sys).rows,
                bodies := if luck.deleted then old(sys).bodies - {job.id} else old(sys).bodies)
    {
      Do(Work(h, Log(luck.committed)));
      Do(Work(h, DropBody(luck.deleted)));
      Finish(h, luck.acked);
    }

    /** Nack with requeue. */
    method GiveBack(h: nat)
      requires Valid() && Holds(sys, h) && MayNack(sys.handlers[h].phase)
      modifies this
      ensures Valid() && old(trace) <= trace
      ensures var c := old(sys).handlers[h].copy;
              sys == old(sys).(handlers := old(sys).handlers - {h},
                               copies := old(sys).copies[c := old(sys).copies[c].(holder := None)])
    {
      Do(Exit(h, Nack));
    }

    /** Ack, or give the copy back if no publish was reported sent. */
    method Depart(h: nat, luck: Luck)
      requires Valid() && Holds(sys, h)
      requires if luck.sent then MayAck(sys.handlers[h].phase) else MayNack(sys.handlers[h].phase)
      modifies this
      ensures Valid() && old(trace) <= trace
      ensures sys == old(sys).(handlers := old(sys).handlers - {h},
                               copies := Settle(old(sys).copies, old(sys).handlers[h].copy, luck))
    {
      if luck.sent {
        Finish(h, luck.acked);
      } else {
        GiveBack(h);
      }
    }

    /** The copies published meanwhile survive the end of the original. */
    lemma Departed(s: State, t: State, u: State, h: nat, luck: Luck)
      requires Holds(s, h) && s.handlers[h].copy in t.copies && (forall k :: k in s.copies ==> k < s.next)
      requires s.handlers[h].phase.DeferLogged? || s.handlers[h].phase.FailLogged?
      requires var x := Replacement(s.handlers[h]);
               && Gains(s.copies, t.copies, x)
               && (luck.sent ==> exists k :: k in t.copies && k >= s.next && t.copies[k] == x)
               && u.copies == Settle(t.copies, s.handlers[h].copy, luck)
      ensures var x := Replacement(s.handlers[h]);
              && Gains(Settle(s.copies, s.handlers[h].copy, luck), u.copies, x)
              && (luck.sent ==> exists k :: k in u.copies && k >= s.next && u.copies[k] == x)
              && (luck.sent && luck.acked ==> s.handlers[h].copy !in u.copies)
    {
      if luck.sent {
        var k :| k in t.copies && k >= s.next && t.copies[k] == Replacement(s.handlers[h]);
        assert k != s.handlers[h].copy && k in u.copies;
      }
    }

    /** `defer_` and `toDLQ`: record, publish the replacement, ack; nack if the publish gives up. */
    method SetAside(h: nat, luck: Luck)
      requires Valid() && Holds(sys, h) && (sys.handlers[h].phase.Deferring? || sys.handlers[h].phase.Failing?)
      modifies this
      ensures Valid() && old(trace) <= trace
      ensures sys.handlers == old(sys).handlers - {h} && sys.bodies == old(sys).bodies
      ensures sys.published == old(sys).published && sys.relayed == old(sys).relayed
      ensures sys.rows == if !luck.committed then old(sys).rows
                          else Logged(old(sys).rows, old(sys).handlers[h].job.id, LogStatus(old(sys).handlers[h].phase))
      ensures Gains(Settle(old(sys).copies, old(sys).handlers[h].copy, luck), sys.copies, Instead(old(sys).handlers[h]))
      ensures luck.sent ==>
                exists k :: k in sys.copies && k >= old(sys).next && sys.copies[k] == Instead(old(sys).handlers[h])
      ensures luck.sent && luck.acked ==> old(sys).handlers[h].copy !in sys.copies
    {
      Keys();
      Do(Work(h, Log(luck.committed)));
      ghost var logged := sys;
      PublishReplacement(h, luck);
      assert Holds(sys, h);
      ghost var published := sys;
      Depart(h, luck);
      Departed(logged, published, sys, h, luck);
      assert sys.handlers == old(sys).handlers - {h};
    }

    lemma DeliverNext(s: State, c: nat)
      requires BrokerEnabled(s, c, Deliver) && s.next !in s.handlers
      ensures BrokerNext(s, c, Deliver) == s.(next := s.next + 1,
                copies := s.copies[c := s.copies[c].(holder := Some(s.next))],
                handlers := s.handlers[s.next := Handler(c, s.copies[c].job, Fetching)])
      ensures Holds(BrokerNext(s, c, Deliver), s.next)
    {
    }

    method Begin(c: nat) returns (h: nat)
      requires Valid() && BrokerEnabled(sys, c, Deliver)
      modifies this
      ensures Valid() && old(trace) <= trace
      ensures h == old(sys).next && h !in old(sys).handlers && Holds(sys, h)
      ensures sys == old(sys).(next := old(sys).next + 1,
                               copies := old(sys).copies[c := old(sys).copies[c].(holder := Some(h))],
                               handlers := old(sys).handlers[h := Handler(c, old(sys).copies[c].job, Fetching)])
    {
      Keys();
      h := sys.next;
      DeliverNext(sys, c);
      Do(Broker(c, Deliver));
    }

    method FetchBody(h: nat)
      requires Valid() && WorkEnabled(sys, h, Fetch)
      modifies this
      ensures Valid() && old(trace) <= trace
      ensures sys == old(sys).(handlers := old(sys).handlers[h := old(sys).handlers[h].(phase := Routing)])
    {
      Do(Work(h, Fetch));
    }

    /** The start of `handle`: take the copy and fetch its body, or give the copy back. */
    method Take(c: nat, luck: Luck) returns (h: nat, ok: bool)
      requires Valid()
      requires c in sys.copies && sys.copies[c].holder.None? && sys.copies[c].queue.WorkQueue?
      modifies this
      ensures Valid() && old(trace) <= trace
      ensures ok <==> Fetches(old(sys), c, luck)
      ensures h == old(sys).next && h !in old(sys).handlers
      ensures !ok ==> sys == old(sys).(next := old(sys).next + 1)
      ensures ok ==> sys == old(sys).(next := old(sys).next + 1,
                                      copies := old(sys).copies[c := old(sys).copies[c].(holder := Some(h))],
                                      handlers := old(sys).handlers[h := Handler(c, old(sys).copies[c].job, Routing)])
    {
      h := Begin(c);
      ok := luck.readable && sys.handlers[h].job.id in sys.bodies;
      if ok {
        FetchBody(h);
      } else {
        GiveBack(h);
        assert sys.handlers == old(sys).handlers && sys.copies == old(sys).copies;
      }
    }

    /** Act on the verdict. */
    method Rule(h: nat, route: Route, verdict: Verdict)
      requires Valid() && Holds(sys, h) && sys.handlers[h].phase.Routing?
      requires RouteMeans(route, verdict) && !verdict.Interrupted?
      modifies this
      ensures Valid() && old(trace) <= trace
      ensures Holds(sys, h)
      ensures sys == old(sys).(
                handlers := old(sys).handlers[h := old(sys).handlers[h].(phase :=
                  if verdict.Accepted? then Accepting else if verdict.Postponed? then Deferring else Failing)],
                relayed := if verdict.Accepted? then old(sys).relayed + {old(sys).handlers[h].job.id}
                           else old(sys).relayed)
    {
      Do(Work(h, Decide(route, verdict)));
    }

    lemma NotTaken(s: State, t: State, c: nat, luck: Luck)
      requires c in s.copies && t == s.(next := t.next)
      ensures Handled(s, t, c, s.next, Interrupted, luck)
    {
    }

    lemma RelayHandled(s: State, t: State, h: nat, verdict: Verdict, luck: Luck)
      requires Holds(s, h) && verdict.Accepted? && s.copies[s.handlers[h].copy].job == s.handlers[h].job
      requires var c, job := s.handlers[h].copy, s.handlers[h].job;
               && t.copies == (if luck.acked then s.copies - {c} else s.copies)
               && t.rows == (if luck.committed then Logged(s.rows, job.id, Relayed) else s.rows)
               && t.bodies == (if luck.deleted then s.bodies - {job.id} else s.bodies)
               && t.relayed == s.relayed + {job.id} && t.published == s.published
      ensures var c := s.handlers[h].copy;
              Handled(Waiting(s, c), t, c, h, verdict, luck)
    {
      var c := s.handlers[h].copy;
      var waiting := s.copies[c := s.copies[c].(holder := None)];
      assert waiting[c := waiting[c].(holder := Some(h))] == s.copies;
      assert waiting - {c} == s.copies - {c};
    }

    method CarryAccepted(h: nat, route: Route, verdict: Verdict, luck: Luck)
      requires Valid() && Routes(sys, h) && RouteMeans(route, verdict) && verdict.Accepted?
      modifies this
      ensures Valid() && old(trace) <= trace
      ensures sys.handlers == old(sys).handlers - {h}
      ensures Handled(Waiting(old(sys), old(sys).handlers[h].copy), sys, old(sys).handlers[h].copy, h, verdict, luck)
    {
      Rule(h, route, verdict);
      Relay(h, luck);
      RelayHandled(old(sys), sys, h, verdict, luck);
    }

    lemma AsideHandled(s: State, t: State, h: nat, verdict: Verdict, luck: Luck)
      requires Holds(s, h) && !verdict.Accepted? && !verdict.Interrupted?
      requires s.handlers[h].phase.Routing? && s.copies[s.handlers[h].copy].job == s.handlers[h].job
      requires var hd := s.handlers[h].(phase := if verdict.Postponed? then Deferring else Failing);
               && Gains(Settle(s.copies, hd.copy, luck), t.copies, Instead(hd))
               && (luck.sent ==> exists k :: k in t.copies && k >= s.next && t.copies[k] == Instead(hd))
               && t.rows == (if luck.committed then Logged(s.rows, hd.job.id, LogStatus(hd.phase)) else s.rows)
      requires t.bodies == s.bodies && t.relayed == s.relayed && t.published == s.published
      requires forall k :: k in s.copies ==> k < s.next
      ensures var c := s.handlers[h].copy;
              Handled(Waiting(s, c), t, c, h, verdict, luck)
    {
      var c := s.handlers[h].copy;
      var waiting := s.copies[c := s.copies[c].(holder := None)];
      assert Instead(s.handlers[h].(phase := if verdict.Postponed? then Deferring else Failing))
          == Successor(s.handlers[h].job, verdict);
      assert Settle(s.copies, c, luck) == Kept(waiting, c, h, Returns(verdict, luck), luck.acked);
    }

    method CarryAside(h: nat, route: Route, verdict: Verdict, luck: Luck)
      requires Valid() && Routes(sys, h) && RouteMeans(route, verdict) && (verdict.Postponed? || verdict.Refused?)
      modifies this
      ensures Valid() && old(trace) <= trace
      ensures sys.handlers == old(sys).handlers - {h}
      ensures Handled(Waiting(old(sys), old(sys).handlers[h].copy), sys, old(sys).handlers[h].copy, h, verdict, luck)
    {
      Keys();
      Rule(h, route, verdict);
      SetAside(h, luck);
      AsideHandled(old(sys), sys, h, verdict, luck);
    }

    /** The rest of `handle`, with the body in hand. */
    method Carry(c: nat, h: nat, route: Route, luck: Luck) returns (end: End, verdict: Verdict)
      requires Valid() && Routes(sys, h) && sys.handlers[h].copy == c
      modifies this
      ensures Valid() && old(trace) <= trace
      ensures sys.handlers == old(sys).handlers - {h}
      ensures Decides(route, verdict)
      ensures end == EndOf(verdict, luck)
      ensures Handled(Waiting(old(sys), c), sys, c, h, verdict, luck)
    {
      verdict := Choose(route);
      if verdict.Interrupted? {
        GiveBack(h);
      } else if verdict.Accepted? {
        CarryAccepted(h, route, verdict, luck);
      } else {
        CarryAside(h, if route == Chain([]) then NoRoute else route, verdict, luck);
      }
      end := EndOf(verdict, luck);
    }

    lemma TakenFrom(s: State, t: State, c: nat, h: nat)
      requires c in s.copies && s.copies[c].holder.None? && h !in s.handlers
      requires t == s.(next := t.next, copies := s.copies[c := s.copies[c].(holder := Some(h))],
                       handlers := s.handlers[h := Handler(c, s.copies[c].job, Routing)])
      ensures Waiting(t, c).copies == s.copies && t.handlers - {h} == s.handlers
    {
      assert t.copies[c := t.copies[c].(holder := None)] == s.copies;
    }

    /** Taking a copy changes nothing that `Handled` looks at. */
    lemma HandledSince(s: State, u: State, t: State, c: nat, tag: nat, verdict: Verdict, luck: Luck)
      requires c in s.copies && u.copies == s.copies && u.published == s.published
      requires u.rows == s.rows && u.bodies == s.bodies && u.relayed == s.relayed
      requires Handled(u, t, c, tag, verdict, luck)
      ensures Handled(s, t, c, tag, verdict, luck)
    {
    }

    /** `worker.handle` on a copy waiting in the work queue. With the body in hand, route and chain
        decide; without it the copy goes back. */
    method HandleDelivery(c: nat, route: Route, luck: Luck) returns (end: End, verdict: Verdict)
      requires Valid()
      requires c in sys.copies && sys.copies[c].holder.None? && sys.copies[c].queue.WorkQueue?
      modifies this
      ensures Valid() && old(trace) <= trace
      ensures sys.handlers == old(sys).handlers
      ensures if Fetches(old(sys), c, luck) then Decides(route, verdict) else verdict == Interrupted
      ensures end == EndOf(verdict, luck)
      ensures Handled(old(sys), sys, c, old(sys).next, verdict, luck)
    {
      var h, ok := Take(c, luck);
      if !ok {
        NotTaken(old(sys), sys, c, luck);
        return Returned, Interrupted;
      }
      ghost var taken := sys;
      end, verdict := Carry(c, h, route, luck);
      TakenFrom(old(sys), taken, c, h);
      HandledSince(old(sys), Waiting(taken, c), sys, c, h, verdict, luck);
    }

    /** The start of `gen.handle`: record the bounce, feed the suppression list. */
    method Note(c: nat, stored: set<string>, luck: Luck) returns (h: nat)
      requires Valid() && BrokerEnabled(sys, c, Receive) && stored <= Complaints(sys.copies[c].job)
      modifies this
      ensures Valid() && old(trace) <= trace
      ensures h == old(sys).next && h !in old(sys).handlers && Holds(sys, h)
      ensures var job := old(sys).copies[c].job;
              sys == old(sys).(
                next := old(sys).next + 1,
                copies := old(sys).copies[c := old(sys).copies[c].(holder := Some(h))],
                handlers := old(sys).handlers[h := Handler(c, job, Fed)],
                rows := if luck.committed then Logged(old(sys).rows, job.id, Bounced) else old(sys).rows,
                suppressed := old(sys).suppressed + stored)
    {
      Keys();
      h := sys.next;
      Do(Broker(c, Receive));
      Do(Work(h, Log(luck.committed)));
      Do(Work(h, Feed(stored)));
    }

    /** No notice is due: close the message. */
    method CloseSilently(h: nat, luck: Luck)
      requires Valid() && Holds(sys, h) && sys.handlers[h].phase.Fed? && NoNotice(sys.handlers[h].job)
      modifies this
      ensures Valid() && old(trace) <= trace
      ensures var job := old(sys).handlers[h].job;
              sys == old(sys).(
                handlers := old(sys).handlers - {h},
                copies := if luck.acked then old(sys).copies - {old(sys).handlers[h].copy} else old(sys).copies,
                silenced := old(sys).silenced + {job.id},
                bodies := if luck.deleted then old(sys).bodies - {job.id} else old(sys).bodies)
    {
      Do(Work(h, Silence));
      Do(Work(h, DropBody(luck.deleted)));
      Finish(h, luck.acked);
    }

    /** Store the DSN's body. */
    method StoreNotice(h: nat, dsn: Id)
      requires Valid() && Holds(sys, h) && sys.handlers[h].phase.Fed? && !NoNotice(sys.handlers[h].job)
      requires dsn !in sys.used
      modifies this
      ensures Valid() && old(trace) <= trace
      ensures dsn !in old(sys).published && dsn !in old(sys).rows
      ensures sys == old(sys).(
                handlers := old(sys).handlers[h := old(sys).handlers[h].(phase := DsnStored(dsn))],
                bodies := old(sys).bodies + {dsn}, used := old(sys).used + {dsn})
    {
      Unused(dsn);
      Do(Bounce(h, StoreDsn(dsn)));
    }

    /** Insert the DSN's row. */
    method InsertNotice(h: nat, dsn: Id)
      requires Valid() && Holds(sys, h) && sys.handlers[h].phase == DsnStored(dsn) && dsn !in sys.rows
      modifies this
      ensures Valid() && old(trace) <= trace
      ensures sys == old(sys).(
                handlers := old(sys).handlers[h := old(sys).handlers[h].(phase := DsnInserted(dsn))],
                rows := old(sys).rows[dsn := FRESH_ROW])
    {
      Do(Bounce(h, InsertDsn));
    }

    /** One publish of the DSN that reaches the broker. */
    method Tell(h: nat, sent: bool)
      requires Valid() && Enabled(sys, Notify(h, true))
      requires var hd := sys.handlers[h]; hd.phase.dsn in sys.published ==>
                 sys.published[hd.phase.dsn] == DsnJob(hd.phase.dsn, hd.job)
      modifies this
      ensures Valid() && old(trace) <= trace
      ensures var hd := old(sys).handlers[h];
              var j := DsnJob(hd.phase.dsn, hd.job);
              sys == Announced(old(sys), j, hd.job.id, true).(
                copies := old(sys).copies[old(sys).next := Copy(j, WorkQueue, None)], next := old(sys).next + 1,
                handlers := if sent then old(sys).handlers[h := hd.(phase := DsnSent(j.id))] else old(sys).handlers)
    {
      Do(Notify(h, sent));
    }

    lemma AnnouncedAgain(s: State, t: State, j: Job, about: Id)
      requires t == s || t == Announced(s, j, about, true).(copies := t.copies, next := t.next)
      ensures Announced(t, j, about, true)
              == Announced(s, j, about, true).(copies := t.copies, next := t.next, handlers := t.handlers)
    {
    }

    /** The publishes of the DSN that are not reported sent. */
    method RetryNotice(h: nat, tries: nat)
      requires Valid() && Enabled(sys, Notify(h, true)) && sys.handlers[h].phase.dsn !in sys.published
      modifies this
      ensures Valid() && old(trace) <= trace
      ensures AnnouncedSince(old(sys), sys, h, tries)
    {
      Keys();
      ghost var start, hd, j := sys, sys.handlers[h], DsnJob(sys.handlers[h].phase.dsn, sys.handlers[h].job);
      var n := 0;
      while n < tries
        invariant 0 <= n <= tries
        invariant Valid() && old(trace) <= trace && h in sys.handlers
        invariant AnnouncedSince(start, sys, h, n)
      {
        ghost var before := sys;
        Tell(h, false);
        AnnouncedAgain(start, before, j, hd.job.id);
        n := n + 1;
      }
    }

    /** Publish the DSN with retries until sent or out of time. */
    method PublishNotice(h: nat, luck: Luck)
      requires Valid() && Enabled(sys, Notify(h, true)) && sys.handlers[h].phase.dsn !in sys.published
      modifies this
      ensures Valid() && old(trace) <= trace
      ensures var hd := old(sys).handlers[h];
              var j := DsnJob(hd.phase.dsn, hd.job);
              && sys == Announced(old(sys), j, hd.job.id, luck.sent || luck.tries > 0).(
                   copies := sys.copies, next := sys.next, handlers := sys.handlers)
              && sys.handlers == old(sys).handlers[h := if luck.sent then hd.(phase := DsnSent(j.id)) else hd]
              && Gains(old(sys).copies, sys.copies, Copy(j, WorkQueue, None))
              && (luck.sent ==> Sends(sys, j))
    {
      ghost var start, hd, j := sys, sys.handlers[h], DsnJob(sys.handlers[h].phase.dsn, sys.handlers[h].job);
      assert start.handlers[h := hd] == start.handlers;
      RetryNotice(h, luck.tries);
      if luck.sent {
        ghost var before := sys;
        Tell(h, true);
        AnnouncedAgain(start, before, j, hd.job.id);
        assert sys.copies[before.next] == Copy(j, WorkQueue, None);
      }
    }

    /** The end of `gen.handle` after the DSN went out: delete the original's body, ack. */
    method CloseNotified(h: nat, luck: Luck)
      requires Valid() && Holds(sys, h) && sys.handlers[h].phase.DsnSent?
      modifies this
      ensures Valid() && old(trace) <= trace
      ensures sys == old(sys).(
                handlers := old(sys).handlers - {h},
                copies := if luck.acked then old(sys).copies - {old(sys).handlers[h].copy} else old(sys).copies,
                bodies := if luck.deleted then old(sys).bodies - {old(sys).handlers[h].job.id} else old(sys).bodies)
    {
      Do(Work(h, DropBody(luck.deleted)));
      Finish(h, luck.acked);
    }

    /** The DSN's copies survive the end of the copy it reports. */
    lemma NoticeStays(s: State, t: State, copies: map<nat, Copy>, h: nat, luck: Luck)
      requires Holds(s, h) && s.handlers[h].phase.DsnInserted? && s.handlers[h].copy in t.copies
      requires var x := Copy(DsnJob(s.handlers[h].phase.dsn, s.handlers[h].job), WorkQueue, None);
               && Gains(s.copies, t.copies, x)
               && (luck.sent ==> exists k :: k in t.copies && t.copies[k] == x)
               && copies == Settle(t.copies, s.handlers[h].copy, luck)
      ensures var x := Copy(DsnJob(s.handlers[h].phase.dsn, s.handlers[h].job), WorkQueue, None);
              var c := s.handlers[h].copy;
              && Gains(Kept(Waiting(s, c).copies, c, h, !luck.sent, luck.acked), copies, x)
              && (luck.sent ==> exists k :: k in copies && copies[k] == x)
    {
      if luck.sent {
        var x := Copy(DsnJob(s.handlers[h].phase.dsn, s.handlers[h].job), WorkQueue, None);
        var k :| k in t.copies && t.copies[k] == x;
        assert k != s.handlers[h].copy && k in copies;
      }
    }

    /** Publish the DSN whose body and row are in, then close the message it reports. */
    method Announce(h: nat, luck: Luck)
      requires Valid() && Holds(sys, h) && sys.handlers[h].phase.DsnInserted?
      requires sys.handlers[h].phase.dsn !in sys.published && sys.handlers[h].job.id != sys.handlers[h].phase.dsn
      modifies this
      ensures Valid() && old(trace) <= trace
      ensures sys.handlers == old(sys).handlers - {h} && sys.relayed == old(sys).relayed && sys.rows == old(sys).rows
      ensures sys.suppressed == old(sys).suppressed && sys.silenced == old(sys).silenced
      ensures sys.bodies == old(sys).bodies - (if luck.sent && luck.deleted then {old(sys).handlers[h].job.id} else {})
      ensures luck.sent ==>
                var hd := old(sys).handlers[h];
                && sys.published == old(sys).published[hd.phase.dsn := DsnJob(hd.phase.dsn, hd.job)]
                && sys.dsnOf == old(sys).dsnOf[hd.phase.dsn := hd.job.id]
                && Sends(sys, DsnJob(hd.phase.dsn, hd.job))
      ensures var hd := old(sys).handlers[h];
              Gains(Kept(Waiting(old(sys), hd.copy).copies, hd.copy, h, !luck.sent, luck.acked),
                    sys.copies, Copy(DsnJob(hd.phase.dsn, hd.job), WorkQueue, None))
    {
      ghost var s, hd := sys, sys.handlers[h];
      PublishNotice(h, luck);
      assert Holds(sys, h);
      ghost var t := sys;
      if luck.sent {
        CloseNotified(h, luck);
      } else {
        GiveBack(h);
      }
      NoticeStays(s, t, sys.copies, h, luck);
      assert sys.handlers == old(sys).handlers - {h};
    }

    /** Notify the sender: body, row, job of the DSN, then the original's body and ack. The first that
        fails gives the copy back; what was done before it stays. */
    method Inform(h: nat, dsn: Id, luck: Luck)
      requires Valid() && Holds(sys, h) && sys.handlers[h].phase.Fed? && !NoNotice(sys.handlers[h].job)
      requires dsn !in sys.used && sys.handlers[h].job.id != dsn
      modifies this
      ensures Valid() && old(trace) <= trace
      ensures sys.handlers == old(sys).handlers - {h} && sys.relayed == old(sys).relayed
      ensures sys.suppressed == old(sys).suppressed && sys.silenced == old(sys).silenced
      ensures sys.rows == if luck.readable && luck.inserted then old(sys).rows[dsn := FRESH_ROW] else old(sys).rows
      ensures sys.bodies == NoticeBodies(old(sys).bodies, old(sys).handlers[h].job.id, dsn, luck)
      ensures Informs(luck) ==>
                var hd := old(sys).handlers[h];
                && sys.published == old(sys).published[dsn := DsnJob(dsn, hd.job)]
                && sys.dsnOf == old(sys).dsnOf[dsn := hd.job.id]
                && Sends(sys, DsnJob(dsn, hd.job))
      ensures var hd := old(sys).handlers[h];
              Gains(Kept(Waiting(old(sys), hd.copy).copies, hd.copy, h, !Informs(luck), luck.acked),
                    sys.copies, Copy(DsnJob(dsn, hd.job), WorkQueue, None))
    {
      if !luck.readable {
        GiveBack(h);
        return;
      }
      StoreNotice(h, dsn);
      assert Holds(sys, h) && sys.handlers - {h} == old(sys).handlers - {h};
      if !luck.inserted {
        GiveBack(h);
        return;
      }
      InsertNotice(h, dsn);
      assert Holds(sys, h) && sys.handlers - {h} == old(sys).handlers - {h};
      Announce(h, luck);
    }

    /** `gen.handle` on a copy waiting in the dead-letter queue. */
    method HandleDeadLetter(c: nat, stored: set<string>, dsn: Id, luck: Luck) returns (end: End)
      requires Valid() && BrokerEnabled(sys, c, Receive) && stored <= Complaints(sys.copies[c].job)
      requires dsn !in sys.used && sys.copies[c].job.id != dsn
      modifies this
      ensures Valid() && old(trace) <= trace
      ensures sys.handlers == old(sys).handlers && sys.relayed == old(sys).relayed
      ensures sys.suppressed == old(sys).suppressed + stored
      // the bounce is recorded, and then possibly the notice
      ensures var rows := if luck.committed then Logged(old(sys).rows, old(sys).copies[c].job.id, Bounced)
                          else old(sys).rows;
              sys.rows == if NoNotice(old(sys).copies[c].job) || !luck.readable || !luck.inserted then rows
                          else rows[dsn := FRESH_ROW]
      // a bounce, or NOTIFY=NEVER: no DSN, and never a retry
      ensures NoNotice(old(sys).copies[c].job) ==>
                && !end.Returned? && !end.Moved? && sys.silenced == old(sys).silenced + {old(sys).copies[c].job.id}
                && sys.published == old(sys).published && sys.dsnOf == old(sys).dsnOf
                && sys.bodies == old(sys).bodies - (if luck.deleted then {old(sys).copies[c].job.id} else {})
                && sys.copies == Kept(old(sys).copies, c, old(sys).next, false, luck.acked)
      // otherwise a DSN to the sender goes out before the copy is acked
      ensures !NoNotice(old(sys).copies[c].job) ==>
                && sys.silenced == old(sys).silenced && !end.Done? && (end.Returned? <==> !Informs(luck))
                && sys.bodies == NoticeBodies(old(sys).bodies, old(sys).copies[c].job.id, dsn, luck)
      ensures !NoNotice(old(sys).copies[c].job) && !end.Returned? ==>
                && sys.published == old(sys).published[dsn := DsnJob(dsn, old(sys).copies[c].job)]
                && sys.dsnOf == old(sys).dsnOf[dsn := old(sys).copies[c].job.id]
                && Sends(sys, DsnJob(dsn, old(sys).copies[c].job))
      // copies: only the original is affected, and only copies of the DSN are new
      ensures !NoNotice(old(sys).copies[c].job) ==>
                Gains(Kept(old(sys).copies, c, old(sys).next, end.Returned?, luck.acked), sys.copies,
                      Copy(DsnJob(dsn, old(sys).copies[c].job), WorkQueue, None))
      ensures end.Dead? <==> !end.Returned? && !luck.acked
    {
      var h := Note(c, stored, luck);
      assert sys.handlers - {h} == old(sys).handlers;
      assert Waiting(sys, c).copies == old(sys).copies;
      if NoNotice(sys.handlers[h].job) {
        CloseSilently(h, luck);
        return if luck.acked then Done else Dead;
      }
      Inform(h, dsn, luck);
      end := if !Informs(luck) then Returned else if luck.acked then Moved else Dead;
    }

    /** The session fails, or its client goes away. */
    method Drop(id: Id)
      requires Valid() && id in sys.subs
      modifies this
      ensures Valid() && old(trace) <= trace
      ensures sys == old(sys).(subs := old(sys).subs - {id})
    {
      Do(Ingress(id, Abandon));
    }

    /** The body is stored. */
    method Store(id: Id)
      requires Valid() && IngressEnabled(sys, id, StoreBody)
      modifies this
      ensures Valid() && old(trace) <= trace
      ensures sys == old(sys).(subs := old(sys).subs[id := old(sys).subs[id].(phase := Stored)],
                               bodies := old(sys).bodies + {id})
    {
      Do(Ingress(id, StoreBody));
    }

    /** The body is too big. */
    method Refuse(id: Id, deleted: bool)
      requires Valid() && IngressEnabled(sys, id, RejectOversize(deleted))
      modifies this
      ensures Valid() && old(trace) <= trace
      ensures sys == old(sys).(subs := old(sys).subs - {id},
                               bodies := if deleted then old(sys).bodies - {id} else old(sys).bodies)
    {
      Do(Ingress(id, RejectOversize(deleted)));
    }

    /** The row is inserted; nothing of that name is published yet. */
    method Insert(id: Id)
      requires Valid() && id in sys.subs && sys.subs[id].phase.Stored?
      modifies this
      ensures Valid() && old(trace) <= trace && id !in sys.published
      ensures sys == old(sys).(subs := old(sys).subs[id := old(sys).subs[id].(phase := Inserted)],
                               rows := old(sys).rows[id := FRESH_ROW])
    {
      Unused(id);
      Do(Ingress(id, InsertRow));
    }

    lemma HandedAgain(s: State, t: State, j: Job, n: nat)
      requires j.id !in s.published && Handed(s, t, j, n)
      ensures Handed(s, Publish(t, j), j, n + 1)
    {
      assert Publish(t, j).copies[t.next].job.id == j.id;
    }

    /** The publishes that are not reported sent. */
    method Retry(id: Id, tries: nat)
      requires Valid() && Enabled(sys, Submit(id, true)) && id !in sys.published
      modifies this
      ensures Valid() && old(trace) <= trace
      ensures Handed(old(sys), sys, JobOf(id, old(sys).subs[id]), tries)
    {
      Keys();
      ghost var j := JobOf(id, sys.subs[id]);
      var n := 0;
      while n < tries
        invariant 0 <= n <= tries
        invariant Valid() && old(trace) <= trace
        invariant Handed(old(sys), sys, j, n)
      {
        HandedAgain(old(sys), sys, j, n);
        Do(Submit(id, false));
        n := n + 1;
      }
    }

    /** Publish the job with retries until sent or out of time. */
    method PublishSubmission(id: Id, luck: Luck)
      requires Valid() && Enabled(sys, Submit(id, true)) && id !in sys.published
      modifies this
      ensures Valid() && old(trace) <= trace
      ensures var j := JobOf(id, old(sys).subs[id]);
              && sys == old(sys).(
                   copies := sys.copies, next := sys.next,
                   subs := if luck.sent then old(sys).subs - {id} else old(sys).subs,
                   published := if luck.sent || luck.tries > 0 then old(sys).published[id := j] else old(sys).published)
              && Gains(old(sys).copies, sys.copies, Copy(j, WorkQueue, None))
              && (luck.sent ==> exists k :: k in sys.copies && sys.copies[k].job.id == id)
              && (!luck.sent && luck.tries == 0 ==> sys.copies == old(sys).copies)
    {
      Retry(id, luck.tries);
      ghost var tried, j := sys, JobOf(id, sys.subs[id]);
      if luck.sent {
        HandedAgain(old(sys), tried, j, luck.tries);
        Do(Submit(id, true));
      }
    }

    /** Row, then job, then the answer to the client. */
    method Enter(id: Id, luck: Luck)
      requires Valid() && id in sys.subs && sys.subs[id].phase.Stored?
      modifies this
      ensures Valid() && old(trace) <= trace
      ensures sys.subs == old(sys).subs - {id} && sys.handlers == old(sys).handlers
      ensures sys.bodies == old(sys).bodies && sys.rows == old(sys).rows[id := FRESH_ROW]
      ensures Gains(old(sys).copies, sys.copies, Copy(JobOf(id, old(sys).subs[id]), WorkQueue, None))
      ensures luck.sent ==>
                && sys.published == old(sys).published[id := JobOf(id, old(sys).subs[id])]
                && exists k :: k in sys.copies && sys.copies[k].job.id == id
    {
      Insert(id);
      assert sys.subs - {id} == old(sys).subs - {id};
      PublishSubmission(id, luck);
      if !luck.sent {
        Drop(id);
      }
    }

    /** `session.Data` on a session whose recipients are in: body, row, job, in that order. */
    method Data(id: Id, oversize: bool, luck: Luck) returns (accepted: bool)
      requires Valid() && id in sys.subs && sys.subs[id].phase.Envelope?
      modifies this
      ensures Valid() && old(trace) <= trace
      ensures sys.subs == old(sys).subs - {id} && sys.handlers == old(sys).handlers
      ensures accepted <==> luck.readable && !oversize && luck.inserted && luck.sent
      ensures sys.bodies == if !luck.readable then old(sys).bodies
                            else if oversize && luck.deleted then old(sys).bodies - {id}
                            else old(sys).bodies + {id}
      ensures sys.rows == if luck.readable && !oversize && luck.inserted then old(sys).rows[id := FRESH_ROW]
                          else old(sys).rows
      ensures Gains(old(sys).copies, sys.copies, Copy(JobOf(id, old(sys).subs[id]), WorkQueue, None))
      ensures accepted ==>
                && sys.published == old(sys).published[id := JobOf(id, old(sys).subs[id])]
                && exists k :: k in sys.copies && sys.copies[k].job.id == id
      ensures !luck.readable || oversize || !luck.inserted ==>
                sys.copies == old(sys).copies && sys.published == old(sys).published
    {
      if !luck.readable {
        Drop(id);
        return false;
      }
      Store(id);
      assert sys.subs - {id} == old(sys).subs - {id};
      if oversize {
        Refuse(id, luck.deleted);
        accepted := false;
      } else if !luck.inserted {
        Drop(id);
        accepted := false;
      } else {
        Enter(id, luck);
        accepted := luck.sent;
      }
    }
  }
}
