/** How often a job is replaced: every run's chains of replacements, and what they cost in time. */
module PipelineLineage {
  import opened Text
  import opened Pipeline
  import opened PipelineSafety
  import opened PipelineTheorems

  /** One copy is published in place of another. */
  predicate Follows(c: Copy, d: Copy)
  {
    && !c.queue.Dlq?
    && (d == Replacement(Handler(0, c.job, DeferLogged)) || d == Replacement(Handler(0, c.job, FailLogged)))
  }

  // ---- Chains of copies ------------------------------------------------------------------

  ghost predicate Chained(cs: seq<Copy>)
  {
    && cs != [] && Placed(cs[0])
    && forall k :: 0 < k < |cs| ==> Follows(cs[k - 1], cs[k])
  }

  /** Seconds a copy spends in its tier before it goes back to the work queue. */
  function Wait(c: Copy): nat
  {
    if c.queue.Tier? && 1 <= c.queue.level <= |TIERS| then TIERS[c.queue.level - 1] else 0
  }

  function Waits(cs: seq<Copy>): nat
  {
    if cs == [] then 0 else Waits(cs[..|cs| - 1]) + Wait(cs[|cs| - 1])
  }

  /** The tiers up to that attempt. */
  function WaitBefore(attempt: nat): nat
  {
    if attempt == 0 then 0
    else if attempt <= |TIERS| then WaitBefore(attempt - 1) + TIERS[attempt - 1]
    else WaitBefore(|TIERS|)
  }

  /** The last of n chained copies, after that many seconds in tiers. */
  predicate Shaped(c: Copy, n: nat, waited: nat)
  {
    if c.queue.Dlq? then n <= |TIERS| + 2 && waited <= WaitBefore(|TIERS|)
    else c.job.attempt <= |TIERS| && n <= c.job.attempt + 1 && waited <= WaitBefore(c.job.attempt)
  }

  lemma {:induction false} WaitGrows(attempt: nat)
    requires attempt <= |TIERS|
    ensures WaitBefore(attempt) <= WaitBefore(|TIERS|)
    decreases |TIERS| - attempt
  {
    if attempt < |TIERS| {
      WaitGrows(attempt + 1);
    }
  }

  lemma FollowsShape(c: Copy, d: Copy, n: nat, waited: nat)
    requires Shaped(c, n, waited) && Follows(c, d)
    ensures Shaped(d, n + 1, waited + Wait(d))
  {
    WaitGrows(c.job.attempt);
  }

  lemma {:induction false} ChainShape(cs: seq<Copy>)
    requires Chained(cs)
    ensures Shaped(cs[|cs| - 1], |cs|, Waits(cs))
    decreases |cs|
  {
    var n := |cs| - 1;
    if n > 0 {
      ChainShape(cs[..n]);
      FollowsShape(cs[n - 1], cs[n], n, Waits(cs[..n]));
    } else {
      assert Waits(cs[..0]) == 0;
      assert cs[0].queue.Tier? ==> Wait(cs[0]) <= WaitBefore(cs[0].job.attempt);
    }
  }

  // ---- Chains in a run -------------------------------------------------------------------

  /** What a run has put into the broker: every copy as it was published, under its key, and every pair
      of a copy handed to a handler and a copy that this handler published in its place. */
  datatype History = History(born: map<nat, Copy>, links: set<(nat, nat)>)

  predicate Publishes(a: Action)
  {
    a.Submit? || a.Replace? || a.Notify?
  }

  /** The copy a publishing step adds, under the key `s.next`. */
  function Added(s: State, a: Action): Copy
    requires Enabled(s, a) && Publishes(a)
  {
    match a
    case Submit(id, _) => Copy(JobOf(id, s.subs[id]), WorkQueue, None)
    case Replace(h, _) => Replacement(s.handlers[h])
    case Notify(h, _) => Copy(DsnJob(s.handlers[h].phase.dsn, s.handlers[h].job), WorkQueue, None)
  }

  function Record(s: State, hist: History, a: Action): History
    requires Enabled(s, a)
  {
    if Publishes(a) then
      History(hist.born[s.next := Added(s, a)],
              if a.Replace? then hist.links + {(s.handlers[a.h].copy, s.next)} else hist.links)
    else hist
  }

  function Recorded(s: State, hist: History, acts: seq<Action>): History
    requires Runs(s, acts)
    decreases |acts|
  {
    if acts == [] then hist else Recorded(Next(s, acts[0]), Record(s, hist, acts[0]), acts[1..])
  }

  /** The copy looks as it was published, but for its tier's expiry and its holder. */
  predicate StillThat(now: Copy, born: Copy)
  {
    now.job == born.job && (now.queue.Dlq? <==> born.queue.Dlq?)
  }

  /** Copies and handlers of the state are those of the history. */
  ghost predicate Remembers(s: State, hist: History)
  {
    && (forall k :: k in hist.born ==> k < s.next)
    && (forall c :: c in s.copies ==> c in hist.born && StillThat(s.copies[c], hist.born[c]))
    && (forall h :: h in s.handlers ==>
          var hd := s.handlers[h];
          hd.copy in hist.born && hist.born[hd.copy].job == hd.job
          && (hist.born[hd.copy].queue.Dlq? <==> OnDlq(hd.phase)))
  }

  /** Every replacement follows the copy it stands for. */
  ghost predicate Linked(hist: History)
  {
    && (forall k :: k in hist.born ==> Placed(hist.born[k]))
    && (forall c, d :: (c, d) in hist.links ==>
          c in hist.born && d in hist.born && Follows(hist.born[c], hist.born[d]))
  }

  /** Handlers at most change their phase. */
  ghost predicate OnlyPhases(s: State, t: State)
  {
    && t.handlers.Keys == s.handlers.Keys
    && forall h :: h in t.handlers ==>
         && t.handlers[h].copy == s.handlers[h].copy && t.handlers[h].job == s.handlers[h].job
         && (OnDlq(t.handlers[h].phase) <==> OnDlq(s.handlers[h].phase))
  }

  lemma NewCopy(s: State, t: State, hist: History, born: map<nat, Copy>, links: set<(nat, nat)>, x: Copy)
    requires Remembers(s, hist) && OnlyPhases(s, t)
    requires t.copies == s.copies[s.next := x] && t.next == s.next + 1 && born == hist.born[s.next := x]
    ensures Remembers(t, History(born, links))
  {
  }

  /** The steps that publish add exactly that copy. */
  lemma SubmitAdds(s: State, id: Id, sent: bool)
    requires id in s.subs
    ensures var t := SubmitNext(s, id, sent);
            && t.copies == s.copies[s.next := Copy(JobOf(id, s.subs[id]), WorkQueue, None)]
            && t.next == s.next + 1 && OnlyPhases(s, t)
  {
  }

  lemma ReplaceAdds(s: State, h: nat, sent: bool)
    requires h in s.handlers && (s.handlers[h].phase.DeferLogged? || s.handlers[h].phase.FailLogged?)
    ensures var t := ReplaceNext(s, h, sent);
            && t.copies == s.copies[s.next := Replacement(s.handlers[h])]
            && t.next == s.next + 1 && OnlyPhases(s, t)
  {
  }

  lemma NotifyAdds(s: State, h: nat, sent: bool)
    requires h in s.handlers && s.handlers[h].phase.DsnInserted?
    ensures var t := NotifyNext(s, h, sent);
            && t.copies == s.copies[s.next := Copy(DsnJob(s.handlers[h].phase.dsn, s.handlers[h].job), WorkQueue, None)]
            && t.next == s.next + 1 && OnlyPhases(s, t)
  {
  }

  lemma PublishAdds(s: State, a: Action)
    requires Enabled(s, a) && Publishes(a)
    ensures var t := Next(s, a);
            t.copies == s.copies[s.next := Added(s, a)] && t.next == s.next + 1 && OnlyPhases(s, t)
  {
    match a {
      case Submit(id, sent) => SubmitAdds(s, id, sent);
      case Replace(h, sent) => ReplaceAdds(s, h, sent);
      case Notify(h, sent) => NotifyAdds(s, h, sent);
    }
  }

  lemma Delivered(s: State, hist: History, c: nat, b: BrokerStep)
    requires BrokerEnabled(s, c, b) && Remembers(s, hist)
    ensures Remembers(BrokerNext(s, c, b), hist)
  {
  }

  lemma WorkedOn(s: State, hist: History, h: nat, w: WorkStep)
    requires InvClaims(s) && WorkEnabled(s, h, w) && Remembers(s, hist)
    ensures Remembers(WorkNext(s, h, w), hist)
  {
    WorkMoves(s, h, w);
  }

  lemma Left(s: State, hist: History, h: nat, e: ExitStep)
    requires ExitEnabled(s, h, e) && Remembers(s, hist)
    ensures Remembers(ExitNext(s, h, e), hist)
  {
  }

  lemma Prepared(s: State, hist: History, h: nat, d: DsnStep)
    requires DsnEnabled(s, h, d) && Remembers(s, hist)
    ensures Remembers(DsnNext(s, h, d), hist)
  {
  }

  lemma Entered(s: State, hist: History, id: Id, i: IngressStep)
    requires IngressEnabled(s, id, i) && Remembers(s, hist)
    ensures Remembers(IngressNext(s, id, i), hist)
  {
  }

  lemma SameBirths(s: State, hist: History, a: Action)
    requires InvClaims(s) && Enabled(s, a) && Remembers(s, hist) && !Publishes(a)
    ensures Remembers(Next(s, a), hist)
  {
    match a {
      case Broker(c, b) => Delivered(s, hist, c, b);
      case Work(h, w) => WorkedOn(s, hist, h, w);
      case Exit(h, e) => Left(s, hist, h, e);
      case Bounce(h, d) => Prepared(s, hist, h, d);
      case Ingress(id, i) => Entered(s, hist, id, i);
      case Reload(_) =>
    }
  }

  lemma ReplacementPlaced(h: Handler)
    requires h.phase.DeferLogged? || h.phase.FailLogged?
    requires h.job.attempt <= |TIERS|
    ensures Placed(Replacement(h))
  {
  }

  lemma BirthPlaced(s: State, a: Action)
    requires InvTiers(s) && Enabled(s, a) && Publishes(a)
    ensures Placed(Added(s, a))
  {
    if a.Replace? {
      ReplacementPlaced(s.handlers[a.h]);
    }
  }

  lemma OneMoreLink(hist: History, k: nat, x: Copy, c: nat)
    requires Linked(hist) && k !in hist.born && c in hist.born && Placed(x) && Follows(hist.born[c], x)
    ensures Linked(History(hist.born[k := x], hist.links + {(c, k)}))
  {
  }

  lemma OneMoreBirth(hist: History, k: nat, x: Copy)
    requires Linked(hist) && k !in hist.born && Placed(x)
    ensures Linked(History(hist.born[k := x], hist.links))
  {
  }

  lemma LinksKept(s: State, hist: History, a: Action)
    requires InvTiers(s) && Enabled(s, a) && Remembers(s, hist) && Linked(hist) && Publishes(a)
    ensures Linked(Record(s, hist, a))
  {
    var x := Added(s, a);
    BirthPlaced(s, a);
    assert s.next !in hist.born;
    if a.Replace? {
      var c := s.handlers[a.h].copy;
      assert Follows(hist.born[c], x);
      OneMoreLink(hist, s.next, x, c);
    } else {
      OneMoreBirth(hist, s.next, x);
    }
  }

  lemma {:induction false} RunRemembered(s: State, hist: History, acts: seq<Action>)
    requires Inv(s) && Runs(s, acts) && Remembers(s, hist) && Linked(hist)
    ensures Remembers(After(s, acts), Recorded(s, hist, acts)) && Linked(Recorded(s, hist, acts))
    decreases |acts|
  {
    if acts != [] {
      var a := acts[0];
      if Publishes(a) {
        var h := Record(s, hist, a);
        PublishAdds(s, a);
        NewCopy(s, Next(s, a), hist, h.born, h.links, Added(s, a));
        LinksKept(s, hist, a);
      } else {
        SameBirths(s, hist, a);
      }
      StepKeeps(s, a);
      RunRemembered(Next(s, a), Record(s, hist, a), acts[1..]);
    }
  }

  const NOTHING := History(map[], {})

  /** Keys of copies of which each was published in place of the one before. */
  ghost predicate ReplacementChain(hist: History, keys: seq<nat>)
  {
    && keys != [] && keys[0] in hist.born
    && forall i :: 0 < i < |keys| ==> (keys[i - 1], keys[i]) in hist.links
  }

  function Births(hist: History, keys: seq<nat>): (cs: seq<Copy>)
    requires forall k :: k in keys ==> k in hist.born
    ensures |cs| == |keys| && forall i :: 0 <= i < |cs| ==> cs[i] == hist.born[keys[i]]
  {
    seq(|keys|, i requires 0 <= i < |keys| => hist.born[keys[i]])
  }

  lemma ChainBorn(hist: History, keys: seq<nat>)
    requires Linked(hist) && ReplacementChain(hist, keys)
    ensures forall k :: k in keys ==> k in hist.born
    ensures Chained(Births(hist, keys))
  {
    forall i | 0 <= i < |keys|
      ensures keys[i] in hist.born
    {
      assert i > 0 ==> (keys[i - 1], keys[i]) in hist.links;
    }
    var cs := Births(hist, keys);
    forall i | 0 < i < |cs|
      ensures Follows(cs[i - 1], cs[i])
    {
      assert (keys[i - 1], keys[i]) in hist.links;
    }
  }

  lemma ChainBound(cs: seq<Copy>)
    requires Chained(cs)
    ensures |cs| <= 5 && Waits(cs) <= 2130 && (|cs| == 5 ==> cs[4].queue.Dlq?)
  {
    ChainShape(cs);
    assert WaitBefore(1) == 30 && WaitBefore(2) == 330 && WaitBefore(3) == 2130;
    if !cs[|cs| - 1].queue.Dlq? {
      WaitGrows(cs[|cs| - 1].job.attempt);
    }
  }

  /** In every run, with crashes and redeliveries: a chain of replacements has at most five members, of
      which the fifth is in the dead-letter queue, and spends at most 2130 seconds in tiers. So one
      lineage of a job has at most four copies that pass through a provider chain. */
  lemma LineageBound(acts: seq<Action>, keys: seq<nat>)
    requires Runs(INITIAL, acts) && ReplacementChain(Recorded(INITIAL, NOTHING, acts), keys)
    ensures forall k :: k in keys ==> k in Recorded(INITIAL, NOTHING, acts).born
    ensures var cs := Births(Recorded(INITIAL, NOTHING, acts), keys);
            && |cs| <= 5 && Waits(cs) <= 2130 && (|cs| == 5 ==> cs[4].queue.Dlq?)
  {
    InitialInv();
    RunRemembered(INITIAL, NOTHING, acts);
    var hist := Recorded(INITIAL, NOTHING, acts);
    ChainBorn(hist, keys);
    ChainBound(Births(hist, keys));
  }

  /** And the history is complete: every copy in the broker, and every copy a handler works on, was
      published with that job. */
  lemma HistoryIsComplete(acts: seq<Action>)
    requires Runs(INITIAL, acts)
    ensures Remembers(After(INITIAL, acts), Recorded(INITIAL, NOTHING, acts))
  {
    InitialInv();
    RunRemembered(INITIAL, NOTHING, acts);
  }
}
