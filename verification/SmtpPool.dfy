/** The smarthost provider's pool of warm connections, under any number of concurrent sends and
    closes. The mutex covers only the idle list and the closed flag; probing, sending and closing a
    connection happen outside it. */
module SmtpPool {
  import opened Text

  /** What the mutex guards. */
  datatype Guarded = Guarded(idle: seq<nat>, closed: bool)

  /** The three critical sections. */
  function Pop(g: Guarded): (Option<nat>, Guarded)
  {
    if g.idle == [] then (None, g)
    else (Some(g.idle[|g.idle| - 1]), g.(idle := g.idle[..|g.idle| - 1]))
  }

  function Push(g: Guarded, c: nat, max: nat): (bool, Guarded)
  {
    if g.closed || |g.idle| >= max then (false, g) else (true, g.(idle := g.idle + [c]))
  }

  function Drain(g: Guarded): (seq<nat>, Guarded)
  {
    (g.idle, Guarded([], true))
  }

  /** A connection as its socket and its SMTP session stand. */
  datatype Wire = Wire(open: bool, greeted: bool, inMail: bool, deadline: bool)

  datatype Then = Retry | Finish(delivered: bool)

  /** Where a Send is. */
  datatype Phase =
    | Asking | Popped(c: nat) | Probing(c: nat) | Dialling | Greeting(c: nat)
    | Ready(c: nat) | Sent(c: nat) | Releasing(c: nat) | Offering(c: nat)
    | Dropping(c: nat, next: Then) | Over(delivered: bool)

  datatype Sender = Sender(phase: Phase, timed: bool)

  datatype Pool = Pool(
    guarded: Guarded,
    max: nat,
    wires: map<nat, Wire>,
    senders: map<nat, Sender>,
    drains: map<nat, seq<nat>>)

  datatype Action =
    | Arrive(s: nat, timed: bool)
    | Ask(s: nat)
    | Arm(s: nat)
    | Noop(s: nat, alive: bool)
    | Dial(s: nat, wire: Option<nat>)
    | Greet(s: nat, ok: bool)
    | Mail(s: nat, ok: bool)
    | Reset(s: nat, ok: bool)
    | Disarm(s: nat)
    | Offer(s: nat)
    | Drop(s: nat)
    | Close(d: nat)
    | DrainOne(d: nat)

  predicate Enabled(p: Pool, a: Action)
  {
    match a
    case Arrive(s, _) => s !in p.senders
    case Close(d) => d !in p.drains
    case DrainOne(d) => d in p.drains && p.drains[d] != []
    case _ =>
      && a.s in p.senders
      && var ph := p.senders[a.s].phase;
         match a
         case Ask(_) => ph.Asking?
         case Arm(_) => ph.Popped?
         case Noop(_, _) => ph.Probing?
         case Dial(_, wire) => ph.Dialling? && (wire.Some? ==> wire.value !in p.wires)
         case Greet(_, _) => ph.Greeting?
         case Mail(_, _) => ph.Ready?
         case Reset(_, _) => ph.Sent?
         case Disarm(_) => ph.Releasing?
         case Offer(_) => ph.Offering?
         case _ => ph.Dropping?
  }

  function Goto(p: Pool, s: nat, ph: Phase): Pool
    requires s in p.senders
  {
    p.(senders := p.senders[s := p.senders[s].(phase := ph)])
  }

  function Set(p: Pool, c: nat, w: Wire): Pool
  {
    p.(wires := p.wires[c := w])
  }

  function Uses(ph: Phase): Option<nat>
  {
    match ph
    case Asking => None
    case Dialling => None
    case Over(_) => None
    case Popped(c) => Some(c)
    case Probing(c) => Some(c)
    case Greeting(c) => Some(c)
    case Ready(c) => Some(c)
    case Sent(c) => Some(c)
    case Releasing(c) => Some(c)
    case Offering(c) => Some(c)
    case Dropping(c, _) => Some(c)
  }

  /** Every sender works on an existing wire. */
  predicate Wired(p: Pool)
  {
    && (forall s :: s in p.senders && Uses(p.senders[s].phase).Some? ==> Uses(p.senders[s].phase).value in p.wires)
    && (forall d :: d in p.drains ==> forall k :: 0 <= k < |p.drains[d]| ==> p.drains[d][k] in p.wires)
  }

  function SendNext(p: Pool, a: Action): Pool
    requires Wired(p) && Enabled(p, a) && !a.Arrive? && !a.Close? && !a.DrainOne?
  {
    var ph, timed := p.senders[a.s].phase, p.senders[a.s].timed;
    match a
    case Ask(s) =>
      var (c, g) := Pop(p.guarded);
      Goto(p, s, if c.Some? then Popped(c.value) else Dialling).(guarded := g)
    case Arm(s) => Goto(Set(p, ph.c, p.wires[ph.c].(deadline := p.wires[ph.c].deadline || timed)), s, Probing(ph.c))
    case Noop(s, alive) => Goto(p, s, if alive then Ready(ph.c) else Dropping(ph.c, Retry))
    case Dial(s, wire) =>
      if wire.None? then Goto(p, s, Over(false))
      else Goto(Set(p, wire.value, Wire(true, false, false, timed)), s, Greeting(wire.value))
    case Greet(s, ok) =>
      if ok then Goto(Set(p, ph.c, p.wires[ph.c].(greeted := true)), s, Ready(ph.c))
      else Goto(p, s, Dropping(ph.c, Finish(false)))
    case Mail(s, ok) =>
      Goto(Set(p, ph.c, p.wires[ph.c].(inMail := true)), s, if ok then Sent(ph.c) else Dropping(ph.c, Finish(false)))
    case Reset(s, ok) =>
      if ok then Goto(Set(p, ph.c, p.wires[ph.c].(inMail := false)), s, Releasing(ph.c))
      else Goto(p, s, Dropping(ph.c, Finish(true)))
    case Disarm(s) => Goto(Set(p, ph.c, p.wires[ph.c].(deadline := false)), s, Offering(ph.c))
    case Offer(s) =>
      var (kept, g) := Push(p.guarded, ph.c, p.max);
      Goto(p, s, if kept then Over(true) else Dropping(ph.c, Finish(true))).(guarded := g)
    case Drop(s) =>
      Goto(Set(p, ph.c, p.wires[ph.c].(open := false)), s, if ph.next.Retry? then Asking else Over(ph.next.delivered))
  }

  function Next(p: Pool, a: Action): Pool
    requires Wired(p) && Enabled(p, a)
  {
    match a
    case Arrive(s, timed) => p.(senders := p.senders[s := Sender(Asking, timed)])
    case Close(d) =>
      var (taken, g) := Drain(p.guarded);
      p.(guarded := g, drains := p.drains[d := taken])
    case DrainOne(d) =>
      var c := p.drains[d][0];
      Set(p, c, p.wires[c].(open := false)).(drains := p.drains[d := p.drains[d][1..]])
    case _ => SendNext(p, a)
  }

  // ---- The invariant ---------------------------------------------------------------------

  predicate Idle(p: Pool, c: nat)
  {
    c in p.guarded.idle
  }

  predicate HeldBy(p: Pool, s: nat, c: nat)
  {
    s in p.senders && Uses(p.senders[s].phase) == Some(c)
  }

  predicate DrainedBy(p: Pool, d: nat, c: nat)
  {
    d in p.drains && c in p.drains[d]
  }

  predicate Distinct(cs: seq<nat>)
  {
    forall i, j :: 0 <= i < j < |cs| ==> cs[i] != cs[j]
  }

  /** Nobody shares a connection. */
  ghost predicate InvApart(p: Pool)
  {
    && Distinct(p.guarded.idle)
    && (forall s :: s in p.senders && Uses(p.senders[s].phase).Some? ==> !Idle(p, Uses(p.senders[s].phase).value))
    && (forall s, t :: s in p.senders && t in p.senders && Uses(p.senders[s].phase).Some?
          && Uses(p.senders[s].phase) == Uses(p.senders[t].phase)
          ==> s == t)
  }

  ghost predicate InvDrains(p: Pool)
  {
    && (forall d :: d in p.drains ==> Distinct(p.drains[d]))
    && (forall d, c :: d in p.drains && c in p.drains[d] ==> !Idle(p, c))
    && (forall d, e, c :: d in p.drains && e in p.drains && c in p.drains[d] && c in p.drains[e] ==> d == e)
    && (forall s, d :: s in p.senders && d in p.drains && Uses(p.senders[s].phase).Some? ==>
          Uses(p.senders[s].phase).value !in p.drains[d])
  }

  /** Whoever has a connection has an open one. */
  ghost predicate InvOpen(p: Pool)
    requires Wired(p)
  {
    && (forall c :: c in p.guarded.idle ==> c in p.wires && p.wires[c].open)
    && (forall s :: s in p.senders && Uses(p.senders[s].phase).Some? ==> p.wires[Uses(p.senders[s].phase).value].open)
    && (forall d, c :: d in p.drains && c in p.drains[d] ==> p.wires[c].open)
  }

  ghost predicate Somewhere(p: Pool, c: nat)
  {
    Idle(p, c) || (exists s :: HeldBy(p, s, c)) || (exists d :: DrainedBy(p, d, c))
  }

  /** Every open connection is somewhere. */
  ghost predicate InvKept(p: Pool)
  {
    forall c :: c in p.wires && p.wires[c].open ==> Somewhere(p, c)
  }

  predicate Fit(ph: Phase, w: Wire)
  {
    match ph
    case Popped(_) => w.greeted && !w.inMail && !w.deadline
    case Probing(_) => w.greeted && !w.inMail
    case Greeting(_) => !w.greeted && !w.inMail
    case Ready(_) => w.greeted && !w.inMail
    case Sent(_) => w.greeted
    case Releasing(_) => w.greeted && !w.inMail
    case Offering(_) => w.greeted && !w.inMail && !w.deadline
    case _ => true
  }

  ghost predicate InvFit(p: Pool)
    requires Wired(p)
  {
    && (forall c :: c in p.guarded.idle && c in p.wires ==>
          p.wires[c].greeted && !p.wires[c].inMail && !p.wires[c].deadline)
    && (forall s :: s in p.senders && Uses(p.senders[s].phase).Some? ==>
          Fit(p.senders[s].phase, p.wires[Uses(p.senders[s].phase).value]))
  }

  ghost predicate InvGuarded(p: Pool)
  {
    |p.guarded.idle| <= p.max && (p.guarded.closed ==> p.guarded.idle == [])
  }

  ghost predicate Inv(p: Pool)
  {
    Wired(p) && InvApart(p) && InvDrains(p) && InvOpen(p) && InvKept(p) && InvFit(p) && InvGuarded(p)
  }

  // ---- Preservation ----------------------------------------------------------------------

  /** An action of a running Send. */
  predicate OfSend(a: Action)
  {
    !a.Arrive? && !a.Close? && !a.DrainOne?
  }

  // What a step of a Send can do, seen from outside.

  /** Only this sender moves on. */
  predicate Only(p: Pool, q: Pool, s: nat)
  {
    && s in p.senders && s in q.senders && q.senders == p.senders[s := q.senders[s]]
    && q.drains == p.drains && q.max == p.max
  }

  function Using(p: Pool, s: nat): Option<nat>
    requires s in p.senders
  {
    Uses(p.senders[s].phase)
  }

  /** It has no connection, before or after. */
  predicate Waits(p: Pool, q: Pool, s: nat)
  {
    Only(p, q, s) && Using(p, s).None? && Using(q, s).None? && q.guarded == p.guarded && q.wires == p.wires
  }

  /** It goes on with its connection. */
  predicate Works(p: Pool, q: Pool, s: nat, c: nat)
  {
    && Only(p, q, s) && Using(p, s) == Using(q, s) == Some(c) && q.guarded == p.guarded
    && c in p.wires && c in q.wires && q.wires == p.wires[c := q.wires[c]] && q.wires[c].open == p.wires[c].open
    && (Fit(p.senders[s].phase, p.wires[c]) ==> Fit(q.senders[s].phase, q.wires[c]))
  }

  /** It takes the newest idle connection. */
  predicate Takes(p: Pool, q: Pool, s: nat, c: nat)
  {
    && Only(p, q, s) && Using(p, s).None? && q.senders[s].phase == Popped(c) && q.wires == p.wires
    && p.guarded.idle == q.guarded.idle + [c] && q.guarded.closed == p.guarded.closed
  }

  /** It has opened a new one. */
  predicate Dials(p: Pool, q: Pool, s: nat, c: nat)
  {
    && Only(p, q, s) && Using(p, s).None? && q.senders[s].phase == Greeting(c) && q.guarded == p.guarded
    && c !in p.wires && c in q.wires && q.wires == p.wires[c := q.wires[c]]
    && q.wires[c].open && !q.wires[c].greeted && !q.wires[c].inMail
  }

  /** It puts its connection back. */
  predicate Parks(p: Pool, q: Pool, s: nat, c: nat)
  {
    && Only(p, q, s) && p.senders[s].phase == Offering(c) && Using(q, s).None? && q.wires == p.wires
    && !p.guarded.closed && |p.guarded.idle| < p.max && q.guarded == Guarded(p.guarded.idle + [c], false)
  }

  /** It closes its connection. */
  predicate Drops(p: Pool, q: Pool, s: nat, c: nat)
  {
    && Only(p, q, s) && Using(p, s) == Some(c) && Using(q, s).None? && q.guarded == p.guarded
    && c in p.wires && q.wires == p.wires[c := p.wires[c].(open := false)]
  }

  lemma WaitsKeepsApart(p: Pool, q: Pool, s: nat)
    requires Wired(p) && InvGuarded(p) && InvOpen(p) && InvApart(p) && Waits(p, q, s)
    ensures Wired(q) && InvGuarded(q) && InvApart(q)
    ensures forall x :: Idle(q, x) <==> Idle(p, x)
  {
  }

  lemma WaitsKeepsDrains(p: Pool, q: Pool, s: nat)
    requires Wired(p) && InvApart(p) && InvOpen(p) && InvDrains(p) && Waits(p, q, s)
    requires forall x :: Idle(q, x) <==> Idle(p, x)
    ensures InvDrains(q)
  {
  }

  lemma WaitsKeepsFit(p: Pool, q: Pool, s: nat)
    requires Wired(p) && Wired(q) && InvApart(p) && InvDrains(p) && InvOpen(p) && InvFit(p) && Waits(p, q, s)
    ensures InvOpen(q) && InvFit(q)
  {
  }

  lemma SenderKeepsKept(p: Pool, q: Pool, s: nat)
    requires InvKept(p) && Only(p, q, s)
    requires forall c :: c in q.wires && q.wires[c].open ==> (c in p.wires && p.wires[c].open) || HeldBy(q, s, c)
    requires forall c :: Idle(p, c) ==> Idle(q, c) || HeldBy(q, s, c)
    requires forall c :: HeldBy(p, s, c) && c in q.wires && q.wires[c].open ==> Idle(q, c) || HeldBy(q, s, c)
    ensures InvKept(q)
  {
    forall c | c in q.wires && q.wires[c].open
      ensures Somewhere(q, c)
    {
      if !HeldBy(q, s, c) && !Idle(q, c) {
        if r :| HeldBy(p, r, c) {
          assert r != s && HeldBy(q, r, c);
        } else {
          var d :| DrainedBy(p, d, c);
          assert DrainedBy(q, d, c);
        }
      }
    }
  }

  lemma WaitsKeeps(p: Pool, q: Pool, s: nat)
    requires Inv(p) && Waits(p, q, s)
    ensures Inv(q)
  {
    WaitsKeepsApart(p, q, s);
    WaitsKeepsDrains(p, q, s);
    WaitsKeepsFit(p, q, s);
    SenderKeepsKept(p, q, s);
  }

  lemma WorksKeepsApart(p: Pool, q: Pool, s: nat, c: nat)
    requires Wired(p) && InvGuarded(p) && InvOpen(p) && InvApart(p) && Works(p, q, s, c)
    ensures Wired(q) && InvGuarded(q) && InvApart(q)
    ensures forall x :: Idle(q, x) <==> Idle(p, x)
  {
  }

  lemma WorksKeepsDrains(p: Pool, q: Pool, s: nat, c: nat)
    requires Wired(p) && InvApart(p) && InvOpen(p) && InvDrains(p) && Works(p, q, s, c)
    requires forall x :: Idle(q, x) <==> Idle(p, x)
    ensures InvDrains(q)
  {
  }

  lemma WorksKeepsFit(p: Pool, q: Pool, s: nat, c: nat)
    requires Wired(p) && Wired(q) && InvApart(p) && InvDrains(p) && InvOpen(p) && InvFit(p) && Works(p, q, s, c)
    ensures InvOpen(q) && InvFit(q)
  {
  }

  lemma WorksKeeps(p: Pool, q: Pool, s: nat, c: nat)
    requires Inv(p) && Works(p, q, s, c)
    ensures Inv(q)
  {
    WorksKeepsApart(p, q, s, c);
    WorksKeepsDrains(p, q, s, c);
    WorksKeepsFit(p, q, s, c);
    SenderKeepsKept(p, q, s);
  }

  /** The connection taken was idle, and no longer is. */
  lemma TakesIdle(p: Pool, q: Pool, s: nat, c: nat)
    requires Distinct(p.guarded.idle) && Takes(p, q, s, c)
    ensures Distinct(q.guarded.idle) && Idle(p, c) && !Idle(q, c)
    ensures forall x :: Idle(p, x) <==> Idle(q, x) || x == c
  {
    var n := |q.guarded.idle|;
    assert p.guarded.idle[n] == c && p.guarded.idle[..n] == q.guarded.idle;
    assert forall i :: 0 <= i < n ==> q.guarded.idle[i] == p.guarded.idle[i];
  }

  lemma TakesKeepsApart(p: Pool, q: Pool, s: nat, c: nat)
    requires Wired(p) && InvGuarded(p) && InvOpen(p) && InvApart(p) && Takes(p, q, s, c)
    requires Distinct(q.guarded.idle) && Idle(p, c) && !Idle(q, c)
    requires forall x :: Idle(p, x) <==> Idle(q, x) || x == c
    ensures Wired(q) && InvGuarded(q) && InvApart(q)
  {
  }

  lemma TakesKeepsDrains(p: Pool, q: Pool, s: nat, c: nat)
    requires InvDrains(p) && Takes(p, q, s, c) && Idle(p, c)
    requires forall x :: Idle(p, x) <==> Idle(q, x) || x == c
    ensures InvDrains(q)
  {
  }

  lemma TakesKeepsFit(p: Pool, q: Pool, s: nat, c: nat)
    requires Wired(p) && Wired(q) && InvApart(p) && InvDrains(p) && InvOpen(p) && InvFit(p) && Takes(p, q, s, c)
    ensures InvOpen(q) && InvFit(q)
  {
  }

  lemma TakesKeeps(p: Pool, q: Pool, s: nat, c: nat)
    requires Inv(p) && Takes(p, q, s, c)
    ensures Inv(q)
  {
    TakesIdle(p, q, s, c);
    TakesKeepsApart(p, q, s, c);
    TakesKeepsDrains(p, q, s, c);
    TakesKeepsFit(p, q, s, c);
    SenderKeepsKept(p, q, s);
  }

  lemma DialsKeepsApart(p: Pool, q: Pool, s: nat, c: nat)
    requires Wired(p) && InvGuarded(p) && InvOpen(p) && InvApart(p) && Dials(p, q, s, c)
    ensures Wired(q) && InvGuarded(q) && InvApart(q)
    ensures forall x :: Idle(q, x) <==> Idle(p, x)
  {
  }

  lemma DialsKeepsDrains(p: Pool, q: Pool, s: nat, c: nat)
    requires Wired(p) && InvApart(p) && InvOpen(p) && InvDrains(p) && Dials(p, q, s, c)
    requires forall x :: Idle(q, x) <==> Idle(p, x)
    ensures InvDrains(q)
  {
  }

  lemma DialsKeepsFit(p: Pool, q: Pool, s: nat, c: nat)
    requires Wired(p) && Wired(q) && InvApart(p) && InvDrains(p) && InvOpen(p) && InvFit(p) && Dials(p, q, s, c)
    ensures InvOpen(q) && InvFit(q)
  {
  }

  lemma DialsKeeps(p: Pool, q: Pool, s: nat, c: nat)
    requires Inv(p) && Dials(p, q, s, c)
    ensures Inv(q)
  {
    DialsKeepsApart(p, q, s, c);
    DialsKeepsDrains(p, q, s, c);
    DialsKeepsFit(p, q, s, c);
    SenderKeepsKept(p, q, s);
  }

  lemma ParksKeepsApart(p: Pool, q: Pool, s: nat, c: nat)
    requires Wired(p) && InvGuarded(p) && InvOpen(p) && InvApart(p) && Parks(p, q, s, c)
    ensures Wired(q) && InvGuarded(q) && InvApart(q)
    ensures forall x :: Idle(q, x) <==> Idle(p, x) || x == c
  {
  }

  lemma ParksKeepsDrains(p: Pool, q: Pool, s: nat, c: nat)
    requires Wired(p) && InvApart(p) && InvOpen(p) && InvDrains(p) && Parks(p, q, s, c)
    requires forall x :: Idle(q, x) <==> Idle(p, x) || x == c
    ensures InvDrains(q)
  {
  }

  lemma ParksKeepsFit(p: Pool, q: Pool, s: nat, c: nat)
    requires Wired(p) && Wired(q) && InvApart(p) && InvDrains(p) && InvOpen(p) && InvFit(p) && Parks(p, q, s, c)
    ensures InvOpen(q) && InvFit(q)
  {
  }

  lemma ParksKeeps(p: Pool, q: Pool, s: nat, c: nat)
    requires Inv(p) && Parks(p, q, s, c)
    ensures Inv(q)
  {
    ParksKeepsApart(p, q, s, c);
    ParksKeepsDrains(p, q, s, c);
    ParksKeepsFit(p, q, s, c);
    SenderKeepsKept(p, q, s);
  }

  lemma DropsKeepsApart(p: Pool, q: Pool, s: nat, c: nat)
    requires Wired(p) && InvGuarded(p) && InvOpen(p) && InvApart(p) && Drops(p, q, s, c)
    ensures Wired(q) && InvGuarded(q) && InvApart(q)
    ensures forall x :: Idle(q, x) <==> Idle(p, x)
  {
  }

  lemma DropsKeepsDrains(p: Pool, q: Pool, s: nat, c: nat)
    requires Wired(p) && InvApart(p) && InvOpen(p) && InvDrains(p) && Drops(p, q, s, c)
    requires forall x :: Idle(q, x) <==> Idle(p, x)
    ensures InvDrains(q)
  {
  }

  lemma DropsKeepsFit(p: Pool, q: Pool, s: nat, c: nat)
    requires Wired(p) && Wired(q) && InvApart(p) && InvDrains(p) && InvOpen(p) && InvFit(p) && Drops(p, q, s, c)
    ensures InvOpen(q) && InvFit(q)
  {
  }

  lemma DropsKeeps(p: Pool, q: Pool, s: nat, c: nat)
    requires Inv(p) && Drops(p, q, s, c)
    ensures Inv(q)
  {
    DropsKeepsApart(p, q, s, c);
    DropsKeepsDrains(p, q, s, c);
    DropsKeepsFit(p, q, s, c);
    SenderKeepsKept(p, q, s);
  }

  /** Who has what is the same, but for connections of which q has closed one. */
  lemma SameKept(p: Pool, q: Pool)
    requires InvKept(p)
    requires forall c :: c in q.wires && q.wires[c].open ==> c in p.wires && p.wires[c].open
    requires forall c :: Idle(p, c) && c in q.wires && q.wires[c].open ==> Somewhere(q, c)
    requires forall s, c :: HeldBy(p, s, c) ==> HeldBy(q, s, c)
    requires forall d, c :: DrainedBy(p, d, c) && c in q.wires && q.wires[c].open ==> DrainedBy(q, d, c)
    ensures InvKept(q)
  {
    forall c | c in q.wires && q.wires[c].open
      ensures Somewhere(q, c)
    {
      if s :| HeldBy(p, s, c) {
        assert HeldBy(q, s, c);
      } else if d :| DrainedBy(p, d, c) {
        assert DrainedBy(q, d, c);
      }
    }
  }

  predicate Arrives(p: Pool, q: Pool, s: nat)
  {
    && s !in p.senders && s in q.senders && q.senders == p.senders[s := q.senders[s]] && Using(q, s).None?
    && q == p.(senders := q.senders)
  }

  lemma ArriveKeepsOwners(p: Pool, q: Pool, s: nat)
    requires Wired(p) && InvGuarded(p) && InvApart(p) && InvDrains(p) && Arrives(p, q, s)
    ensures Wired(q) && InvGuarded(q) && InvApart(q) && InvDrains(q)
  {
    assert forall x :: Idle(q, x) <==> Idle(p, x);
  }

  lemma ArriveKeepsOpen(p: Pool, q: Pool, s: nat)
    requires Wired(p) && Wired(q) && InvOpen(p) && InvFit(p) && InvKept(p) && Arrives(p, q, s)
    ensures InvOpen(q) && InvFit(q) && InvKept(q)
  {
    SameKept(p, q);
  }

  /** The drain with its first connection closed. */
  predicate Closes(p: Pool, q: Pool, d: nat, c: nat)
  {
    && d in p.drains && d in q.drains && p.drains[d] == [c] + q.drains[d] && q.drains == p.drains[d := q.drains[d]]
    && c in p.wires && q.wires == p.wires[c := p.wires[c].(open := false)]
    && q.guarded == p.guarded && q.senders == p.senders && q.max == p.max
  }

  lemma ClosesOne(p: Pool, q: Pool, d: nat, c: nat)
    requires InvDrains(p) && Closes(p, q, d, c)
    ensures c in p.drains[d] && c !in q.drains[d] && Distinct(q.drains[d])
    ensures forall e, x :: e in q.drains && x in q.drains[e] ==> x in p.drains[e] && x != c
    ensures forall e, x :: e in p.drains && x in p.drains[e] && x != c ==> x in q.drains[e]
    ensures forall x :: Idle(q, x) <==> Idle(p, x)
    ensures !Idle(p, c)
    ensures forall k :: 0 <= k < |q.drains[d]| ==> q.drains[d][k] == p.drains[d][k + 1]
  {
    var rest := q.drains[d];
    assert p.drains[d][0] == c && forall k :: 0 <= k < |rest| ==> rest[k] == p.drains[d][k + 1];
  }

  lemma ClosesKeepsOwners(p: Pool, q: Pool, d: nat, c: nat)
    requires Wired(p) && InvGuarded(p) && InvApart(p) && InvDrains(p) && Closes(p, q, d, c)
    ensures Wired(q) && InvGuarded(q) && InvApart(q) && InvDrains(q)
  {
    ClosesOne(p, q, d, c);
  }

  lemma ClosesKeepsOpen(p: Pool, q: Pool, d: nat, c: nat)
    requires Wired(p) && Wired(q) && InvDrains(p) && InvOpen(p) && InvFit(p) && Closes(p, q, d, c)
    ensures InvOpen(q) && InvFit(q)
  {
    ClosesOne(p, q, d, c);
  }

  lemma ClosesKeepsKept(p: Pool, q: Pool, d: nat, c: nat)
    requires InvDrains(p) && InvKept(p) && Closes(p, q, d, c)
    ensures InvKept(q)
  {
    ClosesOne(p, q, d, c);
    SameKept(p, q);
  }

  /** The idle list handed to a closing caller. */
  predicate Drains(p: Pool, q: Pool, d: nat)
  {
    && d !in p.drains && q.drains == p.drains[d := p.guarded.idle] && q.guarded == Guarded([], true)
    && q.wires == p.wires && q.senders == p.senders && q.max == p.max
  }

  lemma DrainsKeepsOwners(p: Pool, q: Pool, d: nat)
    requires Wired(p) && InvApart(p) && InvDrains(p) && InvOpen(p) && Drains(p, q, d)
    ensures Wired(q) && InvGuarded(q) && InvApart(q) && InvDrains(q)
  {
    assert forall x :: x in q.drains[d] <==> Idle(p, x);
  }

  lemma DrainsKeepsOpen(p: Pool, q: Pool, d: nat)
    requires Wired(p) && Wired(q) && InvOpen(p) && InvFit(p) && InvKept(p) && Drains(p, q, d)
    ensures InvOpen(q) && InvFit(q) && InvKept(q)
  {
    assert forall x :: DrainedBy(q, d, x) <==> Idle(p, x);
    SameKept(p, q);
  }

  lemma AskKeeps(p: Pool, a: Action)
    requires Inv(p) && Enabled(p, a) && a.Ask?
    ensures Inv(SendNext(p, a))
  {
    var q := SendNext(p, a);
    if p.guarded.idle == [] {
      WaitsKeeps(p, q, a.s);
    } else {
      TakesKeeps(p, q, a.s, p.guarded.idle[|p.guarded.idle| - 1]);
    }
  }

  lemma DialKeeps(p: Pool, a: Action)
    requires Inv(p) && Enabled(p, a) && a.Dial?
    ensures Inv(SendNext(p, a))
  {
    var q := SendNext(p, a);
    if a.wire.None? {
      WaitsKeeps(p, q, a.s);
    } else {
      DialsKeeps(p, q, a.s, a.wire.value);
    }
  }

  lemma OfferKeeps(p: Pool, a: Action)
    requires Inv(p) && Enabled(p, a) && a.Offer?
    ensures Inv(SendNext(p, a))
  {
    var q, c := SendNext(p, a), p.senders[a.s].phase.c;
    if p.guarded.closed || |p.guarded.idle| >= p.max {
      WorksKeeps(p, q, a.s, c);
    } else {
      ParksKeeps(p, q, a.s, c);
    }
  }

  lemma SendWorks(p: Pool, a: Action)
    requires Wired(p) && Enabled(p, a) && OfSend(a) && !a.Ask? && !a.Dial? && !a.Offer? && !a.Drop?
    ensures Works(p, SendNext(p, a), a.s, p.senders[a.s].phase.c)
  {
    assert Uses(p.senders[a.s].phase) == Some(p.senders[a.s].phase.c);
  }

  lemma SendKeeps(p: Pool, a: Action)
    requires Inv(p) && Enabled(p, a) && OfSend(a)
    ensures Inv(SendNext(p, a))
  {
    if a.Ask? {
      AskKeeps(p, a);
    } else if a.Dial? {
      DialKeeps(p, a);
    } else if a.Offer? {
      OfferKeeps(p, a);
    } else if a.Drop? {
      DropsKeeps(p, SendNext(p, a), a.s, p.senders[a.s].phase.c);
    } else {
      SendWorks(p, a);
      WorksKeeps(p, SendNext(p, a), a.s, p.senders[a.s].phase.c);
    }
  }

  lemma Keeps(p: Pool, a: Action)
    requires Inv(p) && Enabled(p, a)
    ensures Inv(Next(p, a))
  {
    var q := Next(p, a);
    if a.Arrive? {
      ArriveKeepsOwners(p, q, a.s);
      ArriveKeepsOpen(p, q, a.s);
    } else if a.Close? {
      DrainsKeepsOwners(p, q, a.d);
      DrainsKeepsOpen(p, q, a.d);
    } else if a.DrainOne? {
      var c := p.drains[a.d][0];
      assert p.drains[a.d] == [c] + q.drains[a.d];
      ClosesKeepsOwners(p, q, a.d, c);
      ClosesKeepsOpen(p, q, a.d, c);
      ClosesKeepsKept(p, q, a.d, c);
    } else {
      SendKeeps(p, a);
    }
  }

  // ---- Every run -------------------------------------------------------------------------

  /** A run from p, each action enabled where it is taken. */
  ghost predicate Runs(p: Pool, acts: seq<Action>)
    requires Inv(p)
    decreases |acts|
  {
    acts == [] || (Enabled(p, acts[0]) && (Keeps(p, acts[0]); Runs(Next(p, acts[0]), acts[1..])))
  }

  ghost function After(p: Pool, acts: seq<Action>): (q: Pool)
    requires Inv(p) && Runs(p, acts)
    ensures Inv(q)
    decreases |acts|
  {
    if acts == [] then p else (Keeps(p, acts[0]); After(Next(p, acts[0]), acts[1..]))
  }

  function Fresh(max: nat): Pool
  {
    Pool(Guarded([], false), max, map[], map[], map[])
  }

  /** The owners of a connection. */
  datatype Owner = PoolOwner | SendOwner(s: nat) | CloseOwner(d: nat)

  ghost predicate Owns(p: Pool, o: Owner, c: nat)
  {
    match o
    case PoolOwner => Idle(p, c)
    case SendOwner(s) => HeldBy(p, s, c)
    case CloseOwner(d) => DrainedBy(p, d, c)
  }

  /** In every interleaving of any number of sends and closes, an opened connection has exactly one
      owner, the idle list, one Send or one Close, until it is closed, and none from then on. */
  lemma OneOwner(max: nat, acts: seq<Action>, c: nat)
    requires Runs(Fresh(max), acts)
    requires c in After(Fresh(max), acts).wires
    ensures var p := After(Fresh(max), acts);
            && (p.wires[c].open <==> exists o :: Owns(p, o, c))
            && (forall o, q :: Owns(p, o, c) && Owns(p, q, c) ==> o == q)
  {
    var p := After(Fresh(max), acts);
    if p.wires[c].open {
      assert Somewhere(p, c);
      if Idle(p, c) {
        assert Owns(p, PoolOwner, c);
      } else if s :| HeldBy(p, s, c) {
        assert Owns(p, SendOwner(s), c);
      } else {
        var d :| DrainedBy(p, d, c);
        assert Owns(p, CloseOwner(d), c);
      }
    }
  }

  /** Idle connections are few, warm and clean, and a mail transaction only ever starts on an open,
      greeted connection with none under way. */
  lemma IdleAreReady(max: nat, acts: seq<Action>)
    requires Runs(Fresh(max), acts)
    ensures var p := After(Fresh(max), acts);
            && Distinct(p.guarded.idle) && |p.guarded.idle| <= p.max
            && (forall c :: Idle(p, c) ==> c in p.wires && p.wires[c] == Wire(true, true, false, false))
            && (forall s :: s in p.senders && p.senders[s].phase.Ready? ==>
                  var c := p.senders[s].phase.c;
                  c in p.wires && p.wires[c].open && p.wires[c].greeted && !p.wires[c].inMail)
  {
    var p := After(Fresh(max), acts);
    forall s | s in p.senders && p.senders[s].phase.Ready?
      ensures var c := p.senders[s].phase.c;
              c in p.wires && p.wires[c].open && p.wires[c].greeted && !p.wires[c].inMail
    {
      assert Uses(p.senders[s].phase) == Some(p.senders[s].phase.c);
    }
  }

  lemma ClosedStays(p: Pool, a: Action)
    requires Wired(p) && Enabled(p, a) && p.guarded.closed
    ensures Next(p, a).guarded.closed
  {
  }

  /** After Close the idle list stays empty for ever, whatever sends are still out. */
  lemma {:induction false} ClosedForGood(p: Pool, acts: seq<Action>)
    requires Inv(p) && p.guarded.closed && Runs(p, acts)
    ensures After(p, acts).guarded == Guarded([], true)
    decreases |acts|
  {
    if acts != [] {
      Keeps(p, acts[0]);
      ClosedStays(p, acts[0]);
      ClosedForGood(Next(p, acts[0]), acts[1..]);
    }
  }

  /** Once closed, with every send over and every drain finished, no connection is left open. */
  lemma NoLeak(p: Pool)
    requires Inv(p) && p.guarded.closed
    requires forall s :: s in p.senders ==> p.senders[s].phase.Over?
    requires forall d :: d in p.drains ==> p.drains[d] == []
    ensures forall c :: c in p.wires ==> !p.wires[c].open
  {
    forall c | c in p.wires && p.wires[c].open
      ensures false
    {
      assert Somewhere(p, c);
      assert forall s :: !HeldBy(p, s, c);
    }
  }

  // ---- The provider object ---------------------------------------------------------------

  function Reversed(cs: seq<nat>): (r: seq<nat>)
    ensures |r| == |cs|
  {
    if cs == [] then [] else [cs[|cs| - 1]] + Reversed(cs[..|cs| - 1])
  }

  lemma DropOne(idle: seq<nat>, c: nat, dropped: seq<nat>)
    ensures idle + [c] + Reversed(dropped) == idle + Reversed(dropped + [c])
  {
    assert (dropped + [c])[..|dropped|] == dropped;
  }

  /** The provider with its mutex-guarded fields; each method below is one critical section, or a
      single Send's loop over them. */
  class SmtpProvider {
    const max: nat
    var idle: seq<nat>
    var closed: bool

    function State(): Guarded
      reads this
    {
      Guarded(idle, closed)
    }

    constructor (max: nat)
      ensures this.max == max && State() == Guarded([], false)
    {
      this.max := max;
      idle, closed := [], false;
    }

    method TakeIdle() returns (c: Option<nat>)
      modifies this
      ensures (c, State()) == Pop(old(State()))
    {
      if idle == [] {
        return None;
      }
      c := Some(idle[|idle| - 1]);
      idle := idle[..|idle| - 1];
    }

    method Release(c: nat) returns (kept: bool)
      modifies this
      ensures (kept, State()) == Push(old(State()), c, max)
    {
      if closed || |idle| >= max {
        return false;
      }
      idle := idle + [c];
      return true;
    }

    method Shutdown() returns (taken: seq<nat>)
      modifies this
      ensures (taken, State()) == Drain(old(State()))
    {
      closed := true;
      taken := idle;
      idle := [];
    }

    /** `acquire` before it dials: the newest idle connection that still answers, having dropped
        exactly the newer ones, which do not. */
    method Acquire(alive: set<nat>) returns (c: Option<nat>, dropped: seq<nat>)
      modifies this
      ensures closed == old(closed)
      ensures forall k :: 0 <= k < |dropped| ==> dropped[k] !in alive
      ensures c.Some? ==> c.value in alive && old(idle) == idle + [c.value] + Reversed(dropped)
      ensures c.None? ==> idle == [] && old(idle) == Reversed(dropped)
    {
      dropped := [];
      while true
        invariant closed == old(closed)
        invariant old(idle) == idle + Reversed(dropped)
        invariant forall k :: 0 <= k < |dropped| ==> dropped[k] !in alive
        decreases |idle|
      {
        var before := idle;
        c := TakeIdle();
        assert c.Some? ==> before == idle + [c.value];
        if c.None? || c.value in alive {
          return;
        }
        DropOne(idle, c.value, dropped);
        dropped := dropped + [c.value];
      }
    }
  }
}
