/** The self-healing broker connection: a supervisor that redials, a registry of consumers guarded by
    one lock, and the current connection guarded by another that is only ever held for one read or
    one write. */
module AmqpConn {
  /** `out` identifies the channel handed to the caller. */
  datatype Consumer = Consumer(queue: string, prefetch: int, out: nat)

  datatype Supervisor =
    | Reading              // about to look up the current connection
    | Watching(g: nat)     // blocked on its close notification
    | Retrying             // at the head of the reconnect loop
    | Dialling             // inside connect, no connection yet
    | Declaring(g: nat)    // connected, declaring the topology
    | Waiting              // swapped; wants the registry lock
    | Restarting(i: nat)   // holds the registry lock, i consumers done
    | Stopped

  datatype Caller =
    | Asking(cs: Consumer)
    | Holding(cs: Consumer)
    | Opening(cs: Consumer, g: nat)
    | Opened(cs: Consumer, g: nat)
    | Returned(ok: bool)

  datatype Lock = Free | Super | Call(r: nat)

  datatype Closer = NotClosing | Flagged | Took(g: nat) | Closed

  datatype Bus = Bus(
    live: set<nat>,              // open connections
    current: nat,
    spare: nat,                  // next connection number
    lock: Lock,
    registry: seq<Consumer>,
    subs: set<(nat, nat)>,       // (out channel, connection)
    broken: set<nat>,            // out channels whose last start failed or whose channel closed
    sup: Supervisor,
    callers: map<nat, Caller>,
    closer: Closer)

  const INITIAL := Bus({0}, 0, 1, Free, [], {}, {}, Reading, map[], NotClosing)

  datatype SupStep =
    | Look | Notice | Retry | DialOk | DialFail | DeclareOk | DeclareFail | Acquire | Restart(ok: bool) | Finish

  datatype CallStep = Begin(queue: string, prefetch: int) | Take | Lookup | Open(ok: bool) | Append

  datatype Action =
    | Lose(g: nat)
    | Sever(out: nat)
    | Sup(s: SupStep)
    | Register(r: nat, c: CallStep)
    | CloseFlag | CloseTake | CloseConn

  predicate ClosedFlag(b: Bus)
  {
    !b.closer.NotClosing?
  }

  predicate SupEnabled(b: Bus, s: SupStep)
  {
    match s
    case Look => b.sup.Reading?
    case Notice => b.sup.Watching? && b.sup.g !in b.live
    case Retry => b.sup.Retrying?
    case DialOk => b.sup.Dialling?
    case DialFail => b.sup.Dialling?
    case DeclareOk => b.sup.Declaring?
    case DeclareFail => b.sup.Declaring?
    case Acquire => b.sup.Waiting? && b.lock.Free?
    case Restart(ok) => b.sup.Restarting? && b.sup.i < |b.registry| && (ok ==> b.current in b.live)
    case Finish => b.sup.Restarting? && b.sup.i >= |b.registry|
  }

  predicate CallEnabled(b: Bus, r: nat, c: CallStep)
  {
    match c
    case Begin(_, _) => r !in b.callers
    case Take => r in b.callers && b.callers[r].Asking? && b.lock.Free?
    case Lookup => r in b.callers && b.callers[r].Holding?
    case Open(ok) => r in b.callers && b.callers[r].Opening? && (ok ==> b.callers[r].g in b.live)
    case Append => r in b.callers && b.callers[r].Opened?
  }

  predicate Enabled(b: Bus, a: Action)
  {
    match a
    case Lose(g) => g in b.live
    case Sever(out) => (out, b.current) in b.subs
    case Sup(s) => SupEnabled(b, s)
    case Register(r, c) => CallEnabled(b, r, c)
    case CloseFlag => b.closer.NotClosing?
    case CloseTake => b.closer.Flagged?
    case CloseConn => b.closer.Took?
  }

  /** A connection ends, and its subscriptions with it. */
  function Down(b: Bus, g: nat): Bus
  {
    b.(live := b.live - {g}, subs := set p | p in b.subs && p.1 != g)
  }

  function SupNext(b: Bus, s: SupStep): Bus
    requires SupEnabled(b, s)
  {
    match s
    case Look => b.(sup := if ClosedFlag(b) then Stopped else Watching(b.current))
    case Notice => b.(sup := if ClosedFlag(b) then Stopped else Retrying)
    case Retry => b.(sup := if ClosedFlag(b) then Stopped else Dialling)
    case DialOk => b.(live := b.live + {b.spare}, spare := b.spare + 1, sup := Declaring(b.spare))
    case DialFail => b.(sup := Retrying)
    case DeclareOk => b.(current := b.sup.g, sup := Waiting)
    case DeclareFail => Down(b, b.sup.g).(sup := Retrying)
    case Acquire => b.(lock := Super, sup := Restarting(0))
    case Restart(ok) =>
      var out := b.registry[b.sup.i].out;
      if ok then b.(subs := b.subs + {(out, b.current)}, broken := b.broken - {out}, sup := Restarting(b.sup.i + 1))
      else b.(broken := b.broken + {out}, sup := Restarting(b.sup.i + 1))
    case Finish => b.(lock := Free, sup := Reading)
  }

  function CallNext(b: Bus, r: nat, c: CallStep): Bus
    requires CallEnabled(b, r, c)
  {
    match c
    case Begin(queue, prefetch) => b.(callers := b.callers[r := Asking(Consumer(queue, prefetch, r))])
    case Take => b.(lock := Call(r), callers := b.callers[r := Holding(b.callers[r].cs)])
    case Lookup => b.(callers := b.callers[r := Opening(b.callers[r].cs, b.current)])
    case Open(ok) =>
      var cs, g := b.callers[r].cs, b.callers[r].g;
      if ok then b.(subs := b.subs + {(cs.out, g)}, callers := b.callers[r := Opened(cs, g)])
      else b.(lock := Free, callers := b.callers[r := Returned(false)])
    case Append =>
      b.(lock := Free, registry := b.registry + [b.callers[r].cs], callers := b.callers[r := Returned(true)])
  }

  function Next(b: Bus, a: Action): Bus
    requires Enabled(b, a)
  {
    match a
    case Lose(g) => Down(b, g)
    case Sever(out) => b.(subs := b.subs - {(out, b.current)}, broken := b.broken + {out})
    case Sup(s) => SupNext(b, s)
    case Register(r, c) => CallNext(b, r, c)
    case CloseFlag => b.(closer := Flagged)
    case CloseTake => b.(closer := Took(b.current))
    case CloseConn => Down(b, b.closer.g).(closer := Closed)
  }

  ghost predicate Runs(b: Bus, acts: seq<Action>)
    decreases |acts|
  {
    acts == [] || (Enabled(b, acts[0]) && Runs(Next(b, acts[0]), acts[1..]))
  }

  function After(b: Bus, acts: seq<Action>): Bus
    requires Runs(b, acts)
    decreases |acts|
  {
    if acts == [] then b else After(Next(b, acts[0]), acts[1..])
  }

  // ---- The invariant ---------------------------------------------------------------------

  /** No reconnect is under way. */
  predicate Settled(b: Bus)
  {
    b.sup.Reading? || b.sup.Watching?
  }

  predicate Inside(c: Caller)
  {
    c.Holding? || c.Opening? || c.Opened?
  }

  /** The lock is where the phases say. */
  ghost predicate InvLock(b: Bus)
  {
    && (b.sup.Restarting? <==> b.lock == Super)
    && (forall r :: r in b.callers ==> (Inside(b.callers[r]) <==> b.lock == Call(r)))
    && (forall r :: b.lock == Call(r) ==> r in b.callers)
  }

  /** At most the current connection, or the one being prepared, is open; a watched one is current. */
  ghost predicate InvLive(b: Bus)
  {
    && b.current < b.spare
    && (forall g :: g in b.live ==> g < b.spare)
    && (b.sup.Watching? ==> b.sup.g == b.current)
    && (forall g :: g in b.live ==> g == b.current || (b.sup.Declaring? && g == b.sup.g))
    && (b.sup.Retrying? || b.sup.Dialling? || b.sup.Declaring? ==> b.current !in b.live)
    && (b.sup.Declaring? ==> b.sup.g < b.spare && b.sup.g != b.current)
  }

  /** The channel is being fed over that connection, or is known to be broken. */
  predicate Serves(b: Bus, out: nat, g: nat)
  {
    (out, g) in b.subs || out in b.broken
  }

  /** A registering caller still looks at the current connection, unless a reconnect is under way
      that has yet to go through the registry. */
  ghost predicate InvCallers(b: Bus)
  {
    && (forall r :: r in b.callers && (b.callers[r].Opening? || b.callers[r].Opened?) && Settled(b) ==>
          b.callers[r].g == b.current)
    && (forall r :: r in b.callers && b.callers[r].Opening? && b.callers[r].g in b.live ==> b.callers[r].g == b.current)
    && (forall r :: r in b.callers && b.callers[r].Opened? && b.callers[r].g in b.live ==>
          Serves(b, b.callers[r].cs.out, b.callers[r].g))
    && (forall r :: r in b.callers && !b.callers[r].Returned? ==> b.callers[r].cs.out == r)
    && (forall r :: r in b.callers && (b.callers[r].Opening? || b.callers[r].Opened?) ==>
          b.callers[r].g < b.spare && (b.sup.Declaring? ==> b.callers[r].g != b.sup.g))
  }

  /** Outside a reconnect every registered consumer is served; within one, those already done. */
  ghost predicate InvServed(b: Bus)
  {
    && (Settled(b) && b.current in b.live ==>
          forall k :: 0 <= k < |b.registry| ==> Serves(b, b.registry[k].out, b.current))
    && (b.sup.Restarting? && b.current in b.live ==>
          forall k :: 0 <= k < |b.registry| && k < b.sup.i ==> Serves(b, b.registry[k].out, b.current))
  }

  /** The registry holds exactly the consumers whose registration succeeded. */
  ghost predicate InvRegistry(b: Bus)
  {
    && (forall k :: 0 <= k < |b.registry| ==>
          b.registry[k].out in b.callers && b.callers[b.registry[k].out] == Returned(true))
    && (forall r :: r in b.callers && b.callers[r] == Returned(true) ==>
          exists k :: 0 <= k < |b.registry| && b.registry[k].out == r)
    && (forall i, j :: 0 <= i < j < |b.registry| ==> b.registry[i].out != b.registry[j].out)
  }

  ghost predicate Inv(b: Bus)
  {
    InvLock(b) && InvLive(b) && InvCallers(b) && InvServed(b) && InvRegistry(b)
  }

  lemma SupKeepsLocks(b: Bus, s: SupStep)
    requires InvLock(b) && InvLive(b) && InvRegistry(b) && SupEnabled(b, s)
    ensures InvLock(SupNext(b, s)) && InvLive(SupNext(b, s)) && InvRegistry(SupNext(b, s))
  {
  }

  lemma SupKeepsCallers(b: Bus, s: SupStep)
    requires InvLock(b) && InvLive(b) && InvCallers(b) && SupEnabled(b, s)
    ensures InvCallers(SupNext(b, s))
  {
  }

  lemma SupKeepsServed(b: Bus, s: SupStep)
    requires InvLive(b) && InvServed(b) && InvRegistry(b) && SupEnabled(b, s)
    ensures InvServed(SupNext(b, s))
  {
  }

  lemma CallKeepsLocks(b: Bus, r: nat, c: CallStep)
    requires InvLock(b) && InvLive(b) && CallEnabled(b, r, c)
    ensures InvLock(CallNext(b, r, c)) && InvLive(CallNext(b, r, c))
  {
  }

  lemma CallKeepsCallers(b: Bus, r: nat, c: CallStep)
    requires InvLive(b) && InvCallers(b) && CallEnabled(b, r, c)
    ensures InvCallers(CallNext(b, r, c))
  {
  }

  lemma CallKeepsServed(b: Bus, r: nat, c: CallStep)
    requires InvLock(b) && InvCallers(b) && InvServed(b) && CallEnabled(b, r, c)
    ensures InvServed(CallNext(b, r, c))
  {
  }

  lemma CallKeepsRegistry(b: Bus, r: nat, c: CallStep)
    requires InvCallers(b) && InvRegistry(b) && CallEnabled(b, r, c)
    ensures InvRegistry(CallNext(b, r, c))
  {
    var t := CallNext(b, r, c);
    forall q | q in t.callers && t.callers[q] == Returned(true)
      ensures exists k :: 0 <= k < |t.registry| && t.registry[k].out == q
    {
      if q in b.callers && b.callers[q] == Returned(true) {
        var k :| 0 <= k < |b.registry| && b.registry[k].out == q;
        assert t.registry[k].out == q;
      } else {
        assert t.registry[|b.registry|].out == q;
      }
    }
  }

  lemma EnvKeepsLocks(b: Bus, a: Action)
    requires InvLock(b) && InvLive(b) && InvRegistry(b) && Enabled(b, a) && !a.Sup? && !a.Register?
    ensures InvLock(Next(b, a)) && InvLive(Next(b, a)) && InvRegistry(Next(b, a))
  {
  }

  lemma EnvKeepsServed(b: Bus, a: Action)
    requires InvLive(b) && InvCallers(b) && InvServed(b) && Enabled(b, a) && !a.Sup? && !a.Register?
    ensures InvCallers(Next(b, a)) && InvServed(Next(b, a))
  {
  }

  lemma Keeps(b: Bus, a: Action)
    requires Inv(b) && Enabled(b, a)
    ensures Inv(Next(b, a))
  {
    match a {
      case Sup(s) => SupKeepsLocks(b, s); SupKeepsCallers(b, s); SupKeepsServed(b, s);
      case Register(r, c) =>
        CallKeepsLocks(b, r, c);
        CallKeepsCallers(b, r, c);
        CallKeepsServed(b, r, c);
        CallKeepsRegistry(b, r, c);
      case _ => EnvKeepsLocks(b, a); EnvKeepsServed(b, a);
    }
  }

  lemma {:induction false} RunKeeps(b: Bus, acts: seq<Action>)
    requires Inv(b) && Runs(b, acts)
    ensures Inv(After(b, acts))
    decreases |acts|
  {
    if acts != [] {
      Keeps(b, acts[0]);
      RunKeeps(Next(b, acts[0]), acts[1..]);
    }
  }

  // ---- The promises ----------------------------------------------------------------------

  /** In every interleaving of registrations, losses, reconnects and closes: once no reconnect is
      under way and the connection is open, every registered consumer is fed over it, except where
      the broker refused its channel or closed it since. */
  lemma ReconnectsServeEveryone(acts: seq<Action>, k: nat)
    requires Runs(INITIAL, acts)
    requires var b := After(INITIAL, acts); Settled(b) && b.current in b.live && k < |b.registry|
    ensures var b := After(INITIAL, acts);
            (b.registry[k].out, b.current) in b.subs || b.registry[k].out in b.broken
  {
    RunKeeps(INITIAL, acts);
    assert Serves(After(INITIAL, acts), After(INITIAL, acts).registry[k].out, After(INITIAL, acts).current);
  }

  /** A consumer is registered exactly if its caller was told so, and only once. */
  lemma RegisteredIffTold(acts: seq<Action>, r: nat)
    requires Runs(INITIAL, acts)
    requires r in After(INITIAL, acts).callers
    ensures var b := After(INITIAL, acts);
            && (b.callers[r] == Returned(true) <==> exists k :: 0 <= k < |b.registry| && b.registry[k].out == r)
            && forall i, j :: 0 <= i < j < |b.registry| ==> b.registry[i].out != b.registry[j].out
  {
    RunKeeps(INITIAL, acts);
  }

  lemma RegistryGrows(b: Bus, a: Action)
    requires Enabled(b, a)
    ensures b.registry <= Next(b, a).registry
  {
  }

  /** Through any number of reconnects a registered consumer keeps its queue, prefetch and channel. */
  lemma {:induction false} ChannelsAreStable(b: Bus, acts: seq<Action>)
    requires Runs(b, acts)
    ensures b.registry <= After(b, acts).registry
    decreases |acts|
  {
    if acts != [] {
      RegistryGrows(b, acts[0]);
      ChannelsAreStable(Next(b, acts[0]), acts[1..]);
    }
  }

  // ---- Close -----------------------------------------------------------------------------

  /** Close has returned, nothing is open and the supervisor is not dialling. */
  predicate Silent(b: Bus)
  {
    b.closer.Closed? && b.live == {} && !b.sup.Dialling?
  }

  lemma SilentStays(b: Bus, a: Action)
    requires Silent(b) && Enabled(b, a)
    ensures Silent(Next(b, a))
  {
  }

  lemma {:induction false} SilentForever(b: Bus, acts: seq<Action>)
    requires Silent(b) && Runs(b, acts)
    ensures After(b, acts).live == {}
    decreases |acts|
  {
    if acts != [] {
      SilentStays(b, acts[0]);
      SilentForever(Next(b, acts[0]), acts[1..]);
    }
  }

  ghost predicate StaysDown(b: Bus)
  {
    forall acts :: Runs(b, acts) ==> After(b, acts).live == {}
  }

  lemma NotDown(b: Bus, acts: seq<Action>)
    requires Runs(b, acts) && After(b, acts).live != {}
    ensures !StaysDown(b)
  {
  }

  /** Once Close has returned, no connection is ever open again exactly if none is open at that
      moment and the supervisor is not in the middle of a dial. */
  lemma CloseIsFinalUnlessDialling(b: Bus)
    requires b.closer.Closed?
    ensures StaysDown(b) <==> b.live == {} && !b.sup.Dialling?
  {
    var none: seq<Action> := [];
    if b.live != {} {
      NotDown(b, none);
    } else if b.sup.Dialling? {
      var t, dial := Next(b, Sup(DialOk)), [Sup(DialOk)];
      assert dial[1..] == none && Runs(t, none);
      assert b.spare in After(b, dial).live;
      NotDown(b, dial);
    } else {
      forall acts | Runs(b, acts)
        ensures After(b, acts).live == {}
      {
        SilentForever(b, acts);
      }
    }
  }

  ghost predicate CanLeak(b: Bus)
  {
    exists acts :: Runs(b, acts) && After(b, acts).closer.Closed? && After(b, acts).sup.Dialling?
  }

  lemma LeakLater(b: Bus, a: Action)
    requires Enabled(b, a) && CanLeak(Next(b, a))
    ensures CanLeak(b)
  {
    var t := Next(b, a);
    var acts :| Runs(t, acts) && After(t, acts).closer.Closed? && After(t, acts).sup.Dialling?;
    assert ([a] + acts)[1..] == acts;
    assert Runs(b, [a] + acts) && After(b, [a] + acts) == After(t, acts);
  }

  /** And that moment is reachable: a Close that falls into a redial returns too early. */
  lemma CloseCanComeTooEarly()
    ensures CanLeak(INITIAL)
  {
    var b1 := Next(INITIAL, Sup(Look));
    var b2 := Next(b1, Lose(0));
    var b3 := Next(b2, Sup(Notice));
    var b4 := Next(b3, Sup(Retry));
    var b5 := Next(b4, CloseFlag);
    var b6 := Next(b5, CloseTake);
    var b7 := Next(b6, CloseConn);
    assert Runs(b7, []) && After(b7, []) == b7;
    LeakLater(b6, CloseConn);
    LeakLater(b5, CloseTake);
    LeakLater(b4, CloseFlag);
    LeakLater(b3, Sup(Retry));
    LeakLater(b2, Sup(Notice));
    LeakLater(b1, Lose(0));
    LeakLater(INITIAL, Sup(Look));
  }
}
