/** The admin API's publisher channel: single-threaded handlers and one timer keep redialling. */
module AdminBus {
  import opened Text

  /** The module's variables, the dials under way and the generations whose handlers are attached. */
  datatype State = State(chan: Option<nat>, timer: Option<nat>, failures: nat, dials: nat, gens: nat)

  datatype Event =
    | Start              // the server's connect call
    | DialOk             // a dial completes with a channel
    | DialFail           // a dial fails
    | Fire               // the timer goes off
    | Lost(gen: nat)     // a close event of that generation's connection or channel

  function Power(n: nat): (p: nat)
    ensures p >= 1
  {
    if n == 0 then 1 else 2 * Power(n - 1)
  }

  /** Milliseconds before redialling after that many failures in a row. */
  function Delay(failures: nat): nat
  {
    if 1000 * Power(failures) < 30000 then 1000 * Power(failures) else 30000
  }

  const IDLE := State(None, None, 0, 0, 0)

  predicate Enabled(s: State, e: Event)
  {
    match e
    case Start => s == IDLE
    case DialOk => s.dials > 0
    case DialFail => s.dials > 0
    case Fire => s.timer.Some?
    case Lost(g) => g < s.gens
  }

  function Scheduled(s: State): State
  {
    if s.timer.Some? then s else s.(timer := Some(Delay(s.failures)))
  }

  function Next(s: State, e: Event): State
    requires Enabled(s, e)
  {
    match e
    case Start => s.(dials := s.dials + 1)
    case DialOk => s.(dials := s.dials - 1, chan := Some(s.gens), failures := 0, gens := s.gens + 1)
    case DialFail => Scheduled(s.(dials := s.dials - 1, chan := None, failures := s.failures + 1))
    case Fire => s.(timer := None, dials := s.dials + 1)
    case Lost(g) => if s.chan == Some(g) then Scheduled(s.(chan := None)) else s
  }

  ghost predicate Runs(s: State, events: seq<Event>)
    decreases |events|
  {
    events == [] || (Enabled(s, events[0]) && Runs(Next(s, events[0]), events[1..]))
  }

  function After(s: State, events: seq<Event>): State
    requires Runs(s, events)
    decreases |events|
  {
    if events == [] then s else After(Next(s, events[0]), events[1..])
  }

  // ---- Exactly one of dialling, waiting, connected ---------------------------------------

  function Count(s: State): nat
  {
    s.dials + (if s.timer.Some? then 1 else 0) + (if s.chan.Some? then 1 else 0)
  }

  predicate Alive(s: State)
  {
    Count(s) == 1 && (s.chan.Some? ==> s.chan.value == s.gens - 1 && s.failures == 0)
  }

  lemma {:induction false} StaysAlive(s: State, events: seq<Event>)
    requires Alive(s) && Runs(s, events)
    ensures Alive(After(s, events))
    decreases |events|
  {
    if events != [] {
      StaysAlive(Next(s, events[0]), events[1..]);
    }
  }

  /** From the first connect on, in every run: exactly one dial is under way, or the timer is armed,
      or the channel is live, and then it is the latest generation's. */
  lemma ExactlyOne(events: seq<Event>)
    requires Runs(IDLE, events) && events != []
    ensures Alive(After(IDLE, events))
  {
    assert events[0] == Start;
    StaysAlive(Next(IDLE, Start), events[1..]);
  }

  /** A close event changes something exactly if it is the live generation's. */
  lemma StaleCloseIgnored(events: seq<Event>, g: nat)
    requires Runs(IDLE, events) && Enabled(After(IDLE, events), Lost(g))
    ensures Next(After(IDLE, events), Lost(g)) != After(IDLE, events)
            <==> After(IDLE, events).chan == Some(g)
    ensures g + 1 < After(IDLE, events).gens ==> Next(After(IDLE, events), Lost(g)) == After(IDLE, events)
  {
    if events != [] {
      ExactlyOne(events);
    }
  }

  // ---- Backoff ---------------------------------------------------------------------------

  /** Dials failed since the last that succeeded. */
  function InARow(events: seq<Event>): nat
  {
    if events == [] then 0
    else
      var e := events[|events| - 1];
      if e.DialOk? then 0
      else InARow(events[..|events| - 1]) + (if e.DialFail? then 1 else 0)
  }

  lemma {:induction false} SplitLast(s: State, events: seq<Event>)
    requires Runs(s, events) && events != []
    ensures var n := |events| - 1;
            && Runs(s, events[..n]) && Enabled(After(s, events[..n]), events[n])
            && After(s, events) == Next(After(s, events[..n]), events[n])
    decreases |events|
  {
    var n := |events| - 1;
    if n > 0 {
      SplitLast(Next(s, events[0]), events[1..]);
      assert events[1..][..n - 1] == events[..n][1..];
    }
  }

  /** The failure counter is the number of failures in a row, and an armed timer was armed with the
      delay that number calls for. */
  lemma {:induction false} BackoffFollowsHistory(events: seq<Event>)
    requires Runs(IDLE, events)
    ensures var s := After(IDLE, events);
            s.failures == InARow(events) && (s.timer.Some? ==> s.timer.value == Delay(InARow(events)))
    decreases |events|
  {
    if events != [] {
      var n := |events| - 1;
      SplitLast(IDLE, events);
      BackoffFollowsHistory(events[..n]);
      if n > 0 {
        ExactlyOne(events[..n]);
      }
    }
  }

  /** Delays double from one second to the cap, which they reach at the fifth failure. */
  lemma {:induction false} DelayShape(n: nat)
    ensures 1000 <= Delay(n) <= 30000
    ensures n < 5 ==> Delay(n) == 1000 * Power(n)
    ensures n >= 5 ==> Delay(n) == 30000
  {
    if n < 5 {
      assert Power(0) == 1 && Power(1) == 2 && Power(2) == 4 && Power(3) == 8 && Power(4) == 16;
    } else if n == 5 {
      assert Power(4) == 16;
    } else {
      DelayShape(n - 1);
    }
  }

  // ---- The module as it runs -------------------------------------------------------------

  class Bus {
    var chan: Option<nat>
    var reconnectTimer: Option<nat>
    var failures: nat
    ghost var dials: nat
    ghost var gens: nat

    ghost function Now(): State
      reads this
    {
      State(chan, reconnectTimer, failures, dials, gens)
    }

    constructor ()
      ensures Now() == IDLE
    {
      chan, reconnectTimer, failures, dials, gens := None, None, 0, 0, 0;
    }

    method ScheduleReconnect()
      modifies this
      ensures Now() == Scheduled(old(Now()))
    {
      if reconnectTimer.Some? {
        return;
      }
      reconnectTimer := Some(Delay(failures));
    }

    /** The call itself, up to its first await. */
    method Connect()
      requires Enabled(Now(), Start)
      modifies this
      ensures Now() == Next(old(Now()), Start)
    {
      dials := dials + 1;
    }

    method Connected(gen: nat)
      requires Enabled(Now(), DialOk) && gen == gens
      modifies this
      ensures Now() == Next(old(Now()), DialOk)
    {
      chan := Some(gen);
      failures := 0;
      dials, gens := dials - 1, gens + 1;
    }

    method Refused()
      requires Enabled(Now(), DialFail)
      modifies this
      ensures Now() == Next(old(Now()), DialFail)
    {
      dials := dials - 1;
      chan := None;
      failures := failures + 1;
      ScheduleReconnect();
    }

    method TimerFired()
      requires Enabled(Now(), Fire)
      modifies this
      ensures Now() == Next(old(Now()), Fire)
    {
      reconnectTimer := None;
      dials := dials + 1;
    }

    method OnLost(gen: nat)
      requires Enabled(Now(), Lost(gen))
      modifies this
      ensures Now() == Next(old(Now()), Lost(gen))
    {
      if chan == Some(gen) {
        chan := None;
        ScheduleReconnect();
      }
    }
  }
}
