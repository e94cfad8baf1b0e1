/** One handling of a job by a delivery worker: routing, pacing and the provider chain. */
module Failover {
  import opened Text

  datatype Outcome = Delivered | Defer | Fail

  /** What a provider's Send returns: a result and possibly an error. */
  datatype Reply = Reply(outcome: Outcome, detail: string, error: Option<string>)

  /** The rate limiter's answer, with the deadline possibly expiring during a short sleep. */
  datatype Pace = Clear | Backlogged | Expired

  /** One position of the chain: its limiter answer and what Send would return there. */
  datatype Turn = Turn(provider: string, pace: Pace, reply: Reply)

  /** What becomes of the job: `Accepted(i)` names the chain position that took it. */
  datatype Verdict = Accepted(at: nat) | Postponed | Refused | Interrupted

  /** An error is never read as a delivery. */
  predicate Delivers(t: Turn)
  {
    t.pace.Clear? && t.reply.outcome.Delivered? && t.reply.error.None?
  }

  /** The position counts as transient: rate-skipped, deferred, or an error dressed as a delivery. */
  predicate Transient(t: Turn)
  {
    || t.pace.Backlogged?
    || (t.pace.Clear? && (t.reply.outcome.Defer? || (t.reply.outcome.Delivered? && t.reply.error.Some?)))
  }

  /** A position after which no later one is looked at. */
  predicate Ends(t: Turn)
  {
    t.pace.Expired? || Delivers(t)
  }

  predicate EndsAt(turns: seq<Turn>, i: int)
  {
    0 <= i < |turns| && Ends(turns[i]) && forall j :: 0 <= j < i ==> !Ends(turns[j])
  }

  /** The declared verdict of a chain: no loop, no state, only "which positions exist". */
  ghost predicate Means(turns: seq<Turn>, v: Verdict)
  {
    match v
    case Accepted(i) => EndsAt(turns, i) && Delivers(turns[i])
    case Interrupted => exists i :: EndsAt(turns, i) && turns[i].pace.Expired?
    case Postponed =>
      && (forall j :: 0 <= j < |turns| ==> !Ends(turns[j]))
      && (exists j :: 0 <= j < |turns| && Transient(turns[j]))
    case Refused =>
      forall j :: 0 <= j < |turns| ==> !Ends(turns[j]) && !Transient(turns[j])
  }

  /** A chain has at most one declared verdict, so `Means` is a specification and not a relation
      that a careless loop could satisfy in two ways. */
  lemma VerdictUnique(turns: seq<Turn>, v: Verdict, w: Verdict)
    requires Means(turns, v) && Means(turns, w)
    ensures v == w
  {
    forall i, j | EndsAt(turns, i) && EndsAt(turns, j)
      ensures i == j
    {
      assert Ends(turns[i]) && Ends(turns[j]);
    }
  }

  /** How many leading positions the worker looks at: up to and including the first that ends the chain. */
  function Visited(turns: seq<Turn>, from: nat): (n: nat)
    requires from <= |turns|
    ensures from <= n <= |turns|
    ensures forall j :: from <= j < n - 1 ==> !Ends(turns[j])
    ensures n < |turns| ==> from < n && Ends(turns[n - 1])
    decreases |turns| - from
  {
    if from == |turns| then from
    else if Ends(turns[from]) then from + 1
    else Visited(turns, from + 1)
  }

  /** The positions of `turns[..n]` whose provider is contacted: each once, in chain order. */
  function Contacts(turns: seq<Turn>, n: nat): (r: seq<nat>)
    requires n <= |turns|
    ensures forall k :: 0 <= k < |r| ==> r[k] < n && turns[r[k]].pace.Clear?
    ensures forall k, l :: 0 <= k < l < |r| ==> r[k] < r[l]
    ensures forall j :: 0 <= j < n && turns[j].pace.Clear? ==> j in r
  {
    if n == 0 then []
    else if turns[n - 1].pace.Clear? then Contacts(turns, n - 1) + [n - 1]
    else Contacts(turns, n - 1)
  }

  /** What a position that did not end the chain leaves in `lastProvider` and `lastDetail`. */
  function LastWord(t: Turn): (string, string)
  {
    (t.provider,
     if t.pace.Backlogged? then "provider rate limit exceeded"
     else if t.reply.outcome.Delivered? && t.reply.detail == "" && t.reply.error.Some? then t.reply.error.value
     else t.reply.detail)
  }

  /** None of the first n positions ended the chain. */
  predicate Open(turns: seq<Turn>, n: nat)
    requires n <= |turns|
  {
    forall j :: 0 <= j < n ==> !Ends(turns[j])
  }

  /** One of the first n positions was transient. */
  function SawDefer(turns: seq<Turn>, n: nat): (r: bool)
    requires n <= |turns|
    ensures r <==> exists j :: 0 <= j < n && Transient(turns[j])
  {
    n > 0 && (SawDefer(turns, n - 1) || Transient(turns[n - 1]))
  }

  /** Of the positions contacted only the last can have delivered, and then it is the verdict. */
  ghost predicate LastDelivers(turns: seq<Turn>, calls: seq<nat>, v: Verdict)
  {
    forall k :: 0 <= k < |calls| && calls[k] < |turns| && Delivers(turns[calls[k]]) ==>
      v == Accepted(calls[k]) && k == |calls| - 1
  }

  /** The verdict of a chain that no position ended. */
  lemma Exhausted(turns: seq<Turn>)
    requires Open(turns, |turns|)
    ensures Means(turns, if SawDefer(turns, |turns|) then Postponed else Refused)
    ensures forall v :: LastDelivers(turns, Contacts(turns, |turns|), v)
  {
  }

  /** The verdict of a chain that a position ended. */
  lemma Ended(turns: seq<Turn>, n: nat)
    requires n < |turns| && Open(turns, n) && Ends(turns[n])
    ensures var v := if Delivers(turns[n]) then Accepted(n) else Interrupted;
            Means(turns, v) && LastDelivers(turns, Contacts(turns, n + 1), v)
  {
    assert EndsAt(turns, n);
  }

  /** What the loop does with the answer of a contacted provider: an error with a Delivered outcome
      counts as Defer. */
  method Read(t: Turn) returns (outcome: Outcome, detail: string)
    requires t.pace.Clear?
    ensures outcome.Delivered? <==> Delivers(t)
    ensures outcome.Defer? <==> Transient(t)
    ensures !Ends(t) ==> (t.provider, detail) == LastWord(t)
  {
    outcome, detail := t.reply.outcome, t.reply.detail;
    if t.reply.error.Some? && outcome.Delivered? {
      outcome := Defer;
      if detail == "" {
        detail := t.reply.error.value;
      }
    }
  }

  /** The failover loop of `handle`. `calls` logs the positions contacted, in the order of contact. */
  method TryChain(turns: seq<Turn>)
    returns (v: Verdict, calls: seq<nat>, lastProvider: string, lastDetail: string)
    ensures Means(turns, v)
    ensures calls == Contacts(turns, Visited(turns, 0))
    ensures LastDelivers(turns, calls, v)
    ensures turns != [] && (v.Postponed? || v.Refused?) ==>
              LastWord(turns[|turns| - 1]) == (lastProvider, lastDetail)
  {
    var sawDefer := false;
    lastProvider, lastDetail, calls := "", "", [];
    var n := 0;
    while n < |turns|
      invariant 0 <= n <= |turns| && Open(turns, n)
      invariant Visited(turns, n) == Visited(turns, 0)
      invariant sawDefer == SawDefer(turns, n)
      invariant calls == Contacts(turns, n)
      invariant n > 0 ==> LastWord(turns[n - 1]) == (lastProvider, lastDetail)
    {
      var t := turns[n];
      if Ends(t) {
        Ended(turns, n);
      }
      match t.pace {
        case Expired =>
          v := Interrupted;
          return;
        case Backlogged =>
          sawDefer := true;
          lastProvider, lastDetail := t.provider, "provider rate limit exceeded";
        case Clear =>
          calls := calls + [n];
          var outcome, detail := Read(t);
          lastProvider, lastDetail := t.provider, detail;
          if outcome.Delivered? {
            v := Accepted(n);
            return;
          }
          if outcome.Defer? {
            sawDefer := true;
          }
      }
      n := n + 1;
    }
    Exhausted(turns);
    v := if sawDefer then Postponed else Refused;
  }

  /** The branches of `handle` before the loop. */
  datatype Route = NoRoute | DomainBacklog | DomainExpired | Chain(turns: seq<Turn>)

  ghost predicate RouteMeans(r: Route, v: Verdict)
  {
    match r
    case NoRoute => v == Postponed
    case DomainBacklog => v == Postponed
    case DomainExpired => v == Interrupted
    case Chain(turns) => turns != [] && Means(turns, v)
  }

  /** The handler's deadline passes while it sleeps for a limiter. */
  ghost predicate Expires(r: Route)
  {
    match r
    case NoRoute => false
    case DomainBacklog => false
    case DomainExpired => true
    case Chain(turns) => exists i :: EndsAt(turns, i) && turns[i].pace.Expired?
  }

  /** Every route has a verdict, and only an expiring one is interrupted. (An empty chain counts as no
      route.) */
  lemma VerdictExists(r: Route) returns (v: Verdict)
    requires r != Chain([])
    ensures RouteMeans(r, v)
    ensures v.Interrupted? <==> Expires(r)
  {
    match r {
      case NoRoute => v := Postponed;
      case DomainBacklog => v := Postponed;
      case DomainExpired => v := Interrupted;
      case Chain(turns) =>
        var n := Visited(turns, 0);
        if n > 0 && Ends(turns[n - 1]) {
          assert EndsAt(turns, n - 1);
          v := if Delivers(turns[n - 1]) then Accepted(n - 1) else Interrupted;
          forall w | Means(turns, w)
            ensures w == v
          {
            VerdictUnique(turns, v, w);
          }
        } else {
          Exhausted(turns);
          v := if SawDefer(turns, |turns|) then Postponed else Refused;
        }
    }
  }

  // ---- Providers -------------------------------------------------------------------------

  /** The answer to one protocol command. */
  datatype Answer = Ok | Smtp(code: int, text: string) | Network(text: string)

  /** `classify` and `classifyDirect`: 5xx is permanent, everything else transient. */
  function Classify(a: Answer): Reply
    requires !a.Ok?
  {
    match a
    case Smtp(code, text) => Reply(if code >= 500 then Fail else Defer, text, Some(text))
    case Network(text) => Reply(Defer, text, Some(text))
  }

  /** The pooled smarthost: PLAIN without TLS is refused, then acquire, then one mail transaction. */
  function SmartHost(cleartextAuth: bool, acquire: Answer, mail: Answer): Reply
  {
    if cleartextAuth then
      Reply(Fail, "refusing PLAIN auth over a non-TLS connection", Some("PLAIN auth requires TLS"))
    else if !acquire.Ok? then Classify(acquire)
    else if !mail.Ok? then Classify(mail)
    else Reply(Delivered, "250 ok", None)
  }

  /** A command sent to one MX host; a `soft` command (dial, STARTTLS, body copy) only ever defers. */
  datatype Command = Command(soft: bool, answer: Answer)

  predicate Clean(session: seq<Command>)
  {
    forall i :: 0 <= i < |session| ==> session[i].answer.Ok?
  }

  /** `deliverTo`: the first command that fails decides. */
  function ToHost(session: seq<Command>): (r: Reply)
    ensures r.outcome.Delivered? <==> Clean(session)
    ensures r.outcome.Delivered? <==> r.error.None?
  {
    if session == [] then Reply(Delivered, "250 ok (direct)", None)
    else if session[0].answer.Ok? then
      var r := ToHost(session[1..]);
      assert Clean(session) <==> Clean(session[1..]);
      r
    else if session[0].soft then
      var text := session[0].answer.text;
      Reply(Defer, text, Some(text))
    else Classify(session[0].answer)
  }

  /** The host that settles a direct delivery: every earlier one was only transient. */
  predicate SettlesAt(hosts: seq<seq<Command>>, i: int)
  {
    && 0 <= i < |hosts| && !ToHost(hosts[i]).outcome.Defer?
    && forall j :: 0 <= j < i ==> ToHost(hosts[j]).outcome.Defer?
  }

  /** `DirectProvider.Send`: the MX hosts in preference order. */
  method SendDirect(domain: string, body: Answer, hosts: seq<seq<Command>>) returns (r: Reply, tried: nat)
    ensures tried <= |hosts|
    ensures r.outcome.Delivered? <==>
              domain != "" && body.Ok? && exists i :: SettlesAt(hosts, i) && Clean(hosts[i])
    ensures r.outcome.Delivered? ==> r.error.None?
    ensures r.outcome.Fail? <==>
              domain == "" || (body.Ok? && exists i :: SettlesAt(hosts, i) && ToHost(hosts[i]).outcome.Fail?)
    ensures domain != "" && body.Ok? ==>
              forall j :: 0 <= j < tried - 1 ==> ToHost(hosts[j]).outcome.Defer?
    // the settling host's answer, or, when none settles it, the last one's
    ensures domain != "" && body.Ok? && !r.outcome.Defer? ==>
              tried > 0 && SettlesAt(hosts, tried - 1) && r == ToHost(hosts[tried - 1])
    ensures domain != "" && body.Ok? && r.outcome.Defer? ==>
              && tried == |hosts|
              && (if hosts == [] then r == Reply(Defer, "no MX host reachable", None)
                  else var last := ToHost(hosts[|hosts| - 1]);
                       r == last.(detail := if last.detail == "" then "no MX host reachable" else last.detail))
  {
    tried := 0;
    if domain == "" {
      return Reply(Fail, "no recipient domain", Some("direct: empty recipient domain")), 0;
    }
    if !body.Ok? {
      return Reply(Defer, body.text, Some(body.text)), 0;
    }
    var last, lastErr: Option<string> := "", None;
    while tried < |hosts|
      invariant 0 <= tried <= |hosts|
      invariant forall j :: 0 <= j < tried ==> ToHost(hosts[j]).outcome.Defer?
      invariant if tried == 0 then last == "" && lastErr == None
                else last == ToHost(hosts[tried - 1]).detail && lastErr == ToHost(hosts[tried - 1]).error
    {
      var res := ToHost(hosts[tried]);
      tried := tried + 1;
      match res.outcome {
        case Delivered =>
          assert SettlesAt(hosts, tried - 1);
          return Reply(Delivered, res.detail, None), tried;
        case Fail =>
          assert SettlesAt(hosts, tried - 1);
          return res, tried;
        case Defer =>
          last, lastErr := res.detail, res.error;
      }
    }
    r := if last == "" then Reply(Defer, "no MX host reachable", lastErr) else Reply(Defer, last, lastErr);
  }

  /** How a provider came by its reply. */
  datatype Origin =
    | Relay(cleartextAuth: bool, acquire: Answer, mail: Answer)
    | Direct(domain: string, body: Answer, hosts: seq<seq<Command>>)

  /** The reply is one that provider's Send can return for that exchange. */
  ghost predicate Produces(o: Origin, r: Reply)
  {
    match o
    case Relay(plain, acquire, mail) => r == SmartHost(plain, acquire, mail)
    case Direct(domain, body, hosts) =>
      r.outcome.Delivered? ==> domain != "" && body.Ok? && exists i :: SettlesAt(hosts, i) && Clean(hosts[i])
  }

  ghost predicate CleanExchange(o: Origin)
  {
    match o
    case Relay(plain, acquire, mail) => !plain && acquire.Ok? && mail.Ok?
    case Direct(domain, body, hosts) => body.Ok? && exists i :: 0 <= i < |hosts| && Clean(hosts[i])
  }

  /** A job counts as relayed only if one provider's whole mail transaction was free of errors,
      and no provider before it in the chain completed one that counted. */
  lemma RelayedMeansCleanExchange(turns: seq<Turn>, origins: seq<Origin>, v: Verdict)
    requires |origins| == |turns| && forall i :: 0 <= i < |turns| ==> Produces(origins[i], turns[i].reply)
    requires Means(turns, v) && v.Accepted?
    ensures v.at < |turns| && turns[v.at].pace.Clear? && CleanExchange(origins[v.at])
    ensures forall j :: 0 <= j < v.at ==> !Delivers(turns[j])
  {
    assert Produces(origins[v.at], turns[v.at].reply);
  }
}
