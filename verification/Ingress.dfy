/** The submission session: who may send, who may receive, and whether a failure notice is wanted. */
module Ingress {
  import opened Text

  /** Values of the NOTIFY parameter (section 4.1 of RFC 3461). */
  datatype Notify = Never | Success | Failure | Delay

  datatype Policy = Policy(relayDomains: set<string>, suppressed: set<string>)

  datatype Reply = Accepted | AuthRequired | SenderNotPermitted | NotARelayDomain | RateLimited | Suppressed

  /** Position after the last at-sign, or 0. */
  function AfterAt(s: string): (i: nat)
    ensures i <= |s| && (i > 0 ==> s[i - 1] == '@')
    ensures forall j :: i <= j < |s| ==> s[j] != '@'
  {
    if s == "" then 0 else if s[|s| - 1] == '@' then |s| else AfterAt(s[..|s| - 1])
  }

  /** The lower-case domain of an address, empty if it has none. */
  function DomainOf(address: string): string
  {
    var i := AfterAt(address);
    if i > 0 then Lower(address[i..]) else ""
  }

  lemma DomainMeans(local: string, domain: string)
    requires '@' !in domain
    ensures DomainOf(local + "@" + domain) == Lower(domain)
  {
    var s := local + "@" + domain;
    assert s[|local|] == '@' && forall j :: 0 <= j < |domain| ==> s[|local| + 1 + j] == domain[j];
    assert AfterAt(s) == |local| + 1;
    assert s[|local| + 1..] == domain;
  }

  /** An empty list, or a star in it, permits every sender. */
  predicate Permits(allowed: seq<string>, domain: string)
  {
    allowed == [] || "*" in allowed || exists a :: a in allowed && Lower(a) == Lower(domain)
  }

  method SendersAllow(allowed: seq<string>, domain: string) returns (ok: bool)
    ensures ok <==> Permits(allowed, domain)
  {
    if allowed == [] {
      return true;
    }
    for k := 0 to |allowed|
      invariant forall j :: 0 <= j < k ==> allowed[j] != "*" && Lower(allowed[j]) != Lower(domain)
    {
      if allowed[k] == "*" || Lower(allowed[k]) == Lower(domain) {
        return true;
      }
    }
    return false;
  }

  /** All gates together, in the order in which they answer. */
  function MailReply(domain: string, senders: Option<seq<string>>, policy: Option<Policy>, limited: bool): Reply
  {
    if senders.None? then AuthRequired
    else if !Permits(senders.value, domain) then SenderNotPermitted
    else if policy.Some? && |policy.value.relayDomains| > 0 && domain !in policy.value.relayDomains then NotARelayDomain
    else if policy.Some? && limited then RateLimited
    else Accepted
  }

  method Gate(domain: string, senders: Option<seq<string>>, policy: Option<Policy>, limited: bool)
    returns (reply: Reply)
    ensures reply == MailReply(domain, senders, policy, limited)
  {
    if senders.None? {
      return AuthRequired;
    }
    var ok := SendersAllow(senders.value, domain);
    if !ok {
      return SenderNotPermitted;
    }
    if policy.Some? {
      if |policy.value.relayDomains| > 0 && domain !in policy.value.relayDomains {
        return NotARelayDomain;
      }
      if limited {
        return RateLimited;
      }
    }
    return Accepted;
  }

  // ---------------------------------------------------------------- counting NEVER

  function Count(list: seq<Notify>): nat
  {
    if list == [] then 0 else (if list[0].Never? then 1 else 0) + Count(list[1..])
  }

  /** NEVERs over all recipients. */
  function Total(asked: seq<seq<Notify>>): nat
  {
    if asked == [] then 0 else Total(asked[..|asked| - 1]) + Count(asked[|asked| - 1])
  }

  /** Recipients that did not ask for NOTIFY=NEVER. */
  function Lacking(asked: seq<seq<Notify>>): nat
  {
    if asked == [] then 0
    else Lacking(asked[..|asked| - 1]) + (if Count(asked[|asked| - 1]) == 0 then 1 else 0)
  }

  /** NEVERs beyond the first in one recipient's list. */
  function Excess(asked: seq<seq<Notify>>): nat
  {
    if asked == [] then 0
    else
      var c := Count(asked[|asked| - 1]);
      Excess(asked[..|asked| - 1]) + (if c > 1 then c - 1 else 0)
  }

  lemma {:induction false} Balance(asked: seq<seq<Notify>>)
    ensures Total(asked) + Lacking(asked) == |asked| + Excess(asked)
  {
    if asked != [] {
      Balance(asked[..|asked| - 1]);
    }
  }

  lemma {:induction false} CountMeans(list: seq<Notify>)
    ensures Count(list) > 0 <==> Never in list
  {
    if list != [] {
      CountMeans(list[1..]);
    }
  }

  predicate EveryoneAskedNever(asked: seq<seq<Notify>>)
  {
    forall i :: 0 <= i < |asked| ==> Never in asked[i]
  }

  /** RFC 3461 allows NEVER only on its own. */
  predicate NoRepeats(asked: seq<seq<Notify>>)
  {
    forall i :: 0 <= i < |asked| ==> Count(asked[i]) <= 1
  }

  lemma {:induction false} LackingMeans(asked: seq<seq<Notify>>)
    ensures Lacking(asked) == 0 <==> EveryoneAskedNever(asked)
    ensures Excess(asked) == 0 <==> NoRepeats(asked)
  {
    if asked != [] {
      var front, last := asked[..|asked| - 1], asked[|asked| - 1];
      LackingMeans(front);
      CountMeans(last);
      assert forall i :: 0 <= i < |front| ==> asked[i] == front[i];
    }
  }

  predicate Quiet(asked: seq<seq<Notify>>)
  {
    |asked| > 0 && Total(asked) == |asked|
  }

  /** The failure notice is switched off exactly if repeated NEVERs balance the recipients without one;
      so counting decides correctly exactly if there are no repeats when all asked for NEVER, and a
      different number of repeats than of missing NEVERs otherwise. */
  lemma QuietExactly(asked: seq<seq<Notify>>)
    requires asked != []
    ensures Quiet(asked) <==> Excess(asked) == Lacking(asked)
    ensures (Quiet(asked) <==> EveryoneAskedNever(asked)) <==>
              if Lacking(asked) == 0 then NoRepeats(asked) else Excess(asked) != Lacking(asked)
  {
    Balance(asked);
    LackingMeans(asked);
  }

  /** On lists that respect RFC 3461 the notice is off exactly if every recipient asked for it. */
  lemma QuietIffEveryoneAsked(asked: seq<seq<Notify>>)
    requires NoRepeats(asked)
    ensures Quiet(asked) <==> asked != [] && EveryoneAskedNever(asked)
  {
    if asked != [] {
      QuietExactly(asked);
      LackingMeans(asked);
    }
  }

  /** One recipient repeating NEVER silences the notice for another who wants it. */
  lemma RepeatsMislead()
    ensures var asked := [[Never, Never], [Failure]];
            Quiet(asked) && !EveryoneAskedNever(asked)
  {
    var asked := [[Never, Never], [Failure]];
    assert asked[..1] == [[Never, Never]] && asked[..1][..0] == [];
    assert [Never, Never][1..] == [Never] && [Never][1..] == [] && [Failure][1..] == [];
    assert Count([Never, Never]) == 2 && Count([Failure]) == 0;
    assert asked[1] == [Failure];
  }

  // ---------------------------------------------------------------- the session

  datatype Request = Request(from: string, rcpts: seq<string>, recipientDomain: string, senderDomain: string,
                             quiet: bool, dsnReturn: string)

  class Session {
    var from: string
    var rcpts: seq<string>
    var dsnReturn: string
    var rcptN: nat
    var neverN: nat
    /** The NOTIFY list of every accepted recipient. */
    ghost var asked: seq<seq<Notify>>

    ghost predicate Valid()
      reads this
    {
      rcptN == |rcpts| == |asked| && neverN == Total(asked)
    }

    constructor ()
      ensures Valid() && rcpts == [] && from == "" && asked == [] && dsnReturn == ""
    {
      from, rcpts, dsnReturn, rcptN, neverN, asked := "", [], "", 0, 0, [];
    }

    /** `senders` is the allowed-sender list of the account or trusted client, if there is one. The RET
        parameter is noted even if the sender is then refused. */
    method Mail(sender: string, ret: Option<string>, senders: Option<seq<string>>, policy: Option<Policy>,
                limited: bool)
      returns (reply: Reply)
      requires Valid()
      modifies this`from, this`dsnReturn
      ensures Valid()
      ensures reply == MailReply(DomainOf(sender), senders, policy, limited)
      ensures from == if reply.Accepted? then sender else old(from)
      ensures dsnReturn == if ret.Some? then ret.value else old(dsnReturn)
    {
      if ret.Some? {
        dsnReturn := ret.value;
      }
      reply := Gate(DomainOf(sender), senders, policy, limited);
      if reply.Accepted? {
        from := sender;
      }
    }

    /** A suppressed address, in any case, never becomes a recipient. */
    method Rcpt(to: string, notify: seq<Notify>, policy: Option<Policy>) returns (reply: Reply)
      requires Valid()
      modifies this`rcpts, this`rcptN, this`neverN, this`asked
      ensures Valid()
      ensures reply == if policy.Some? && Lower(to) in policy.value.suppressed then Suppressed else Accepted
      ensures rcpts == if reply.Accepted? then old(rcpts) + [to] else old(rcpts)
      ensures asked == if reply.Accepted? then old(asked) + [notify] else old(asked)
    {
      if policy.Some? && Lower(to) in policy.value.suppressed {
        return Suppressed;
      }
      rcpts := rcpts + [to];
      rcptN := rcptN + 1;
      for k := 0 to |notify|
        invariant neverN + Count(notify[k..]) == Total(asked) + Count(notify)
        invariant rcpts == old(rcpts) + [to] && rcptN == old(rcptN) + 1 && asked == old(asked)
      {
        assert notify[k..][1..] == notify[k + 1..];
        if notify[k] == Never {
          neverN := neverN + 1;
        }
      }
      asked := asked + [notify];
      assert asked[..|asked| - 1] == old(asked);
      return Accepted;
    }

    /** The job that `Data` enqueues, apart from its identifier. */
    method Submission() returns (r: Request)
      requires Valid()
      ensures r.from == from && r.rcpts == rcpts && r.dsnReturn == dsnReturn
      ensures r.quiet <==> Quiet(asked)
      ensures r.senderDomain == DomainOf(from)
      ensures r.recipientDomain == if rcpts == [] then "" else DomainOf(rcpts[0])
    {
      var to := if |rcpts| == 0 then "" else DomainOf(rcpts[0]);
      r := Request(from, rcpts, to, DomainOf(from), rcptN > 0 && neverN == rcptN, dsnReturn);
    }

    method Reset()
      modifies this
      ensures Valid() && from == "" && rcpts == [] && dsnReturn == "" && asked == []
    {
      from := "";
      rcpts := [];
      dsnReturn := "";
      rcptN := 0;
      neverN := 0;
      asked := [];
    }
  }
}
