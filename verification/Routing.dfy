/** The routing index: rules folded into two maps and a default, against a plain scan of the rules. */
module Routing {
  import opened Text

  /** An empty domain means that the rule does not constrain that side. */
  datatype Rule = Rule(recipient: string, sender: string, chain: seq<string>, enabled: bool, priority: int)

  datatype Key = Recipient(domain: string) | Sender(domain: string) | Default

  predicate Active(r: Rule)
  {
    r.enabled && r.chain != []
  }

  function KeyOf(r: Rule): Key
  {
    if r.recipient != "" then Recipient(Lower(r.recipient))
    else if r.sender != "" then Sender(Lower(r.sender))
    else Default
  }

  /** The plain scan: the position of the first usable rule for a key, or the number of rules. */
  function First(rules: seq<Rule>, key: Key): (i: nat)
    ensures i <= |rules|
    ensures i < |rules| ==> Active(rules[i]) && KeyOf(rules[i]) == key
    ensures forall j :: 0 <= j < i ==> !(Active(rules[j]) && KeyOf(rules[j]) == key)
  {
    if rules == [] then 0
    else if Active(rules[0]) && KeyOf(rules[0]) == key then 0
    else
      var i := First(rules[1..], key);
      assert forall j :: 0 < j < |rules| ==> rules[j] == rules[1..][j - 1];
      1 + i
  }

  function ChainFor(rules: seq<Rule>, key: Key): Option<seq<string>>
  {
    var i := First(rules, key);
    if i < |rules| then Some(rules[i].chain) else None
  }

  /** Recipient rules come before sender rules, and those before default rules. */
  function Scan(rules: seq<Rule>, recipient: string, sender: string): Option<seq<string>>
  {
    var byRecipient := ChainFor(rules, Recipient(Lower(recipient)));
    var bySender := ChainFor(rules, Sender(Lower(sender)));
    if byRecipient.Some? then byRecipient
    else if bySender.Some? then bySender
    else ChainFor(rules, Default)
  }

  lemma OneMore(rules: seq<Rule>, r: Rule, key: Key)
    ensures ChainFor(rules + [r], key) ==
      (if ChainFor(rules, key).Some? then ChainFor(rules, key)
       else if Active(r) && KeyOf(r) == key then Some(r.chain)
       else None)
  {
    var k := |rules|;
    var i, i' := First(rules, key), First(rules + [r], key);
    assert forall j :: 0 <= j < k ==> (rules + [r])[j] == rules[j];
    assert (rules + [r])[k] == r;
    if i < k {
      assert i' == i;
    } else if i' <= k {
      assert i' == k;
    }
  }

  /** The rule applies to mail between the two domains. */
  predicate Serves(r: Rule, recipient: string, sender: string)
  {
    && Active(r)
    && match KeyOf(r)
       case Recipient(d) => d == Lower(recipient)
       case Sender(d) => d == Lower(sender)
       case Default => true
  }

  function Rank(r: Rule): nat
  {
    match KeyOf(r) case Recipient(_) => 2 case Sender(_) => 1 case Default => 0
  }

  /** The order of the query that loads the rules. */
  predicate ByPriority(rules: seq<Rule>)
  {
    forall i, j :: 0 <= i < j < |rules| ==> rules[i].priority >= rules[j].priority
  }

  predicate Best(rules: seq<Rule>, i: nat, recipient: string, sender: string)
    requires i < |rules|
  {
    && Serves(rules[i], recipient, sender)
    && forall j :: 0 <= j < |rules| && Serves(rules[j], recipient, sender) ==>
         || Rank(rules[j]) < Rank(rules[i])
         || (Rank(rules[j]) == Rank(rules[i]) && i <= j
             && (ByPriority(rules) ==> rules[j].priority <= rules[i].priority))
  }

  /** No chain exactly if no rule applies. Otherwise the chain is that of an applicable rule of the
      most specific kind, the first of that kind and, in the query's order, one of highest priority. */
  lemma ScanPicksTheBest(rules: seq<Rule>, recipient: string, sender: string)
    ensures Scan(rules, recipient, sender).None? <==>
            forall i :: 0 <= i < |rules| ==> !Serves(rules[i], recipient, sender)
    ensures var c := Scan(rules, recipient, sender);
            c.Some? ==> exists i :: 0 <= i < |rules| && Best(rules, i, recipient, sender) && rules[i].chain == c.value
  {
    var r, s := First(rules, Recipient(Lower(recipient))), First(rules, Sender(Lower(sender)));
    var d, n := First(rules, Default), |rules|;
    if r < n {
      assert Best(rules, r, recipient, sender);
    } else if s < n {
      assert Best(rules, s, recipient, sender);
    } else if d < n {
      assert Best(rules, d, recipient, sender);
    }
  }

  class Engine {
    var recipient: map<string, seq<string>>
    var sender: map<string, seq<string>>
    var def: Option<seq<string>>

    function Answer(key: Key): Option<seq<string>>
      reads this
    {
      match key
      case Recipient(d) => if d in recipient then Some(recipient[d]) else None
      case Sender(d) => if d in sender then Some(sender[d]) else None
      case Default => def
    }

    /** The maps answer every key as the scan does. */
    ghost predicate Indexes(rules: seq<Rule>)
      reads this
    {
      forall key :: ChainFor(rules, key) == Answer(key)
    }

    constructor Build(rules: seq<Rule>)
      ensures Indexes(rules)
    {
      recipient, sender, def := map[], map[], None;
      new;
      for k := 0 to |rules|
        invariant Indexes(rules[..k])
      {
        Add(rules[..k], rules[k]);
        assert rules[..k] + [rules[k]] == rules[..k + 1];
      }
      assert rules[..|rules|] == rules;
    }

    /** A usable rule answers its key, unless an earlier one does. */
    method Index(r: Rule)
      requires Active(r)
      modifies this
      ensures forall key :: Answer(key) ==
                if key == KeyOf(r) && old(Answer(key)).None? then Some(r.chain) else old(Answer(key))
    {
      if r.recipient != "" {
        if Lower(r.recipient) !in recipient {
          recipient := recipient[Lower(r.recipient) := r.chain];
        }
      } else if r.sender != "" {
        if Lower(r.sender) !in sender {
          sender := sender[Lower(r.sender) := r.chain];
        }
      } else if def.None? {
        def := Some(r.chain);
      }
    }

    /** One pass of the loop: the first rule seen for a key wins. */
    method Add(ghost seen: seq<Rule>, r: Rule)
      requires Indexes(seen)
      modifies this
      ensures Indexes(seen + [r])
    {
      forall key ensures ChainFor(seen + [r], key) ==
          if ChainFor(seen, key).Some? then ChainFor(seen, key)
          else if Active(r) && KeyOf(r) == key then Some(r.chain)
          else None
      {
        OneMore(seen, r, key);
      }
      if !r.enabled || r.chain == [] {
        return;
      }
      Index(r);
    }

    method Resolve(recipientDomain: string, senderDomain: string, ghost rules: seq<Rule>)
      returns (chain: Option<seq<string>>)
      requires Indexes(rules)
      ensures chain == Scan(rules, recipientDomain, senderDomain)
    {
      assert ChainFor(rules, Recipient(Lower(recipientDomain))) == Answer(Recipient(Lower(recipientDomain)));
      assert ChainFor(rules, Sender(Lower(senderDomain))) == Answer(Sender(Lower(senderDomain)));
      assert ChainFor(rules, Default) == Answer(Default);
      if Lower(recipientDomain) in recipient {
        return Some(recipient[Lower(recipientDomain)]);
      }
      if Lower(senderDomain) in sender {
        return Some(sender[Lower(senderDomain)]);
      }
      return def;
    }
  }

  /** `out` is the known providers of the chain, in its order: `at` says where they stand. */
  ghost predicate Standing<P>(ids: seq<string>, instances: map<string, P>, out: seq<P>, at: seq<nat>)
  {
    && |out| == |at|
    && (forall k :: 0 <= k < |at| ==> at[k] < |ids| && ids[at[k]] in instances && out[k] == instances[ids[at[k]]])
    && (forall k, l :: 0 <= k < l < |at| ==> at[k] < at[l])
    && (forall i :: 0 <= i < |ids| && ids[i] in instances ==> i in at)
  }

  /** The providers a worker tries. */
  method Chain<P>(ids: seq<string>, instances: map<string, P>) returns (out: seq<P>)
    ensures exists at :: Standing(ids, instances, out, at)
  {
    out := [];
    ghost var at: seq<nat> := [];
    for i := 0 to |ids|
      invariant |out| == |at|
      invariant forall k :: 0 <= k < |at| ==> at[k] < i && ids[at[k]] in instances && out[k] == instances[ids[at[k]]]
      invariant forall k, l :: 0 <= k < l < |at| ==> at[k] < at[l]
      invariant forall j :: 0 <= j < i && ids[j] in instances ==> j in at
    {
      if ids[i] in instances {
        out := out + [instances[ids[i]]];
        at := at + [i];
      }
    }
    assert Standing(ids, instances, out, at);
  }
}
