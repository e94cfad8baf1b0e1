/** SPF repair: the grading of a domain's SPF record, the corrected record it proposes, and the
    meaning of both by the left-to-right evaluation of section 4.6.2 of RFC 7208. */
module Spf {
  import opened Text

  // ---------------------------------------------------------------- tokens

  /** Length of the leading run of non-blank characters. */
  function Run(s: string): (n: nat)
    ensures n <= |s| && forall j :: 0 <= j < n ==> !IsSpace(s[j])
    ensures n < |s| ==> IsSpace(s[n])
  {
    if s == "" || IsSpace(s[0]) then 0 else 1 + Run(s[1..])
  }

  predicate IsToken(t: string)
  {
    t != "" && SpaceFree(t)
  }

  /** The maximal runs of non-blank characters. */
  function Fields(s: string): (r: seq<string>)
    ensures forall t :: t in r ==> IsToken(t)
    decreases |s|
  {
    if s == "" then []
    else if IsSpace(s[0]) then Fields(s[1..])
    else [s[..Run(s)]] + Fields(s[Run(s)..])
  }

  /** `trim().split(/\s+/)`: a blank string still has one, empty, piece. */
  function Words(s: string): seq<string>
  {
    if Fields(s) == [] then [""] else Fields(s)
  }

  function Join(ts: seq<string>): string
  {
    if |ts| == 0 then "" else if |ts| == 1 then ts[0] else ts[0] + " " + Join(ts[1..])
  }

  lemma RunOf(t: string, rest: string)
    requires SpaceFree(t) && (rest == "" || IsSpace(rest[0]))
    ensures Run(t + rest) == |t|
  {
    var s := t + rest;
    assert rest != "" ==> s[|t|] == rest[0];
    assert forall j :: 0 <= j < |t| ==> s[j] == t[j];
  }

  lemma FirstField(t: string, rest: string)
    requires IsToken(t) && (rest == "" || IsSpace(rest[0]))
    ensures Fields(t + rest) == [t] + Fields(rest)
  {
    RunOf(t, rest);
    assert (t + rest)[0] == t[0];
    assert (t + rest)[..|t|] == t && (t + rest)[|t|..] == rest;
  }

  /** Joining tokens and splitting the record again gives the tokens back. */
  lemma {:induction false} SplitJoin(ts: seq<string>)
    requires forall t :: t in ts ==> IsToken(t)
    ensures Fields(Join(ts)) == ts
  {
    if |ts| == 1 {
      assert ts[0] + "" == ts[0];
      FirstField(ts[0], "");
    } else if |ts| > 1 {
      var rest := " " + Join(ts[1..]);
      assert Join(ts) == ts[0] + rest;
      FirstField(ts[0], rest);
      assert rest[1..] == Join(ts[1..]);
      SplitJoin(ts[1..]);
    }
  }

  // ---------------------------------------------------------------- the repair

  predicate IsQualifier(c: char)
  {
    c == '-' || c == '~' || c == '?' || c == '+'
  }

  /** `/^[-~?+]?all$/i`. */
  predicate IsAll(t: string)
  {
    Lower(t) == "all" || (t != "" && IsQualifier(t[0]) && Lower(t[1..]) == "all")
  }

  /** Position of the first `all` token, or the number of tokens. */
  function AllAt(ts: seq<string>): (i: nat)
    ensures i <= |ts| && (i < |ts| ==> IsAll(ts[i]))
    ensures forall j :: 0 <= j < i ==> !IsAll(ts[j])
  {
    if ts == [] || IsAll(ts[0]) then 0 else 1 + AllAt(ts[1..])
  }

  function Merged(ts: seq<string>, missing: seq<string>): seq<string>
  {
    var i := AllAt(ts);
    if i < |ts| then ts[..i] + missing + ts[i..] else ts + missing + ["-all"]
  }

  /** `mergeSpf`. */
  function MergeSpf(existing: string, missing: seq<string>): string
  {
    Join(Merged(Words(existing), missing))
  }

  function BuildSpf(includes: seq<string>): string
  {
    Join(["v=spf1"] + includes + ["-all"])
  }

  /** The repaired record holds the old tokens in order with the missing mechanisms before `all`, and
      nothing else: whatever the spacing of the old record, and even if it was blank. */
  lemma MergeKeepsTokens(existing: string, missing: seq<string>)
    requires forall t :: t in missing ==> IsToken(t)
    ensures Fields(MergeSpf(existing, missing)) == Merged(Fields(existing), missing)
  {
    var ts := Fields(existing);
    if ts == [] {
      assert !IsAll("");
      var rest := missing + ["-all"];
      assert Merged([""], missing) == [""] + rest;
      assert MergeSpf(existing, missing) == " " + Join(rest);
      assert (" " + Join(rest))[1..] == Join(rest);
      SplitJoin(rest);
    } else {
      SplitJoin(Merged(ts, missing));
    }
  }

  // ---------------------------------------------------------------- evaluation, RFC 7208

  /** What evaluating one mechanism for a host yields (section 4.6.2, and 5.2 for `include`). */
  datatype Answer = Match | NoMatch | Temp | Perm

  datatype Outcome = NoRecord | Pass | Fail | SoftFail | Neutral | TempError | PermError | Redirect(to: string)

  /** A host being checked: which terms are well formed, and how each mechanism answers. */
  datatype Host = Host(legal: string -> bool, ask: string -> Answer)

  predicate IsNameChar(c: char)
  {
    'a' <= c <= 'z' || 'A' <= c <= 'Z' || '0' <= c <= '9' || c == '-' || c == '_' || c == '.'
  }

  function NameLength(t: string): (n: nat)
    ensures n <= |t|
  {
    if t == "" || !IsNameChar(t[0]) then 0 else 1 + NameLength(t[1..])
  }

  /** A modifier is a name followed by an equals sign (section 4.6.1). */
  predicate IsModifier(t: string)
  {
    0 < NameLength(t) < |t| && t[NameLength(t)] == '='
  }

  function Modifiers(ts: seq<string>): seq<string>
  {
    if ts == [] then []
    else if IsModifier(ts[0]) then [ts[0]] + Modifiers(ts[1..])
    else Modifiers(ts[1..])
  }

  predicate Named(t: string, name: string)
  {
    Lower(t[..NameLength(t)]) == name
  }

  /** Positions holding a modifier of that name. */
  function Uses(mods: seq<string>, name: string): set<nat>
  {
    set i: nat | i < |mods| && Named(mods[i], name)
  }

  predicate AllLegal(ts: seq<string>, h: Host)
  {
    forall t :: t in ts ==> h.legal(t)
  }

  /** The syntax check that comes before any evaluation (section 4.6; section 6 for repetitions). */
  predicate WellFormed(terms: seq<string>, h: Host)
  {
    && AllLegal(terms, h)
    && |Uses(Modifiers(terms), "redirect")| <= 1
    && |Uses(Modifiers(terms), "exp")| <= 1
  }

  function ByQualifier(t: string): Outcome
  {
    if t == "" || t[0] == '+' || !IsQualifier(t[0]) then Pass
    else if t[0] == '-' then Fail
    else if t[0] == '~' then SoftFail
    else Neutral
  }

  function Ask(t: string, h: Host): Answer
  {
    if IsAll(t) then Match
    else if t != "" && IsQualifier(t[0]) then h.ask(t[1..])
    else h.ask(t)
  }

  /** The mechanisms in order; `None` if none of them decides. */
  function Walk(terms: seq<string>, h: Host): Option<Outcome>
  {
    if terms == [] then None
    else if IsModifier(terms[0]) then Walk(terms[1..], h)
    else match Ask(terms[0], h)
      case Match => Some(ByQualifier(terms[0]))
      case NoMatch => Walk(terms[1..], h)
      case Temp => Some(TempError)
      case Perm => Some(PermError)
  }

  /** The result when no mechanism decides (section 4.7, section 6.1). */
  function FallThrough(mods: seq<string>): Outcome
  {
    if mods == [] then Neutral
    else if Named(mods[0], "redirect") then Redirect(mods[0])
    else FallThrough(mods[1..])
  }

  function Check(tokens: seq<string>, h: Host): Outcome
  {
    if tokens == [] || Lower(tokens[0]) != "v=spf1" then NoRecord
    else if !WellFormed(tokens[1..], h) then PermError
    else match Walk(tokens[1..], h)
      case Some(o) => o
      case None => FallThrough(Modifiers(tokens[1..]))
  }

  // ---------------------------------------------------------------- meaning of the repair

  lemma {:induction false} WalkParts(a: seq<string>, b: seq<string>, h: Host)
    ensures Walk(a + b, h) == if Walk(a, h).Some? then Walk(a, h) else Walk(b, h)
  {
    if a == [] {
      assert a + b == b;
    } else {
      assert (a + b)[0] == a[0] && (a + b)[1..] == a[1..] + b;
      WalkParts(a[1..], b, h);
    }
  }

  lemma {:induction false} ModifierParts(a: seq<string>, b: seq<string>)
    ensures Modifiers(a + b) == Modifiers(a) + Modifiers(b)
  {
    if a == [] {
      assert a + b == b;
    } else {
      assert (a + b)[0] == a[0] && (a + b)[1..] == a[1..] + b;
      ModifierParts(a[1..], b);
    }
  }

  lemma {:induction false} NoModifiers(ts: seq<string>)
    requires forall t :: t in ts ==> !IsModifier(t)
    ensures Modifiers(ts) == []
  {
    if ts != [] {
      NoModifiers(ts[1..]);
    }
  }

  lemma AllIsNoModifier(t: string)
    requires IsAll(t)
    ensures !IsModifier(t)
  {
    var u := Lower(t);
    assert 'a' == u[|t| - 3] && 'l' == u[|t| - 2] && 'l' == u[|t| - 1] by {
      if u != "all" {
        assert forall i :: 0 <= i < 3 ==> Lower(t[1..])[i] == u[i + 1];
      }
    }
    forall i | 0 <= i < |t| ensures t[i] != '=' {
      assert u[i] == LowerChar(t[i]);
    }
  }

  /** Mechanisms a route may add: well-formed terms that are no modifiers. */
  predicate Addable(missing: seq<string>, h: Host)
  {
    forall m :: m in missing ==> IsToken(m) && !IsModifier(m) && h.legal(m)
  }

  /** Evaluation gets as far as the first `all`, or the end of a record without one. */
  predicate Reaches(tokens: seq<string>, h: Host)
  {
    && tokens != [] && Lower(tokens[0]) == "v=spf1" && WellFormed(tokens[1..], h)
    && AllAt(tokens) >= 1 && Walk(tokens[1..AllAt(tokens)], h).None?
  }

  function HasAll(tokens: seq<string>): bool
  {
    AllAt(tokens) < |tokens|
  }

  /** What follows the added mechanisms in the repaired record. */
  function Tail(tokens: seq<string>): (r: seq<string>)
    ensures r != [] && IsAll(r[0])
  {
    assert "-all"[1..] == "all";
    if HasAll(tokens) then tokens[AllAt(tokens)..] else ["-all"]
  }

  lemma Regroup(ts: seq<string>, i: nat, c: seq<string>, d: seq<string>)
    requires 1 <= i <= |ts|
    ensures ts[..i] + c + d == [ts[0]] + (ts[1..i] + (c + d))
    ensures ts[1..] == ts[1..i] + ts[i..]
  {
  }

  lemma MergedShape(tokens: seq<string>, missing: seq<string>)
    requires tokens != [] && AllAt(tokens) >= 1
    ensures var i := AllAt(tokens);
            && tokens[1..] == tokens[1..i] + tokens[i..]
            && Merged(tokens, missing) == [tokens[0]] + (tokens[1..i] + (missing + Tail(tokens)))
  {
    var i := AllAt(tokens);
    if !HasAll(tokens) {
      assert tokens[..i] == tokens;
    }
    Regroup(tokens, i, missing, Tail(tokens));
  }

  lemma LegalInserted(a: seq<string>, b: seq<string>, missing: seq<string>, tail: seq<string>, h: Host)
    requires AllLegal(missing, h) && h.legal("-all")
    requires tail == b || (b == [] && tail == ["-all"])
    ensures AllLegal(a + (missing + tail), h) <==> AllLegal(a + b, h)
  {
    assert forall t :: t in a + (missing + tail) <==> t in a || t in missing || t in tail;
    assert forall t :: t in a + b <==> t in a || t in b;
  }

  lemma SyntaxInserted(a: seq<string>, b: seq<string>, missing: seq<string>, tail: seq<string>, h: Host)
    requires Addable(missing, h) && h.legal("-all")
    requires tail == b || (b == [] && tail == ["-all"])
    ensures Modifiers(a + (missing + tail)) == Modifiers(a + b)
    ensures WellFormed(a + (missing + tail), h) <==> WellFormed(a + b, h)
  {
    ModifierParts(a, b);
    ModifierParts(a, missing + tail);
    ModifierParts(missing, tail);
    NoModifiers(missing);
    LegalInserted(a, b, missing, tail, h);
    if tail != b {
      assert IsAll("-all") by { assert "-all"[1..] == "all"; }
      AllIsNoModifier("-all");
      NoModifiers(tail);
    }
  }

  lemma WalkInserted(a: seq<string>, missing: seq<string>, tail: seq<string>, h: Host)
    requires tail != [] && IsAll(tail[0])
    ensures Walk(a + (missing + tail), h) ==
      if Walk(a, h).Some? then Walk(a, h)
      else if Walk(missing, h).Some? then Walk(missing, h)
      else Some(ByQualifier(tail[0]))
  {
    WalkParts(a, missing + tail, h);
    WalkParts(missing, tail, h);
    AllIsNoModifier(tail[0]);
  }

  lemma FirstIsNoVersion(tokens: seq<string>, missing: seq<string>, h: Host)
    requires Addable(missing, h)
    requires tokens == [] || AllAt(tokens) == 0
    ensures Check(tokens, h) == NoRecord && Check(Merged(tokens, missing), h) == NoRecord
  {
    var first := Merged(tokens, missing)[0];
    if Lower(first) == "v=spf1" {
      var u := Lower(first);
      assert u[0] == 'v' && u[1] == '=' && LowerChar(first[0]) == 'v' && LowerChar(first[1]) == '=';
      assert NameLength(first[1..]) == 0;
      assert IsModifier(first);
    }
  }

  lemma CheckMerged(tokens: seq<string>, missing: seq<string>, h: Host)
    requires Addable(missing, h) && h.legal("-all")
    requires tokens != [] && AllAt(tokens) >= 1
    ensures Check(Merged(tokens, missing), h) ==
      if !Reaches(tokens, h) then Check(tokens, h)
      else if Walk(missing, h).Some? then Walk(missing, h).value
      else if HasAll(tokens) then Check(tokens, h)
      else Fail
  {
    var i := AllAt(tokens);
    var a, b, tail := tokens[1..i], tokens[i..], Tail(tokens);
    MergedShape(tokens, missing);
    SyntaxInserted(a, b, missing, tail, h);
    WalkInserted(a, missing, tail, h);
    WalkParts(a, b, h);
    if HasAll(tokens) {
      AllIsNoModifier(b[0]);
    } else {
      assert a + b == a;
    }
    var merged := Merged(tokens, missing);
    assert merged[0] == tokens[0] && merged[1..] == a + (missing + tail);
  }

  /** The whole meaning of the repair, for every record and host. Hosts that were decided before `all`
      keep their result, and so does a malformed record. Otherwise the added mechanisms decide; if they
      do not, a record with `all` keeps its result and one without it now fails the host. */
  lemma RepairMeaning(existing: string, missing: seq<string>, h: Host)
    requires Addable(missing, h) && h.legal("-all")
    ensures var before, after := Fields(existing), Fields(MergeSpf(existing, missing));
            Check(after, h) ==
              if !Reaches(before, h) then Check(before, h)
              else if Walk(missing, h).Some? then Walk(missing, h).value
              else if HasAll(before) then Check(before, h)
              else Fail
  {
    var tokens := Fields(existing);
    MergeKeepsTokens(existing, missing);
    if tokens == [] || AllAt(tokens) == 0 {
      FirstIsNoVersion(tokens, missing, h);
    } else {
      CheckMerged(tokens, missing, h);
    }
  }

  lemma {:induction false} NothingAnswers(missing: seq<string>, h: Host)
    requires forall m :: m in missing ==> !IsModifier(m) && Ask(m, h) == NoMatch
    ensures Walk(missing, h).None?
  {
    if missing != [] {
      NothingAnswers(missing[1..], h);
    }
  }

  lemma {:induction false} SomethingPasses(missing: seq<string>, h: Host, k: nat)
    requires k < |missing| && Ask(missing[k], h) == Match
    requires forall m :: m in missing ==>
               !IsModifier(m) && m != "" && !IsQualifier(m[0]) && Ask(m, h) in {Match, NoMatch}
    ensures Walk(missing, h) == Some(Pass)
  {
    if Ask(missing[0], h) == NoMatch {
      SomethingPasses(missing[1..], h, k - 1);
    }
  }

  lemma {:induction false} FallThroughIsSoft(mods: seq<string>)
    ensures FallThrough(mods) == Neutral || FallThrough(mods).Redirect?
  {
    if mods != [] {
      FallThroughIsSoft(mods[1..]);
    }
  }

  /** A host that no added mechanism matches keeps its result exactly if the old record decided it
      before running out of terms, or had an `all`. */
  lemma OthersKeepTheirResult(existing: string, missing: seq<string>, h: Host)
    requires Addable(missing, h) && h.legal("-all")
    requires forall m :: m in missing ==> Ask(m, h) == NoMatch
    ensures var before, after := Fields(existing), Fields(MergeSpf(existing, missing));
            Check(after, h) == Check(before, h) <==> !Reaches(before, h) || HasAll(before)
  {
    var before := Fields(existing);
    RepairMeaning(existing, missing, h);
    NothingAnswers(missing, h);
    if Reaches(before, h) && !HasAll(before) {
      assert before[1..AllAt(before)] == before[1..];
      FallThroughIsSoft(Modifiers(before[1..]));
    }
  }

  /** The added route is authorized: a host of that route passes, unless the old record decided it
      before its `all`. */
  lemma RouteIsAuthorized(existing: string, missing: seq<string>, h: Host, k: nat)
    requires Addable(missing, h) && h.legal("-all")
    requires k < |missing| && Ask(missing[k], h) == Match
    requires forall m :: m in missing ==> !IsQualifier(m[0]) && Ask(m, h) in {Match, NoMatch}
    ensures Reaches(Fields(existing), h) ==> Check(Fields(MergeSpf(existing, missing)), h) == Pass
    ensures !Reaches(Fields(existing), h) ==>
              Check(Fields(MergeSpf(existing, missing)), h) == Check(Fields(existing), h)
  {
    RepairMeaning(existing, missing, h);
    SomethingPasses(missing, h, k);
  }

  // ---------------------------------------------------------------- grading

  datatype Status = Ok | Warning | Error | Info
  datatype Report = Report(status: Status, found: Option<string>, fix: Option<string>)

  predicate IsWordChar(c: char)
  {
    'a' <= c <= 'z' || 'A' <= c <= 'Z' || '0' <= c <= '9' || c == '_'
  }

  /** `/^v=spf1\b/i`. */
  predicate StartsSpf(s: string)
  {
    |s| >= 6 && Lower(s[..6]) == "v=spf1" && (|s| > 6 ==> !IsWordChar(s[6]))
  }

  predicate IsSpf(record: string)
  {
    StartsSpf(Trim(record))
  }

  /** `/[-~?+]all\b/i` matches at position i. */
  predicate QualifiedAt(s: string, i: nat)
  {
    && i + 4 <= |s| && IsQualifier(s[i])
    && LowerChar(s[i + 1]) == 'a' && LowerChar(s[i + 2]) == 'l' && LowerChar(s[i + 3]) == 'l'
    && (i + 4 < |s| ==> !IsWordChar(s[i + 4]))
  }

  predicate HasQualifiedAll(s: string)
  {
    exists i :: 0 <= i < |s| && QualifiedAt(s, i)
  }

  predicate Lists(ts: seq<string>, m: string)
  {
    exists t :: t in ts && Lower(t) == Lower(m)
  }

  /** The required mechanisms that are not among the tokens, in order. */
  function Missing(required: seq<string>, ts: seq<string>): (r: seq<string>)
    ensures forall m :: m in r <==> m in required && !Lists(ts, m)
    ensures (forall m :: m in required ==> Lists(ts, m)) ==> r == []
  {
    if required == [] then []
    else (if Lists(ts, required[0]) then [] else [required[0]]) + Missing(required[1..], ts)
  }

  function SpfRecords(records: seq<string>): seq<string>
  {
    if records == [] then []
    else (if IsSpf(records[0]) then [records[0]] else []) + SpfRecords(records[1..])
  }

  function Grade(records: seq<string>, required: seq<string>): Report
  {
    var spfs := SpfRecords(records);
    if spfs == [] then Report(Error, None, Some(BuildSpf(required)))
    else if |spfs| > 1 then Report(Error, Some(spfs[0]), None)
    else
      var missing := Missing(required, Words(spfs[0]));
      if missing != [] then Report(Warning, Some(spfs[0]), Some(MergeSpf(spfs[0], missing)))
      else if !HasQualifiedAll(spfs[0]) then Report(Warning, Some(spfs[0]), None)
      else if required == [] then Report(Info, Some(spfs[0]), None)
      else Report(Ok, Some(spfs[0]), None)
  }

  // ---------------------------------------------------------------- grading the repaired record

  lemma {:induction false} LeftTrimmed(s: string)
    ensures Fields(TrimLeft(s)) == Fields(s)
  {
    if s != "" && IsSpace(s[0]) {
      LeftTrimmed(s[1..]);
    }
  }

  lemma VersionHasNoSpace(s: string)
    requires Lower(s) == "v=spf1"
    ensures SpaceFree(s)
  {
    forall i | 0 <= i < |s| ensures !IsSpace(s[i]) {
      assert Lower(s)[i] == LowerChar(s[i]);
    }
  }

  /** Whether a string is an SPF record depends on its first token only. */
  lemma SpfByFirstToken(s: string)
    ensures IsSpf(s) <==> Fields(s) != [] && StartsSpf(Fields(s)[0])
  {
    LeftTrimmed(s);
    TrimLeftMeans(s);
    TrimRightMeans(TrimLeft(s));
    var t := TrimLeft(s);
    var u := Trim(s);
    if t != "" {
      var n := Run(t);
      assert n <= |u| by {
        assert !IsSpace(t[n - 1]);
      }
      assert Fields(s)[0] == t[..n];
      if |u| >= 6 && Lower(u[..6]) == "v=spf1" {
        VersionHasNoSpace(u[..6]);
        assert forall j :: 0 <= j < 6 ==> t[j] == u[..6][j];
        assert n >= 6;
        assert t[..n][..6] == u[..6];
      }
      if n >= 6 {
        assert t[..n][..6] == u[..6];
      }
    }
  }

  /** Shifting by a prefix moves a match with it. */
  lemma QualifiedShift(a: string, b: string, i: nat)
    ensures QualifiedAt(a + b, |a| + i) <==> QualifiedAt(b, i)
  {
    assert forall j :: 0 <= j < |b| ==> (a + b)[|a| + j] == b[j];
  }

  lemma QualifiedInFront(a: string, b: string, i: nat)
    requires SpaceFree(a) && (b == "" || IsSpace(b[0])) && i < |a|
    ensures QualifiedAt(a + b, i) <==> QualifiedAt(a, i)
  {
    var s := a + b;
    assert forall j :: 0 <= j < |a| ==> s[j] == a[j];
    if b != "" {
      assert s[|a|] == b[0];
      assert !IsWordChar(s[|a|]) && LowerChar(s[|a|]) == s[|a|];
    }
  }

  lemma QualifiedSplit(a: string, b: string)
    requires SpaceFree(a) && (b == "" || IsSpace(b[0]))
    ensures HasQualifiedAll(a + b) <==> HasQualifiedAll(a) || HasQualifiedAll(b)
  {
    if HasQualifiedAll(a + b) {
      var i :| 0 <= i < |a + b| && QualifiedAt(a + b, i);
      if i < |a| {
        QualifiedInFront(a, b, i);
      } else {
        QualifiedShift(a, b, i - |a|);
      }
    }
    if HasQualifiedAll(a) {
      var i :| 0 <= i < |a| && QualifiedAt(a, i);
      QualifiedInFront(a, b, i);
    }
    if HasQualifiedAll(b) {
      var i :| 0 <= i < |b| && QualifiedAt(b, i);
      QualifiedShift(a, b, i);
    }
  }

  lemma QualifiedAfterSpace(s: string)
    requires s != "" && IsSpace(s[0])
    ensures HasQualifiedAll(s) <==> HasQualifiedAll(s[1..])
  {
    assert s == s[..1] + s[1..];
    if HasQualifiedAll(s) {
      var i :| 0 <= i < |s| && QualifiedAt(s, i);
      QualifiedShift(s[..1], s[1..], i - 1);
    }
    if HasQualifiedAll(s[1..]) {
      var i :| 0 <= i < |s[1..]| && QualifiedAt(s[1..], i);
      QualifiedShift(s[..1], s[1..], i);
    }
  }

  predicate SomeQualified(ts: seq<string>)
  {
    exists t :: t in ts && HasQualifiedAll(t)
  }

  /** A qualified `all` lies inside one token, so the pattern can be looked up token by token. */
  lemma {:induction false} QualifiedByTokens(s: string)
    ensures HasQualifiedAll(s) <==> SomeQualified(Fields(s))
    decreases |s|
  {
    if s == "" {
    } else if IsSpace(s[0]) {
      QualifiedByTokens(s[1..]);
      QualifiedAfterSpace(s);
    } else {
      var n := Run(s);
      QualifiedByTokens(s[n..]);
      QualifiedSplit(s[..n], s[n..]);
      assert s[..n] + s[n..] == s;
    }
  }

  /** The record proposed for a domain replaces the graded one, or is added if there was none. */
  function Publish(records: seq<string>, was: Option<string>, fix: string): seq<string>
  {
    if was.None? || records == [] then records + [fix]
    else if records[0] == was.value then [fix] + records[1..]
    else [records[0]] + Publish(records[1..], was, fix)
  }

  lemma {:induction false} OnlySpf(records: seq<string>, r: string)
    requires r in SpfRecords(records)
    ensures IsSpf(r) && r in records
  {
    if !IsSpf(records[0]) || r != records[0] {
      OnlySpf(records[1..], r);
    }
  }

  lemma {:induction false} PublishedAlone(records: seq<string>, fix: string)
    requires |SpfRecords(records)| == 1 && IsSpf(fix)
    ensures SpfRecords(Publish(records, Some(SpfRecords(records)[0]), fix)) == [fix]
  {
    if !IsSpf(records[0]) {
      PublishedAlone(records[1..], fix);
      OnlySpf(records, SpfRecords(records)[0]);
    }
  }

  lemma {:induction false} AddedAlone(records: seq<string>, fix: string)
    requires SpfRecords(records) == [] && IsSpf(fix)
    ensures SpfRecords(records + [fix]) == [fix]
  {
    if records == [] {
      assert records + [fix] == [fix] && [fix][1..] == [];
    } else {
      assert (records + [fix])[0] == records[0] && (records + [fix])[1..] == records[1..] + [fix];
      AddedAlone(records[1..], fix);
    }
  }

  lemma VersionIsNotAll(t: string)
    requires StartsSpf(t)
    ensures !IsAll(t)
  {
    assert |Lower(t)| > 3 && |Lower(t[1..])| > 3;
  }

  lemma MergedMembers(ts: seq<string>, missing: seq<string>, t: string)
    ensures t in Merged(ts, missing) <==> t in ts || t in missing || (!HasAll(ts) && t == "-all")
  {
    var i := AllAt(ts);
    assert ts == ts[..i] + ts[i..];
  }

  lemma NothingMissing(required: seq<string>, ts: seq<string>, missing: seq<string>)
    requires missing == Missing(required, ts)
    ensures Missing(required, Merged(ts, missing)) == []
  {
    forall m | m in required ensures Lists(Merged(ts, missing), m) {
      MergedMembers(ts, missing, m);
      if Lists(ts, m) {
        var t :| t in ts && Lower(t) == Lower(m);
        MergedMembers(ts, missing, t);
      }
    }
  }

  lemma DashAll()
    ensures HasQualifiedAll("-all")
  {
    assert QualifiedAt("-all", 0);
  }

  lemma QualifiedMerged(ts: seq<string>, missing: seq<string>)
    ensures SomeQualified(Merged(ts, missing)) <==> !HasAll(ts) || SomeQualified(ts) || SomeQualified(missing)
  {
    DashAll();
    if SomeQualified(Merged(ts, missing)) {
      var t :| t in Merged(ts, missing) && HasQualifiedAll(t);
      MergedMembers(ts, missing, t);
    }
    if SomeQualified(ts) || SomeQualified(missing) {
      var t :| (t in ts || t in missing) && HasQualifiedAll(t);
      MergedMembers(ts, missing, t);
    }
    MergedMembers(ts, missing, "-all");
  }

  /** Grading again, with the proposed record published, the records of a domain that lacked some
      mechanism of its route. The record stays an SPF record, nothing is missing any more, and the
      verdict is `ok` exactly if the old record had no `all` token (one is added), or it or an added
      mechanism holds a qualified `all`. A record ending in a bare `all` is therefore reported again. */
  lemma RegradeRepaired(records: seq<string>, required: seq<string>)
    requires forall m :: m in required ==> IsToken(m)
    requires var g := Grade(records, required); g.found.Some? && g.fix.Some?
    ensures var g := Grade(records, required);
            var was := g.found.value;
            var again := Grade(Publish(records, g.found, g.fix.value), required);
            && g.status == Warning && again.found == g.fix && again.fix == None
            && (again.status == Ok <==>
                  !HasAll(Fields(was)) || HasQualifiedAll(was) || SomeQualified(Missing(required, Words(was))))
            && (again.status != Ok ==> again.status == Warning)
  {
    var was := SpfRecords(records)[0];
    var missing := Missing(required, Words(was));
    var fix := MergeSpf(was, missing);
    var ts, merged := Fields(was), Merged(Fields(was), missing);
    OnlySpf(records, was);
    SpfByFirstToken(was);
    VersionIsNotAll(ts[0]);
    MergeKeepsTokens(was, missing);
    assert merged[0] == ts[0];
    SpfByFirstToken(fix);
    PublishedAlone(records, fix);
    NothingMissing(required, ts, missing);
    QualifiedByTokens(was);
    QualifiedByTokens(fix);
    QualifiedMerged(ts, missing);
  }

  lemma BuiltRecord(required: seq<string>)
    requires forall m :: m in required ==> IsToken(m)
    ensures var fix := BuildSpf(required);
            IsSpf(fix) && HasQualifiedAll(fix) && Fields(fix) != [] && Missing(required, Fields(fix)) == []
  {
    var ts := ["v=spf1"] + required + ["-all"];
    var fix := BuildSpf(required);
    SplitJoin(ts);
    assert StartsSpf(ts[0]) by {
      assert "v=spf1"[..6] == "v=spf1" && Lower("v=spf1") == "v=spf1";
    }
    SpfByFirstToken(fix);
    DashAll();
    assert ts[|ts| - 1] == "-all";
    QualifiedByTokens(fix);
    assert forall m :: m in required ==> m in ts;
  }

  /** Publishing the record proposed to a domain without one. */
  lemma RegradeBuilt(records: seq<string>, required: seq<string>)
    requires forall m :: m in required ==> IsToken(m)
    requires Grade(records, required).found.None?
    ensures var g := Grade(records, required);
            && g.fix.Some? && g.status == Error
            && Grade(Publish(records, g.found, g.fix.value), required)
               == Report(if required == [] then Info else Ok, g.fix, None)
  {
    BuiltRecord(required);
    AddedAlone(records, BuildSpf(required));
  }

  lemma {:induction false} NameOf(name: string, rest: string)
    requires forall c :: c in name ==> IsNameChar(c)
    requires rest != "" && !IsNameChar(rest[0])
    ensures NameLength(name + rest) == |name|
  {
    if name == "" {
      assert name + rest == rest;
    } else {
      assert (name + rest)[1..] == name[1..] + rest;
      NameOf(name[1..], rest);
    }
  }

  lemma Version(t: string)
    requires t == "v=spf1"
    ensures Lower(t) == t && IsToken(t) && StartsSpf(t) && !HasQualifiedAll(t) && !IsAll(t)
  {
    assert t[..6] == t;
    VersionIsNotAll(t);
  }

  lemma BareAll()
    ensures var ts := ["v=spf1", "all"];
            Fields(Join(ts)) == ts && IsSpf(Join(ts)) && HasAll(ts) && !HasQualifiedAll(Join(ts))
  {
    var ts := ["v=spf1", "all"];
    Version(ts[0]);
    SplitJoin(ts);
    SpfByFirstToken(Join(ts));
    assert IsAll(ts[1]) by { assert Lower("all") == "all"; }
    assert !HasQualifiedAll(ts[1]);
    QualifiedByTokens(Join(ts));
  }

  lemma OneRecord(r: string)
    requires IsSpf(r)
    ensures SpfRecords([r]) == [r]
  {
    assert [r][1..] == [];
  }

  lemma OneMissing(m: string, ts: seq<string>)
    requires forall t :: t in ts ==> |t| < |m|
    ensures Missing([m], ts) == [m]
  {
    assert forall t :: t in ts ==> |Lower(t)| < |Lower(m)|;
    assert [m][1..] == [];
  }

  /** A bare `all` means `+all`, yet the repaired record is reported once more. */
  lemma BareAllIsReportedAgain(m: string)
    requires IsToken(m) && !HasQualifiedAll(m) && |m| > 6
    ensures var records := [Join(["v=spf1", "all"])];
            var g := Grade(records, [m]);
            && g.found.Some? && g.fix.Some?
            && Grade(Publish(records, g.found, g.fix.value), [m]).status == Warning
  {
    var ts := ["v=spf1", "all"];
    var was := Join(ts);
    BareAll();
    OneRecord(was);
    OneMissing(m, ts);
    RegradeRepaired([was], [m]);
  }

  lemma SubsetSize(a: set<nat>, b: set<nat>)
    requires a <= b
    ensures |a| <= |b|
  {
    assert b == a + (b - a);
  }

  lemma AtMostOne(t: string)
    ensures |Uses([t], "redirect")| <= 1 && |Uses([t], "exp")| <= 1
  {
    assert Uses([t], "redirect") <= {0} && Uses([t], "exp") <= {0};
    SubsetSize(Uses([t], "redirect"), {0});
    SubsetSize(Uses([t], "exp"), {0});
  }

  lemma RedirectTerm(target: string, h: Host)
    requires (forall t :: h.legal(t)) && SpaceFree(target)
    ensures var ts := ["v=spf1", "redirect" + ("=" + target)];
            Reaches(ts, h) && !HasAll(ts) && Check(ts, h) == Redirect(ts[1]) && IsToken(ts[1])
  {
    var redirect := "redirect" + ("=" + target);
    NameOf("redirect", "=" + target);
    assert redirect[..8] == "redirect" && Lower("redirect") == "redirect";
    var ts := ["v=spf1", redirect];
    Version(ts[0]);
    if IsAll(redirect) {
      AllIsNoModifier(redirect);
    }
    assert ts[1..] == [redirect] && [redirect][1..] == [];
    assert Modifiers([redirect]) == [redirect];
    AtMostOne(redirect);
    assert ts[1..AllAt(ts)] == [redirect];
  }

  /** A record that ends in `redirect=` instead of `all` loses it: the appended `-all` fails the hosts
      that the other domain's record was asked about. */
  lemma RedirectIsLost(m: string, target: string, h: Host)
    requires (forall t :: h.legal(t)) && SpaceFree(target)
    requires Addable([m], h) && Ask(m, h) == NoMatch
    ensures var redirect := "redirect" + ("=" + target);
            var was := Join(["v=spf1", redirect]);
            && Check(Fields(was), h) == Redirect(redirect)
            && Check(Fields(MergeSpf(was, [m])), h) == Fail
  {
    var ts := ["v=spf1", "redirect" + ("=" + target)];
    RedirectTerm(target, h);
    Version(ts[0]);
    SplitJoin(ts);
    RepairMeaning(Join(ts), [m], h);
    NothingAnswers([m], h);
  }
}
