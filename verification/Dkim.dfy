/** DKIM key records: the tag printer and parser (sections 3.2 and 3.6.1 of RFC 6376) and the grading
    of a published record against the signing key. */
module Dkim {
  import opened Text

  // ---------------------------------------------------------------- tag lists

  function JoinOn(ps: seq<string>, c: char): string
    requires ps != []
  {
    if |ps| == 1 then ps[0] else ps[0] + [c] + JoinOn(ps[1..], c)
  }

  lemma {:induction false} SplitJoin(ps: seq<string>, c: char)
    requires ps != [] && forall p :: p in ps ==> c !in p
    ensures SplitOn(JoinOn(ps, c), c) == ps
  {
    assert ps[0] in ps;
    if |ps| == 1 {
      SplitWhole(ps[0], c);
    } else {
      SplitFirst(ps[0], c, JoinOn(ps[1..], c));
      SplitJoin(ps[1..], c);
    }
  }

  /** The piece is a tag of that name, its value any text, with an equals sign in it or not. */
  predicate IsTag(piece: string, tag: string)
  {
    var t := Trim(piece);
    var eq := IndexOf(t, '=');
    eq < |t| && Lower(Trim(t[..eq])) == Lower(tag)
  }

  function Value(piece: string): string
  {
    var t := Trim(piece);
    var eq := IndexOf(t, '=');
    if eq < |t| then Trim(t[eq + 1..]) else ""
  }

  /** The value of the first tag of that name. */
  function Lookup(pieces: seq<string>, tag: string): (v: Option<string>)
  {
    if pieces == [] then None
    else if IsTag(pieces[0], tag) then Some(Value(pieces[0]))
    else Lookup(pieces[1..], tag)
  }

  /** Where the tag is found. */
  function TagAt(pieces: seq<string>, tag: string): (k: nat)
    ensures k <= |pieces|
    ensures forall j :: 0 <= j < k ==> !IsTag(pieces[j], tag)
    ensures k < |pieces| ==> IsTag(pieces[k], tag)
  {
    if pieces == [] || IsTag(pieces[0], tag) then 0 else 1 + TagAt(pieces[1..], tag)
  }

  lemma {:induction false} LookupIsFirst(pieces: seq<string>, tag: string)
    ensures var k := TagAt(pieces, tag);
            Lookup(pieces, tag) == if k < |pieces| then Some(Value(pieces[k])) else None
  {
    if pieces != [] && !IsTag(pieces[0], tag) {
      LookupIsFirst(pieces[1..], tag);
    }
  }

  method ExtractTag(record: string, tag: string) returns (v: Option<string>)
    ensures v == Lookup(SplitOn(record, ';'), tag)
  {
    var pieces := SplitOn(record, ';');
    for k := 0 to |pieces|
      invariant Lookup(pieces, tag) == Lookup(pieces[k..], tag)
    {
      var t := Trim(pieces[k]);
      var eq := IndexOf(t, '=');
      if eq == |t| {
        continue;
      }
      if Lower(Trim(t[..eq])) == Lower(tag) {
        return Some(Trim(t[eq + 1..]));
      }
    }
    return None;
  }

  // ---------------------------------------------------------------- grading

  datatype Rotation = Active | Retiring | Revoked
  datatype Status = Ok | Warning | Error
  datatype Report = Report(status: Status, found: Option<string>, fix: Option<string>)

  /** `replace(/\s+/g, "")`. */
  function Strip(s: string): string
  {
    if s == "" then "" else (if IsSpace(s[0]) then "" else [s[0]]) + Strip(s[1..])
  }

  function KeyRecord(key: string): string
  {
    "v=DKIM1; k=rsa; p=" + key
  }

  /** An empty record counts as an absent one, and an empty key as no key. */
  function Grade(published: Option<string>, key: string, rotation: Rotation): Report
  {
    var wrong := if rotation.Active? then Error else Warning;
    if published.None? || published.value == "" then
      if rotation.Revoked? then Report(Ok, None, None) else Report(wrong, None, Some(KeyRecord(key)))
    else if rotation.Revoked? then Report(Warning, published, None)
    else
      var publishedKey := Lookup(SplitOn(published.value, ';'), "p");
      if publishedKey.Some? && publishedKey.value != "" && Strip(publishedKey.value) == Strip(key)
      then Report(Ok, published, None)
      else Report(wrong, published, Some(KeyRecord(key)))
  }

  // ---------------------------------------------------------------- white space

  lemma {:induction false} StripParts(a: string, b: string)
    ensures Strip(a + b) == Strip(a) + Strip(b)
  {
    if a == "" {
      assert a + b == b;
    } else {
      assert (a + b)[0] == a[0] && (a + b)[1..] == a[1..] + b;
      StripParts(a[1..], b);
    }
  }

  /** Stripping leaves exactly the non-blank characters. */
  lemma {:induction false} StripMembers(s: string)
    ensures forall c :: c in Strip(s) <==> c in s && !IsSpace(c)
    ensures Strip(s) == "" <==> Blank(s)
  {
    if s != "" {
      StripMembers(s[1..]);
      assert s == [s[0]] + s[1..];
      assert Blank(s) <==> IsSpace(s[0]) && Blank(s[1..]) by {
        assert forall i :: 0 < i < |s| ==> s[i] == s[1..][i - 1];
      }
    }
  }

  lemma {:induction false} StripTrimLeft(s: string)
    ensures Strip(TrimLeft(s)) == Strip(s)
  {
    if s != "" && IsSpace(s[0]) {
      StripTrimLeft(s[1..]);
    }
  }

  lemma StripTrimRight(s: string)
    ensures Strip(TrimRight(s)) == Strip(s)
  {
    var r := TrimRight(s);
    TrimRightMeans(s);
    assert s == r + s[|r|..];
    StripParts(r, s[|r|..]);
    StripMembers(s[|r|..]);
  }

  lemma StripTrim(s: string)
    ensures Strip(Trim(s)) == Strip(s)
    ensures Trim(s) == "" <==> Blank(s)
  {
    StripTrimLeft(s);
    StripTrimRight(TrimLeft(s));
    TrimRightMeans(TrimLeft(s));
    StripMembers(s);
    StripMembers(Trim(s));
  }

  lemma {:induction false} TrimLeftBefore(a: string, b: string)
    requires b != "" && !IsSpace(b[0])
    ensures TrimLeft(a + b) == TrimLeft(a) + b
  {
    if a == "" {
      assert a + b == b;
    } else if IsSpace(a[0]) {
      assert (a + b)[1..] == a[1..] + b;
      TrimLeftBefore(a[1..], b);
    }
  }

  lemma {:induction false} TrimRightAfter(a: string, b: string)
    requires a != "" && !IsSpace(a[|a| - 1])
    ensures TrimRight(a + b) == a + TrimRight(b)
  {
    if b == "" {
      assert a + b == a;
    } else if IsSpace(b[|b| - 1]) {
      assert (a + b)[..|a + b| - 1] == a + b[..|b| - 1];
      TrimRightAfter(a, b[..|b| - 1]);
    }
  }

  lemma {:induction false} TrimKeeps(s: string, c: char)
    ensures c in TrimLeft(s) ==> c in s
  {
    if s != "" && IsSpace(s[0]) {
      TrimKeeps(s[1..], c);
    }
  }

  lemma FirstAt(a: string, c: char, b: string)
    requires c !in a
    ensures IndexOf(a + [c] + b, c) == |a|
  {
    var t := a + [c] + b;
    assert t[|a|] == c && forall j :: 0 <= j < |a| ==> t[j] == a[j];
  }

  lemma TrimmedPiece(name: string, v: string)
    requires '=' !in name
    ensures var t := Trim(name + "=" + v);
            t == TrimLeft(name) + "=" + TrimRight(v) && IndexOf(t, '=') == |TrimLeft(name)|
  {
    var n := TrimLeft(name);
    assert name + "=" + v == name + ("=" + v);
    TrimLeftBefore(name, "=" + v);
    assert n + ("=" + v) == (n + "=") + v;
    TrimRightAfter(n + "=", v);
    TrimKeeps(name, '=');
    FirstAt(n, '=', TrimRight(v));
  }

  /** What the parser reads from a piece written as a name, an equals sign and a value. */
  lemma PieceIsTag(name: string, v: string, tag: string)
    requires '=' !in name
    ensures IsTag(name + "=" + v, tag) <==> Lower(Trim(TrimLeft(name))) == Lower(tag)
    ensures Strip(Value(name + "=" + v)) == Strip(v)
    ensures Value(name + "=" + v) == "" <==> Blank(v)
  {
    var n, r := TrimLeft(name), TrimRight(v);
    var t := n + "=" + r;
    TrimmedPiece(name, v);
    assert t[..|n|] == n && t[|n| + 1..] == r;
    StripTrimRight(v);
    StripTrim(r);
    StripMembers(v);
    StripMembers(r);
  }

  // ---------------------------------------------------------------- the two laws

  lemma StillNoSemicolon(name: string, v: string, v': string)
    requires ';' !in name + "=" + v && Strip(v) == Strip(v')
    ensures ';' !in name + "=" + v'
  {
    var s := name + "=" + v;
    assert forall j :: 0 <= j < |v| ==> v[j] == s[|name| + 1 + j];
    assert forall j :: 0 <= j < |name| ==> name[j] == s[j];
    StripMembers(v);
    StripMembers(v');
  }

  lemma {:induction false} JoinHolds(ps: seq<string>, k: nat)
    requires k < |ps| && ps[k] != ""
    ensures JoinOn(ps, ';') != ""
  {
  }

  lemma {:induction false} SameLookup(pieces: seq<string>, k: nat, name: string, v: string, v': string, tag: string)
    requires k < |pieces| && pieces[k] == name + "=" + v && '=' !in name
    requires Strip(v) == Strip(v')
    ensures var a, b := Lookup(pieces, tag), Lookup(pieces[k := name + "=" + v'], tag);
            && (a.Some? <==> b.Some?)
            && (a.Some? ==> Strip(a.value) == Strip(b.value) && (a.value == "" <==> b.value == ""))
  {
    var pieces' := pieces[k := name + "=" + v'];
    if k == 0 {
      PieceIsTag(name, v, tag);
      PieceIsTag(name, v', tag);
      StripMembers(v);
      StripMembers(v');
      assert pieces'[1..] == pieces[1..];
    } else {
      assert pieces'[1..] == pieces[1..][k - 1 := name + "=" + v'];
      SameLookup(pieces[1..], k - 1, name, v, v', tag);
    }
  }

  lemma SameGrade(r: string, r': string, key: string, rotation: Rotation)
    requires r != "" && r' != ""
    requires var a, b := Lookup(SplitOn(r, ';'), "p"), Lookup(SplitOn(r', ';'), "p");
             && (a.Some? <==> b.Some?)
             && (a.Some? ==> Strip(a.value) == Strip(b.value) && (a.value == "" <==> b.value == ""))
    ensures Grade(Some(r), key, rotation).status == Grade(Some(r'), key, rotation).status
  {
  }

  /** Republishing a record with white space added to, or removed from, the value of any tag never
      changes the verdict, whatever else the value holds. */
  lemma SpacesDoNotMatter(pieces: seq<string>, k: nat, name: string, v: string, v': string,
                          key: string, rotation: Rotation)
    requires k < |pieces| && forall p :: p in pieces ==> ';' !in p
    requires pieces[k] == name + "=" + v && '=' !in name
    requires Strip(v) == Strip(v')
    ensures var pieces' := pieces[k := name + "=" + v'];
            Grade(Some(JoinOn(pieces, ';')), key, rotation).status
            == Grade(Some(JoinOn(pieces', ';')), key, rotation).status
  {
    var pieces' := pieces[k := name + "=" + v'];
    assert pieces[k] in pieces;
    StillNoSemicolon(name, v, v');
    SplitJoin(pieces, ';');
    SplitJoin(pieces', ';');
    JoinHolds(pieces, k);
    JoinHolds(pieces', k);
    SameLookup(pieces, k, name, v, v', "p");
    SameGrade(JoinOn(pieces, ';'), JoinOn(pieces', ';'), key, rotation);
  }

  lemma OtherTag(name: string, v: string, tag: string)
    requires |name| == 1 && |tag| == 1 && !IsSpace(name[0]) && name[0] != '=' && LowerChar(name[0]) != LowerChar(tag[0])
    ensures !IsTag(name + "=" + v, tag)
  {
    PieceIsTag(name, v, tag);
    assert Lower(name)[0] != Lower(tag)[0];
  }

  lemma LookupSkips(a: string, rest: seq<string>, tag: string)
    requires !IsTag(a, tag)
    ensures Lookup([a] + rest, tag) == Lookup(rest, tag)
  {
    assert ([a] + rest)[1..] == rest;
  }

  lemma {:induction false} IndexAfter(name: string, key: string, c: char)
    requires c !in name
    ensures IndexOf(name + key, c) == |name| + IndexOf(key, c)
  {
    if name == "" {
      assert name + key == key;
    } else {
      assert (name + key)[1..] == name[1..] + key;
      IndexAfter(name[1..], key, c);
    }
  }

  lemma FirstPiece(name: string, key: string, c: char)
    requires c !in name
    ensures SplitOn(name + key, c)[0] == name + key[..IndexOf(key, c)]
  {
    var i, s := IndexOf(key, c), name + key;
    IndexAfter(name, key, c);
    assert s[..|name| + i] == name + key[..i];
  }

  lemma Printed(key: string)
    ensures KeyRecord(key) == "v=DKIM1" + [';'] + (" k=rsa" + [';'] + (" p=" + key))
  {
    assert "v=DKIM1; k=rsa; p=" == "v=DKIM1" + [';'] + (" k=rsa" + [';'] + " p=");
  }

  lemma TwoPieces(a: string, b: string, c: string)
    requires ';' !in a && ';' !in b
    ensures SplitOn(a + [';'] + (b + [';'] + c), ';') == [a] + ([b] + SplitOn(c, ';'))
  {
    SplitFirst(a, ';', b + [';'] + c);
    SplitFirst(b, ';', c);
  }

  lemma PrintedPieces(key: string)
    ensures SplitOn(KeyRecord(key), ';') == ["v=DKIM1"] + ([" k=rsa"] + SplitOn(" p=" + key, ';'))
    ensures SplitOn(" p=" + key, ';')[0] == " p=" + key[..IndexOf(key, ';')]
  {
    Printed(key);
    TwoPieces("v=DKIM1", " k=rsa", " p=" + key);
    FirstPiece(" p=", key, ';');
  }

  lemma VersionTag()
    ensures !IsTag("v=DKIM1", "p")
  {
    OtherTag("v", "DKIM1", "p");
    assert "v" + "=" + "DKIM1" == "v=DKIM1";
  }

  lemma KeyTypeTag()
    ensures !IsTag(" k=rsa", "p")
  {
    PieceIsTag(" k", "rsa", "p");
    assert " k" + "=" + "rsa" == " k=rsa";
    assert TrimLeft(" k") == "k" && Trim("k") == "k";
    assert Lower("k")[0] != Lower("p")[0];
  }

  lemma KeyTag(v: string)
    ensures IsTag(" p=" + v, "p") && Strip(Value(" p=" + v)) == Strip(v)
    ensures Value(" p=" + v) == "" <==> Blank(v)
  {
    PieceIsTag(" p", v, "p");
    assert " p" + "=" + v == " p=" + v;
    assert TrimLeft(" p") == "p" && Trim("p") == "p";
  }

  lemma LookupHere(pieces: seq<string>, tag: string)
    requires pieces != [] && IsTag(pieces[0], tag)
    ensures Lookup(pieces, tag) == Some(Value(pieces[0]))
  {
  }

  /** The third piece of the printed record is the one that is read back. */
  lemma ReadsBack(key: string)
    ensures var v := key[..IndexOf(key, ';')];
            && Lookup(SplitOn(KeyRecord(key), ';'), "p") == Some(Value(" p=" + v))
            && Strip(Value(" p=" + v)) == Strip(v)
            && (Value(" p=" + v) == "" <==> Blank(v))
  {
    PrintedPieces(key);
    VersionTag();
    KeyTypeTag();
    KeyTag(key[..IndexOf(key, ';')]);
    LookupSkips("v=DKIM1", [" k=rsa"] + SplitOn(" p=" + key, ';'), "p");
    LookupSkips(" k=rsa", SplitOn(" p=" + key, ';'), "p");
    LookupHere(SplitOn(" p=" + key, ';'), "p");
  }

  lemma GradeBy(record: string, key: string, rotation: Rotation, value: string)
    requires !rotation.Revoked? && record != ""
    requires Lookup(SplitOn(record, ';'), "p") == Some(value)
    ensures var g := Grade(Some(record), key, rotation);
            && (g.status == Ok <==> value != "" && Strip(value) == Strip(key))
            && (g.status != Ok ==> g == Report(g.status, Some(record), Some(KeyRecord(key))))
  {
  }

  lemma KeySurvives(key: string)
    ensures var v := key[..IndexOf(key, ';')];
            !Blank(v) && Strip(v) == Strip(key) <==> ';' !in key && !Blank(key)
  {
    var i := IndexOf(key, ';');
    var v := key[..i];
    assert key == v + key[i..];
    StripParts(v, key[i..]);
    StripMembers(key[i..]);
    if i < |key| {
      assert key[i..][0] == ';' && ';' in key[i..];
    } else {
      assert v == key;
    }
  }

  /** The proposed record is graded `ok` exactly for keys with no semicolon and at least one non-blank
      character; for other keys publishing it leaves the same complaint and the same proposal. */
  lemma FixIsFixpoint(key: string, rotation: Rotation)
    requires !rotation.Revoked?
    ensures var again := Grade(Some(KeyRecord(key)), key, rotation);
            && (again.status == Ok <==> ';' !in key && !Blank(key))
            && (again.status != Ok ==> again.fix == again.found == Some(KeyRecord(key)))
  {
    var v := key[..IndexOf(key, ';')];
    ReadsBack(key);
    GradeBy(KeyRecord(key), key, rotation, Value(" p=" + v));
    KeySurvives(key);
  }
}
