/** Characters and strings as the program's Go and TypeScript code sees them. */
module Text {
  datatype Option<+T> = None | Some(value: T)

  /** ASCII case folding (`strings.ToLower`, `toLowerCase` on ASCII input). */
  function LowerChar(c: char): (r: char)
  {
    if 'A' <= c <= 'Z' then ((c as int) + 32) as char else c
  }

  function Lower(s: string): (r: string)
    ensures |r| == |s|
    ensures forall i :: 0 <= i < |s| ==> r[i] == LowerChar(s[i])
  {
    seq(|s|, i requires 0 <= i < |s| => LowerChar(s[i]))
  }

  /** The white space of ECMAScript's `\s` and `trim`. */
  predicate IsSpace(c: char)
  {
    var n := c as int;
    || 9 <= n <= 13 || n == 32 || n == 160 || n == 0x1680 || 0x2000 <= n <= 0x200a
    || n == 0x2028 || n == 0x2029 || n == 0x202f || n == 0x205f || n == 0x3000 || n == 0xfeff
  }

  predicate Blank(s: string)
  {
    forall i :: 0 <= i < |s| ==> IsSpace(s[i])
  }

  predicate SpaceFree(s: string)
  {
    forall i :: 0 <= i < |s| ==> !IsSpace(s[i])
  }

  function TrimLeft(s: string): string
  {
    if s != "" && IsSpace(s[0]) then TrimLeft(s[1..]) else s
  }

  function TrimRight(s: string): string
  {
    if s != "" && IsSpace(s[|s| - 1]) then TrimRight(s[..|s| - 1]) else s
  }

  lemma {:induction false} TrimLeftMeans(s: string)
    ensures var r := TrimLeft(s); r == "" || !IsSpace(r[0])
  {
    if s != "" && IsSpace(s[0]) {
      TrimLeftMeans(s[1..]);
    }
  }

  lemma {:induction false} TrimRightMeans(s: string)
    ensures var r := TrimRight(s);
            && r <= s && (forall i :: |r| <= i < |s| ==> IsSpace(s[i]))
            && (r == "" || !IsSpace(r[|r| - 1]))
  {
    if s != "" && IsSpace(s[|s| - 1]) {
      TrimRightMeans(s[..|s| - 1]);
    }
  }

  /** `trim()`. */
  function Trim(s: string): string
  {
    TrimRight(TrimLeft(s))
  }

  /** Position of the first c, or the length. */
  function IndexOf(s: string, c: char): (i: nat)
    ensures i <= |s| && (i < |s| ==> s[i] == c)
    ensures forall j :: 0 <= j < i ==> s[j] != c
  {
    if s == "" || s[0] == c then 0 else 1 + IndexOf(s[1..], c)
  }

  /** `split(c)`: the pieces between the occurrences of c. */
  function SplitOn(s: string, c: char): (ps: seq<string>)
    ensures ps != [] && forall p :: p in ps ==> c !in p
    decreases |s|
  {
    var i := IndexOf(s, c);
    if i == |s| then [s] else [s[..i]] + SplitOn(s[i + 1..], c)
  }

  lemma SplitFirst(a: string, c: char, b: string)
    requires c !in a
    ensures SplitOn(a + [c] + b, c) == [a] + SplitOn(b, c)
  {
    var s := a + [c] + b;
    assert s[|a|] == c && forall j :: 0 <= j < |a| ==> s[j] == a[j];
    assert IndexOf(s, c) == |a|;
    assert s[..|a|] == a && s[|a| + 1..] == b;
  }

  lemma SplitWhole(a: string, c: char)
    requires c !in a
    ensures SplitOn(a, c) == [a]
  {
    assert IndexOf(a, c) == |a|;
  }
}
