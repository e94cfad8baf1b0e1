/** A reader of delivery reports after section 2.1 of RFC 3464 (and section 5.1.1 of RFC 2046 for the
    parts), and its round trip with the printer. It joins no folded lines; the printer writes none. */
module DsnReader {
  import opened Text
  import opened Dsn

  /** Drops leading linear white space. */
  function Unpad(s: string): (r: string)
  {
    if s != "" && (s[0] == ' ' || s[0] == '\t') then Unpad(s[1..]) else s
  }

  function Field(line: string, name: string): Option<string>
  {
    var i := IndexOf(line, ':');
    if i < |line| && Lower(line[..i]) == Lower(name) then Some(Unpad(line[i + 1..])) else None
  }

  /** The first field of that name. */
  function FieldIn(lines: seq<string>, name: string): Option<string>
  {
    if lines == [] then None
    else if Field(lines[0], name).Some? then Field(lines[0], name)
    else FieldIn(lines[1..], name)
  }

  function FirstEmpty(lines: seq<string>): (n: nat)
    ensures n <= |lines| && (n < |lines| ==> lines[n] == "")
    ensures forall i :: 0 <= i < n ==> lines[i] != ""
  {
    if lines == [] || lines[0] == "" then 0 else 1 + FirstEmpty(lines[1..])
  }

  /** The quoted boundary parameter of a content type. */
  function BoundaryIn(params: seq<string>): Option<string>
  {
    if params == [] then None
    else
      var p := Unpad(params[0]);
      if |p| > 10 && p[..10] == "boundary=\"" && p[|p| - 1] == '"' then Some(p[10..|p| - 1])
      else BoundaryIn(params[1..])
  }

  /** The parts between the delimiter lines, up to the closing one; `current` is the part being read. */
  function Parts(lines: seq<string>, b: string, current: Option<seq<string>>): Option<seq<seq<string>>>
    decreases |lines|
  {
    if lines == [] then None
    else if lines[0] == "--" + b + "--" then
      Some(if current.Some? then [current.value] else [])
    else if lines[0] == "--" + b then
      var rest := Parts(lines[1..], b, Some([]));
      if rest.None? then None
      else Some((if current.Some? then [current.value] else []) + rest.value)
    else
      Parts(lines[1..], b, if current.Some? then Some(current.value + [lines[0]]) else None)
  }

  datatype Mail = Mail(to: string, parts: seq<seq<string>>)

  function ReadMail(text: string): Option<Mail>
  {
    var ls := Lines(text);
    var n := FirstEmpty(ls);
    var to, kind := FieldIn(ls[..n], "To"), FieldIn(ls[..n], "Content-Type");
    if n == |ls| || to.None? || kind.None? then None
    else
      var b := BoundaryIn(SplitOn(kind.value, ';'));
      if b.None? || SplitOn(kind.value, ';')[0] != "multipart/report" then None
      else
        var parts := Parts(ls[n + 1..], b.value, None);
        if parts.None? then None else Some(Mail(to.value, parts.value))
  }

  /** A value preceded by its type, as in `rfc822; a@b`. */
  function Typed(v: Option<string>, kind: string): Option<string>
  {
    if v.None? then None
    else
      var i := IndexOf(v.value, ';');
      if i < |v.value| && Lower(v.value[..i]) == Lower(kind) then Some(Unpad(v.value[i + 1..])) else None
  }

  datatype Recipient = Recipient(address: string, action: string, status: string, diagnostic: Option<string>)
  datatype Status = Status(mta: string, recipients: seq<Recipient>)

  /** The fields between two blank lines. */
  function Blocks(lines: seq<string>): seq<seq<string>>
    decreases |lines|
  {
    if lines == [] then []
    else if lines[0] == "" then Blocks(lines[1..])
    else [lines[..FirstEmpty(lines)]] + Blocks(lines[FirstEmpty(lines)..])
  }

  const GROUP_NAMES := ["Final-Recipient", "Action", "Status", "Diagnostic-Code"]

  function Assemble(address: Option<string>, action: Option<string>, status: Option<string>,
                    diagnostic: Option<string>): Option<Recipient>
  {
    if address.None? || action.None? || status.None? then None
    else Some(Recipient(address.value, action.value, status.value, diagnostic))
  }

  function ReadRecipient(block: seq<string>): Option<Recipient>
  {
    Assemble(Typed(FieldIn(block, GROUP_NAMES[0]), "rfc822"), FieldIn(block, GROUP_NAMES[1]),
             FieldIn(block, GROUP_NAMES[2]), Typed(FieldIn(block, GROUP_NAMES[3]), "smtp"))
  }

  function ReadRecipients(blocks: seq<seq<string>>): Option<seq<Recipient>>
  {
    if blocks == [] then Some([])
    else
      var first, rest := ReadRecipient(blocks[0]), ReadRecipients(blocks[1..]);
      if first.None? || rest.None? then None else Some([first.value] + rest.value)
  }

  function ReadStatus(part: seq<string>): Option<Status>
  {
    var n := FirstEmpty(part);
    if n == |part| || FieldIn(part[..n], "Content-Type") != Some("message/delivery-status") then None
    else
      var blocks := Blocks(part[n + 1..]);
      if blocks == [] then None
      else
        var mta, rs := Typed(FieldIn(blocks[0], "Reporting-MTA"), "dns"), ReadRecipients(blocks[1..]);
        if mta.None? || rs.None? then None else Some(Status(mta.value, rs.value))
  }

  // ---------------------------------------------------------------- single lines

  lemma HeadField(name: string, v: string, n: string)
    requires ':' !in name
    ensures Field(Head(name, v), n) == if Lower(name) == Lower(n) then Some(Unpad(v)) else None
  {
    var line := Head(name, v);
    assert line[|name|] == ':' && forall j :: 0 <= j < |name| ==> line[j] == name[j];
    assert IndexOf(line, ':') == |name|;
    assert line[..|name|] == name && line[|name| + 1..] == " " + v;
    assert (" " + v)[1..] == v;
  }

  lemma OtherHead(name: string, v: string, n: string)
    requires ':' !in name && name != "" && n != ""
    requires |name| != |n| || LowerChar(name[0]) != LowerChar(n[0])
    ensures Field(Head(name, v), n).None?
  {
    HeadField(name, v, n);
    if |name| == |n| {
      assert Lower(name)[0] != Lower(n)[0];
    }
  }

  lemma TypedValue(kind: string, v: string)
    requires ';' !in kind && kind != "" && kind[0] != ' ' && kind[0] != '\t'
    ensures Typed(Some(Unpad(kind + "; " + v)), kind) == Some(Unpad(v))
  {
    var t := kind + "; " + v;
    assert t[0] == kind[0] && Unpad(t) == t;
    assert t[|kind|] == ';' && forall j :: 0 <= j < |kind| ==> t[j] == kind[j];
    assert IndexOf(t, ';') == |kind|;
    assert t[..|kind|] == kind && t[|kind| + 1..] == " " + v;
    assert (" " + v)[1..] == v;
  }

  lemma {:induction false} FieldAt(ls: seq<string>, k: nat, name: string)
    requires k < |ls| && Field(ls[k], name).Some?
    requires forall i :: 0 <= i < k ==> Field(ls[i], name).None?
    ensures FieldIn(ls, name) == Field(ls[k], name)
  {
    if k > 0 {
      FieldAt(ls[1..], k - 1, name);
    }
  }

  // ---------------------------------------------------------------- the machine-readable part

  function Expected(rcpts: seq<string>, detail: string): (rs: seq<Recipient>)
    ensures |rs| == |rcpts|
    ensures forall i :: 0 <= i < |rs| ==> rs[i] == Recipient(Unpad(rcpts[i]), "failed", "5.0.0", Some(Unpad(detail)))
  {
    seq(|rcpts|, i requires 0 <= i < |rcpts| => Recipient(Unpad(rcpts[i]), "failed", "5.0.0", Some(Unpad(detail))))
  }

  predicate Apart(a: string, b: string)
  {
    a != "" && b != "" && (|a| != |b| || LowerChar(a[0]) != LowerChar(b[0]))
  }

  /** In a block of named fields, the k-th is found by its name. */
  lemma FieldNamed(ls: seq<string>, names: seq<string>, values: seq<string>, k: nat)
    requires |ls| == |names| == |values| && k < |ls|
    requires forall i :: 0 <= i <= k ==> ls[i] == Head(names[i], values[i]) && ':' !in names[i]
    requires forall i :: 0 <= i < k ==> Apart(names[i], names[k])
    ensures FieldIn(ls, names[k]) == Some(Unpad(values[k]))
  {
    forall i | 0 <= i < k ensures Field(ls[i], names[k]).None? {
      OtherHead(names[i], values[i], names[k]);
    }
    HeadField(names[k], values[k], names[k]);
    FieldAt(ls, k, names[k]);
  }

  lemma GroupNames()
    ensures forall i :: 0 <= i < 4 ==> ':' !in GROUP_NAMES[i]
    ensures forall i, k :: 0 <= i < k < 4 ==> Apart(GROUP_NAMES[i], GROUP_NAMES[k])
  {
  }

  function GroupValues(r: string, detail: string): seq<string>
  {
    ["rfc822; " + r, "failed", "5.0.0", "smtp; " + detail]
  }

  lemma GroupFields(r: string, detail: string, k: nat)
    requires k < 4
    ensures FieldIn(Group(r, detail), GROUP_NAMES[k]) == Some(Unpad(GroupValues(r, detail)[k]))
  {
    GroupNames();
    FieldNamed(Group(r, detail), GROUP_NAMES, GroupValues(r, detail), k);
  }

  lemma AddressRead(f: Option<string>, r: string)
    requires f == Some(Unpad("rfc822; " + r))
    ensures Typed(f, "rfc822") == Some(Unpad(r))
  {
    TypedValue("rfc822", r);
    assert "rfc822" + "; " + r == "rfc822; " + r;
  }

  lemma DiagnosticRead(f: Option<string>, detail: string)
    requires f == Some(Unpad("smtp; " + detail))
    ensures Typed(f, "smtp") == Some(Unpad(detail))
  {
    TypedValue("smtp", detail);
    assert "smtp" + "; " + detail == "smtp; " + detail;
  }

  lemma Constants()
    ensures Unpad("failed") == "failed" && Unpad("5.0.0") == "5.0.0"
  {
  }

  lemma GroupRead(r: string, detail: string)
    ensures ReadRecipient(Group(r, detail)) == Some(Recipient(Unpad(r), "failed", "5.0.0", Some(Unpad(detail))))
  {
    GroupFields(r, detail, 0);
    GroupFields(r, detail, 1);
    GroupFields(r, detail, 2);
    GroupFields(r, detail, 3);
    AddressRead(FieldIn(Group(r, detail), GROUP_NAMES[0]), r);
    DiagnosticRead(FieldIn(Group(r, detail), GROUP_NAMES[3]), detail);
    Constants();
  }

  function GroupList(rcpts: seq<string>, detail: string): (gs: seq<seq<string>>)
  {
    if rcpts == [] then [] else [Group(rcpts[0], detail)] + GroupList(rcpts[1..], detail)
  }

  lemma {:induction false} RecipientsRead(rcpts: seq<string>, detail: string)
    ensures ReadRecipients(GroupList(rcpts, detail)) == Some(Expected(rcpts, detail))
  {
    if rcpts != [] {
      GroupRead(rcpts[0], detail);
      RecipientsRead(rcpts[1..], detail);
      assert Expected(rcpts, detail) == [Expected(rcpts, detail)[0]] + Expected(rcpts[1..], detail);
    }
  }

  lemma BlockFirst(g: seq<string>, rest: seq<string>)
    requires g != [] && forall l :: l in g ==> l != ""
    requires rest != [] && rest[0] == ""
    ensures Blocks(g + rest) == [g] + Blocks(rest)
  {
    var ls := g + rest;
    assert ls[0] == g[0] && g[0] in g;
    assert forall i :: 0 <= i < |g| ==> ls[i] == g[i] && g[i] in g;
    assert ls[|g|] == "";
    assert FirstEmpty(ls) == |g|;
    assert ls[..|g|] == g && ls[|g|..] == rest;
  }

  lemma {:induction false} BlocksOf(rcpts: seq<string>, detail: string)
    ensures Blocks(Groups(rcpts, detail) + [""]) == GroupList(rcpts, detail)
  {
    if rcpts == [] {
      assert Groups(rcpts, detail) + [""] == [""] && [""][1..] == [];
    } else {
      var g, rest := Group(rcpts[0], detail), Groups(rcpts[1..], detail) + [""];
      assert Groups(rcpts, detail) + [""] == [""] + (g + rest);
      assert ([""] + (g + rest))[1..] == g + rest;
      BlockFirst(g, rest);
      BlocksOf(rcpts[1..], detail);
    }
  }

  lemma MachineBlocks(host: string, rcpts: seq<string>, detail: string)
    ensures var part := Machine(host, rcpts, detail);
            && FirstEmpty(part) == 1 && part[..1] == [Head("Content-Type", "message/delivery-status")]
            && Blocks(part[2..]) == [[Head("Reporting-MTA", "dns; " + host)]] + GroupList(rcpts, detail)
  {
    var part := Machine(host, rcpts, detail);
    var mta, rest := Head("Reporting-MTA", "dns; " + host), Groups(rcpts, detail) + [""];
    assert part[0] != "" && part[1] == "";
    assert part[2..] == [mta] + rest;
    BlockFirst([mta], rest);
    BlocksOf(rcpts, detail);
  }

  lemma SoleField(name: string, v: string)
    requires ':' !in name
    ensures FieldIn([Head(name, v)], name) == Some(Unpad(v))
  {
    FieldNamed([Head(name, v)], [name], [v], 0);
  }

  lemma NameRead(f: Option<string>, host: string)
    requires f == Some(Unpad("dns; " + host))
    ensures Typed(f, "dns") == Some(Unpad(host))
  {
    TypedValue("dns", host);
    assert "dns" + "; " + host == "dns; " + host;
  }

  lemma HostRead(host: string)
    ensures Typed(FieldIn([Head("Reporting-MTA", "dns; " + host)], "Reporting-MTA"), "dns") == Some(Unpad(host))
  {
    SoleField("Reporting-MTA", "dns; " + host);
    NameRead(FieldIn([Head("Reporting-MTA", "dns; " + host)], "Reporting-MTA"), host);
  }

  lemma KindRead()
    ensures FieldIn([Head("Content-Type", "message/delivery-status")], "Content-Type")
            == Some("message/delivery-status")
  {
    SoleField("Content-Type", "message/delivery-status");
  }

  /** The machine-readable part gives back the reporting host and the recipients in order. */
  lemma MachineRead(host: string, rcpts: seq<string>, detail: string)
    ensures ReadStatus(Machine(host, rcpts, detail)) == Some(Status(Unpad(host), Expected(rcpts, detail)))
  {
    MachineBlocks(host, rcpts, detail);
    var mta, gs := [Head("Reporting-MTA", "dns; " + host)], GroupList(rcpts, detail);
    assert ([mta] + gs)[1..] == gs;
    KindRead();
    HostRead(host);
    RecipientsRead(rcpts, detail);
  }

  // ---------------------------------------------------------------- the whole message

  /** Identifiers are hexadecimal. */
  predicate Hex(id: string)
  {
    forall c :: c in id ==> '0' <= c <= '9' || 'a' <= c <= 'f'
  }

  const HEADER_NAMES :=
    ["From", "To", "Subject", "Date", "Message-Id", "MIME-Version", "Auto-Submitted", "Content-Type"]

  lemma HeaderNames()
    ensures forall i :: 0 <= i < 8 ==> ':' !in HEADER_NAMES[i]
    ensures Apart(HEADER_NAMES[0], HEADER_NAMES[1])
    ensures forall i :: 0 <= i < 7 ==> Apart(HEADER_NAMES[i], HEADER_NAMES[7])
  {
  }

  function HeaderValues(host: string, id: string, sender: string, date: string): seq<string>
  {
    ["MAILER-DAEMON@" + host, sender, "Delivery Status Notification (Failure)", date,
     "<dsn-" + id + "@" + host + ">", "1.0", "auto-replied", ContentType(id)]
  }

  lemma HeaderFields(host: string, id: string, sender: string, date: string)
    ensures var head := Headers(host, id, sender, date);
            && FieldIn(head, HEADER_NAMES[1]) == Some(Unpad(sender))
            && FieldIn(head, HEADER_NAMES[7]) == Some(Unpad(ContentType(id)))
            && (forall l :: l in head ==> l != "")
  {
    var head, values := Headers(host, id, sender, date), HeaderValues(host, id, sender, date);
    HeaderNames();
    assert forall i :: 0 <= i < 8 ==> head[i] == Head(HEADER_NAMES[i], values[i]);
    FieldNamed(head, HEADER_NAMES, values, 1);
    FieldNamed(head, HEADER_NAMES, values, 7);
  }

  function BoundaryPiece(id: string): string
  {
    " boundary=\"" + Boundary(id) + "\""
  }

  lemma ThreePieces(a: string, b: string, c: string)
    requires ';' !in a && ';' !in b && ';' !in c
    ensures SplitOn(a + [';'] + (b + [';'] + c), ';') == [a, b, c]
  {
    SplitFirst(a, ';', b + [';'] + c);
    SplitFirst(b, ';', c);
    SplitWhole(c, ';');
  }

  lemma TypePieces(id: string)
    requires Hex(id)
    ensures SplitOn(ContentType(id), ';') == ["multipart/report", " report-type=delivery-status", BoundaryPiece(id)]
  {
    var c := BoundaryPiece(id);
    assert ';' !in Boundary(id);
    assert ';' !in c;
    ThreePieces("multipart/report", " report-type=delivery-status", c);
  }

  lemma NotTheBoundary()
    ensures BoundaryIn(["multipart/report"]).None? && BoundaryIn([" report-type=delivery-status"]).None?
  {
    assert Unpad("multipart/report")[0] == 'm';
    assert " report-type=delivery-status"[1..] == "report-type=delivery-status";
    assert Unpad(" report-type=delivery-status")[0] == 'r';
  }

  lemma BoundaryParam(b: string)
    requires b != ""
    ensures BoundaryIn([" boundary=\"" + b + "\""]) == Some(b)
  {
    var c := " boundary=\"" + b + "\"";
    var p := "boundary=\"" + b + "\"";
    assert c[1..] == p && Unpad(c) == p;
    assert p[..10] == "boundary=\"" && p[10..|p| - 1] == b;
  }

  lemma BoundarySkips(p: string, rest: seq<string>)
    requires BoundaryIn([p]).None?
    ensures BoundaryIn([p] + rest) == BoundaryIn(rest)
  {
    assert ([p] + rest)[1..] == rest;
  }

  lemma BoundaryRead(id: string)
    requires Hex(id)
    ensures var params := SplitOn(ContentType(id), ';');
            params[0] == "multipart/report" && BoundaryIn(params) == Some(Boundary(id))
  {
    var a, b, c := "multipart/report", " report-type=delivery-status", BoundaryPiece(id);
    TypePieces(id);
    NotTheBoundary();
    BoundaryParam(Boundary(id));
    BoundarySkips(a, [b, c]);
    BoundarySkips(b, [c]);
    assert [a] + [b, c] == [a, b, c] && [b] + [c] == [b, c];
  }

  lemma TypeUnpadded(id: string)
    ensures Unpad(ContentType(id)) == ContentType(id)
  {
    assert ContentType(id)[0] == 'm';
  }

  // ---------------------------------------------------------------- parts

  /** No line of a part looks like a delimiter. */
  predicate NoDash(ls: seq<string>)
  {
    forall l :: l in ls ==> l == "" || l[0] != '-'
  }

  lemma {:induction false} PartBody(p: seq<string>, rest: seq<string>, b: string, current: seq<string>)
    requires NoDash(p)
    ensures Parts(p + rest, b, Some(current)) == Parts(rest, b, Some(current + p))
    decreases |p|
  {
    if p == [] {
      assert p + rest == rest && current + p == current;
    } else {
      assert (p + rest)[0] == p[0] && (p + rest)[1..] == p[1..] + rest && p[0] in p;
      PartBody(p[1..], rest, b, current + [p[0]]);
      assert current + [p[0]] + p[1..] == current + p;
    }
  }

  lemma PartStart(p: seq<string>, rest: seq<string>, b: string, current: Option<seq<string>>)
    requires NoDash(p)
    requires Parts(rest, b, Some(p)).Some?
    ensures Parts(["--" + b] + (p + rest), b, current)
            == Some((if current.Some? then [current.value] else []) + Parts(rest, b, Some(p)).value)
  {
    var d := "--" + b;
    assert ([d] + (p + rest))[0] == d && ([d] + (p + rest))[1..] == p + rest;
    assert |d| != |"--" + b + "--"|;
    PartBody(p, rest, b, []);
    assert [] + p == p;
  }

  lemma Closed(q: seq<string>, b: string)
    ensures Parts(["--" + b + "--", ""], b, Some(q)) == Some([q])
  {
  }

  /** Two parts, and exactly what was written in each of them. */
  lemma TwoParts(p: seq<string>, q: seq<string>, b: string, rest: seq<string>)
    requires NoDash(p) && NoDash(q)
    requires rest == ["--" + b] + (q + ["--" + b + "--", ""])
    ensures Parts(["--" + b] + (p + rest), b, None) == Some([p, q])
  {
    Closed(q, b);
    PartStart(q, ["--" + b + "--", ""], b, Some(p));
    assert [p] + [q] == [p, q];
    PartStart(p, rest, b, None);
    assert [] + [p, q] == [p, q];
  }

  lemma NoDashBoth(p: seq<string>, q: seq<string>)
    requires NoDash(p) && NoDash(q)
    ensures NoDash(p + q)
  {
  }

  lemma NoDashHead(name: string, v: string)
    requires name != "" && name[0] != '-'
    ensures NoDash([Head(name, v)])
  {
  }

  lemma NoDashOpening(host: string)
    ensures NoDash(Opening(host))
  {
    var o := Opening(host);
    assert o[0][0] == 'C' && o[1] == "" && o[2][0] == 'T' && o[3] == "" && o[4][0] == 'Y' && o[5] == "";
  }

  lemma NoDashHuman(host: string, rcpts: seq<string>, detail: string)
    ensures NoDash(Human(host, rcpts, detail))
  {
    NoDashOpening(host);
    assert forall i :: 0 <= i < |rcpts| ==> Listed(rcpts)[i][0] == ' ';
    NoDashHead("Diagnostic", detail);
    NoDashBoth(Opening(host), Listed(rcpts));
    assert forall l :: l in ["", Head("Diagnostic", detail), ""] ==> l == "" || l == Head("Diagnostic", detail);
    NoDashBoth(Opening(host) + Listed(rcpts), ["", Head("Diagnostic", detail), ""]);
  }

  lemma {:induction false} NoDashGroups(rcpts: seq<string>, detail: string)
    ensures NoDash(Groups(rcpts, detail))
  {
    if rcpts != [] {
      assert NoDash([""] + Group(rcpts[0], detail));
      NoDashGroups(rcpts[1..], detail);
      NoDashBoth([""] + Group(rcpts[0], detail), Groups(rcpts[1..], detail));
    }
  }

  lemma NoDashMachine(host: string, rcpts: seq<string>, detail: string)
    ensures NoDash(Machine(host, rcpts, detail))
  {
    var front := [Head("Content-Type", "message/delivery-status"), "", Head("Reporting-MTA", "dns; " + host)];
    assert NoDash(front);
    NoDashGroups(rcpts, detail);
    NoDashBoth(front, Groups(rcpts, detail));
    NoDashBoth(front + Groups(rcpts, detail), [""]);
  }

  lemma NoticeShape(head: seq<string>, p: seq<string>, q: seq<string>, b: string)
    ensures head + [""] + ["--" + b] + p + ["--" + b] + q + ["--" + b + "--"] + [""]
            == head + ([""] + (["--" + b] + (p + (["--" + b] + (q + ["--" + b + "--", ""])))))
  {
  }

  lemma HeaderEnds(head: seq<string>, body: seq<string>)
    requires forall l :: l in head ==> l != ""
    ensures var ls := head + ([""] + body);
            FirstEmpty(ls) == |head| < |ls| && ls[..|head|] == head && ls[|head| + 1..] == body
  {
    var ls := head + ([""] + body);
    assert forall i :: 0 <= i < |head| ==> ls[i] == head[i] && head[i] in head;
    assert ls[|head|] == "";
  }

  lemma BodyRead(host: string, rcpts: seq<string>, detail: string, b: string)
    ensures var p, q := Human(host, rcpts, detail), Machine(host, rcpts, detail);
            Parts(["--" + b] + (p + (["--" + b] + (q + ["--" + b + "--", ""]))), b, None) == Some([p, q])
  {
    NoDashHuman(host, rcpts, detail);
    NoDashMachine(host, rcpts, detail);
    TwoParts(Human(host, rcpts, detail), Machine(host, rcpts, detail), b,
             ["--" + b] + (Machine(host, rcpts, detail) + ["--" + b + "--", ""]));
  }

  lemma MailOf(text: string, head: seq<string>, body: seq<string>, to: string, kind: string, b: string,
               parts: seq<seq<string>>)
    requires Lines(text) == head + ([""] + body)
    requires FirstEmpty(head + ([""] + body)) == |head|
    requires FieldIn(head, "To") == Some(to) && FieldIn(head, "Content-Type") == Some(kind)
    requires SplitOn(kind, ';')[0] == "multipart/report" && BoundaryIn(SplitOn(kind, ';')) == Some(b)
    requires Parts(body, b, None) == Some(parts)
    ensures ReadMail(text) == Some(Mail(to, parts))
  {
    var ls := Lines(text);
    assert ls[..|head|] == head && ls[|head| + 1..] == body;
  }

  lemma MailRead(host: string, id: string, sender: string, rcpts: seq<string>, detail: string, date: string,
                 text: string)
    requires Hex(id)
    requires Lines(text) == Notice(host, id, sender, rcpts, detail, date) + [""]
    ensures ReadMail(text) == Some(Mail(Unpad(sender), [Human(host, rcpts, detail), Machine(host, rcpts, detail)]))
  {
    var head, b := Headers(host, id, sender, date), Boundary(id);
    var p, q := Human(host, rcpts, detail), Machine(host, rcpts, detail);
    var rest := ["--" + b] + (q + ["--" + b + "--", ""]);
    var body := ["--" + b] + (p + rest);
    var ls := Lines(text);
    NoticeShape(head, p, q, b);
    assert ls == head + ([""] + body);
    HeaderFields(host, id, sender, date);
    HeaderEnds(head, body);
    BoundaryRead(id);
    TypeUnpadded(id);
    BodyRead(host, rcpts, detail, b);
    MailOf(text, head, body, Unpad(sender), ContentType(id), b, [p, q]);
  }

  // ---------------------------------------------------------------- line breaks in the inputs

  lemma Prefixed(a: string, b: string)
    requires '\r' !in a
    ensures OneLine(a + b) <==> OneLine(b)
  {
    var s := a + b;
    assert forall j :: 0 <= j < |a| ==> s[j] == a[j];
    assert forall j :: 0 <= j < |b| ==> s[|a| + j] == b[j];
    if OneLine(b) {
      forall j: nat ensures !BreakAt(s, j) {
        if j >= |a| {
          assert !BreakAt(b, j - |a|);
        }
      }
    }
    if OneLine(s) {
      forall j: nat ensures !BreakAt(b, j) {
        assert !BreakAt(s, |a| + j);
      }
    }
  }

  lemma Suffixed(a: string, b: string)
    requires OneLine(a) && '\n' !in b && '\r' !in b
    ensures OneLine(a + b)
  {
    var s := a + b;
    assert forall j :: 0 <= j < |b| ==> s[|a| + j] == b[j] && b[j] in b;
    forall j: nat ensures !BreakAt(s, j) {
      if j + 1 < |a| {
        assert !BreakAt(a, j);
      }
    }
  }

  ghost predicate AllOneLine(ls: seq<string>)
  {
    forall l :: l in ls ==> OneLine(l)
  }

  lemma HeadOneLine(name: string, v: string)
    requires '\r' !in name && OneLine(v)
    ensures OneLine(Head(name, v))
  {
    Prefixed(name + ": ", v);
    assert Head(name, v) == (name + ": ") + v;
  }

  lemma NoReturn(s: string)
    requires '\r' !in s
    ensures OneLine(s)
  {
    Prefixed(s, "");
    assert s + "" == s;
  }

  /** The inputs of the printer hold no line break. */
  ghost predicate Clean(host: string, sender: string, rcpts: seq<string>, detail: string)
  {
    OneLine(host) && OneLine(sender) && AllOneLine(rcpts) && OneLine(detail)
  }

  lemma HeaderValueLines(host: string, id: string)
    requires Hex(id) && OneLine(host)
    ensures OneLine("MAILER-DAEMON@" + host) && OneLine("<dsn-" + id + "@" + host + ">")
    ensures '\r' !in ContentType(id) && '\r' !in Boundary(id)
  {
    Prefixed("MAILER-DAEMON@", host);
    var front := "<dsn-" + id + "@";
    assert '\r' !in front;
    Prefixed(front, host);
    Suffixed(front + host, ">");
    assert '\r' !in Boundary(id);
  }

  lemma FixedHead(name: string, v: string)
    requires '\r' !in name && '\r' !in v
    ensures OneLine(Head(name, v))
  {
    NoReturn(v);
    HeadOneLine(name, v);
  }

  lemma HeaderLines(host: string, id: string, sender: string, date: string)
    requires Hex(id) && OneLine(host) && OneLine(sender) && OneLine(date)
    ensures AllOneLine(Headers(host, id, sender, date))
  {
    HeaderValueLines(host, id);
    HeadOneLine("From", "MAILER-DAEMON@" + host);
    HeadOneLine("To", sender);
    FixedHead("Subject", "Delivery Status Notification (Failure)");
    HeadOneLine("Date", date);
    HeadOneLine("Message-Id", "<dsn-" + id + "@" + host + ">");
    FixedHead("MIME-Version", "1.0");
    FixedHead("Auto-Submitted", "auto-replied");
    FixedHead("Content-Type", ContentType(id));
  }

  lemma UndeliveredLine()
    ensures OneLine(UNDELIVERED)
  {
    Prefixed("Your message could not be delivered", " to the following recipient(s):");
    NoReturn(" to the following recipient(s):");
  }

  lemma OpeningLines(host: string)
    requires OneLine(host)
    ensures AllOneLine(Opening(host))
  {
    FixedHead("Content-Type", "text/plain; charset=utf-8");
    NoReturn("");
    Prefixed("This is the mail delivery system at ", host);
    Suffixed("This is the mail delivery system at " + host, ".");
    UndeliveredLine();
  }

  lemma HumanLines(host: string, rcpts: seq<string>, detail: string)
    requires OneLine(host) && AllOneLine(rcpts) && OneLine(detail)
    ensures AllOneLine(Human(host, rcpts, detail))
  {
    OpeningLines(host);
    forall l | l in Listed(rcpts) ensures OneLine(l) {
      var i :| 0 <= i < |rcpts| && l == Listed(rcpts)[i];
      assert rcpts[i] in rcpts;
      Prefixed("  ", rcpts[i]);
    }
    HeadOneLine("Diagnostic", detail);
    NoReturn("");
  }

  lemma GroupLines(r: string, detail: string)
    requires OneLine(r) && OneLine(detail)
    ensures AllOneLine(Group(r, detail))
  {
    Prefixed("rfc822; ", r);
    HeadOneLine("Final-Recipient", "rfc822; " + r);
    FixedHead("Action", "failed");
    FixedHead("Status", "5.0.0");
    Prefixed("smtp; ", detail);
    HeadOneLine("Diagnostic-Code", "smtp; " + detail);
  }

  lemma {:induction false} GroupsLines(rcpts: seq<string>, detail: string)
    requires AllOneLine(rcpts) && OneLine(detail)
    ensures AllOneLine(Groups(rcpts, detail))
  {
    if rcpts != [] {
      assert rcpts[0] in rcpts;
      GroupLines(rcpts[0], detail);
      GroupsLines(rcpts[1..], detail);
      NoReturn("");
    }
  }

  lemma MachineLines(host: string, rcpts: seq<string>, detail: string)
    requires OneLine(host) && AllOneLine(rcpts) && OneLine(detail)
    ensures AllOneLine(Machine(host, rcpts, detail))
  {
    FixedHead("Content-Type", "message/delivery-status");
    Prefixed("dns; ", host);
    HeadOneLine("Reporting-MTA", "dns; " + host);
    GroupsLines(rcpts, detail);
    NoReturn("");
  }

  lemma NoticeLines(host: string, id: string, sender: string, rcpts: seq<string>, detail: string, date: string)
    requires Hex(id) && OneLine(date) && Clean(host, sender, rcpts, detail)
    ensures AllOneLine(Notice(host, id, sender, rcpts, detail, date))
  {
    HeaderLines(host, id, sender, date);
    HumanLines(host, rcpts, detail);
    MachineLines(host, rcpts, detail);
    HeaderValueLines(host, id);
    NoReturn("");
    NoReturn("--" + Boundary(id));
    NoReturn("--" + Boundary(id) + "--");
  }

  datatype Report = Report(to: string, parts: nat, status: Status)

  /** The whole reader: a report has two parts, or three, and the second is machine-readable. */
  function Read(text: string): Option<Report>
  {
    var mail := ReadMail(text);
    if mail.None? || !(2 <= |mail.value.parts| <= 3) then None
    else
      var status := ReadStatus(mail.value.parts[1]);
      if status.None? then None else Some(Report(mail.value.to, |mail.value.parts|, status.value))
  }

  /** What the reader should recover, up to white space in front of a value. */
  function Told(host: string, sender: string, rcpts: seq<string>, detail: string): Report
  {
    Report(Unpad(sender), 2, Status(Unpad(host), Expected(rcpts, detail)))
  }

  /** Printing and reading back: exactly two parts, the sender, the reporting host, and one group for
      each recipient, in order, with its status and diagnostic. */
  lemma RoundTrip(host: string, id: string, sender: string, rcpts: seq<string>, detail: string, date: string)
    requires Hex(id) && OneLine(date) && Clean(host, sender, rcpts, detail)
    ensures Read(Unlines(Notice(host, id, sender, rcpts, detail, date))) == Some(Told(host, sender, rcpts, detail))
  {
    var notice := Notice(host, id, sender, rcpts, detail, date);
    var text := Unlines(notice);
    NoticeLines(host, id, sender, rcpts, detail, date);
    LinesOf(notice, "");
    assert text + "" == text;
    assert Lines("") == [""];
    MailRead(host, id, sender, rcpts, detail, date, text);
    MachineRead(host, rcpts, detail);
  }

  // ---------------------------------------------------------------- the converse

  /** The value is the end of one of the lines. */
  ghost predicate EndOf(v: string, ls: seq<string>)
  {
    exists l, i :: l in ls && 0 <= i <= |l| && v == l[i..]
  }

  lemma {:induction false} UnpadEnd(v: string) returns (n: nat)
    ensures n <= |v| && Unpad(v) == v[n..]
    ensures '\n' in v <==> '\n' in Unpad(v)
  {
    if v != "" && (v[0] == ' ' || v[0] == '\t') {
      var m := UnpadEnd(v[1..]);
      n := m + 1;
      assert v == [v[0]] + v[1..];
    } else {
      n := 0;
    }
  }

  lemma EndOfEnd(v: string, n: nat, ls: seq<string>)
    requires EndOf(v, ls) && n <= |v|
    ensures EndOf(v[n..], ls)
  {
    var l, i :| l in ls && 0 <= i <= |l| && v == l[i..];
    assert v[n..] == l[i + n..];
  }

  lemma {:induction false} FieldEnd(ls: seq<string>, name: string)
    requires FieldIn(ls, name).Some?
    ensures EndOf(FieldIn(ls, name).value, ls)
  {
    if Field(ls[0], name).Some? {
      var i := IndexOf(ls[0], ':');
      var n := UnpadEnd(ls[0][i + 1..]);
      assert ls[0][i + 1..][n..] == ls[0][i + 1 + n..] && ls[0] in ls;
    } else {
      FieldEnd(ls[1..], name);
      var l, i :| l in ls[1..] && 0 <= i <= |l| && FieldIn(ls, name).value == l[i..];
      assert l in ls;
    }
  }

  lemma TypedEnd(v: Option<string>, kind: string, ls: seq<string>)
    requires v.Some? ==> EndOf(v.value, ls)
    ensures Typed(v, kind).Some? ==> EndOf(Typed(v, kind).value, ls)
  {
    if Typed(v, kind).Some? {
      var i := IndexOf(v.value, ';');
      var n := UnpadEnd(v.value[i + 1..]);
      EndOfEnd(v.value, i + 1, ls);
      EndOfEnd(v.value[i + 1..], n, ls);
    }
  }

  /** All lines of the part are lines of the text. */
  ghost predicate Within(part: seq<string>, ls: seq<string>)
  {
    forall l :: l in part ==> l in ls
  }

  ghost predicate AllWithin(parts: seq<seq<string>>, ls: seq<string>)
  {
    forall p :: p in parts ==> Within(p, ls)
  }

  lemma EndWithin(v: string, part: seq<string>, ls: seq<string>)
    requires EndOf(v, part) && Within(part, ls)
    ensures EndOf(v, ls)
  {
    var l, i :| l in part && 0 <= i <= |l| && v == l[i..];
    assert l in ls;
  }

  lemma {:induction false} PartsWithin(ls: seq<string>, b: string, current: Option<seq<string>>, all: seq<string>)
    requires Within(ls, all) && (current.Some? ==> Within(current.value, all))
    ensures Parts(ls, b, current).Some? ==> AllWithin(Parts(ls, b, current).value, all)
    decreases |ls|
  {
    if ls != [] && ls[0] != "--" + b + "--" {
      assert ls[0] in ls;
      if ls[0] == "--" + b {
        PartsWithin(ls[1..], b, Some([]), all);
      } else {
        PartsWithin(ls[1..], b, if current.Some? then Some(current.value + [ls[0]]) else None, all);
      }
    }
  }

  lemma {:induction false} BlocksWithin(ls: seq<string>, all: seq<string>)
    requires Within(ls, all)
    ensures AllWithin(Blocks(ls), all)
    decreases |ls|
  {
    if ls == [] {
    } else if ls[0] == "" {
      BlocksWithin(ls[1..], all);
    } else {
      BlocksWithin(ls[FirstEmpty(ls)..], all);
    }
  }

  ghost predicate RecipientEnds(r: Recipient, ls: seq<string>)
  {
    EndOf(r.address, ls) && (r.diagnostic.Some? ==> EndOf(r.diagnostic.value, ls))
  }

  lemma RecipientEnd(block: seq<string>, all: seq<string>)
    requires Within(block, all) && ReadRecipient(block).Some?
    ensures RecipientEnds(ReadRecipient(block).value, all)
  {
    var address, diagnostic := FieldIn(block, GROUP_NAMES[0]), FieldIn(block, GROUP_NAMES[3]);
    FieldEnd(block, GROUP_NAMES[0]);
    EndWithin(address.value, block, all);
    TypedEnd(address, "rfc822", all);
    if diagnostic.Some? {
      FieldEnd(block, GROUP_NAMES[3]);
      EndWithin(diagnostic.value, block, all);
    }
    TypedEnd(diagnostic, "smtp", all);
  }

  lemma {:induction false} RecipientsEnd(blocks: seq<seq<string>>, all: seq<string>)
    requires AllWithin(blocks, all) && ReadRecipients(blocks).Some?
    ensures forall r :: r in ReadRecipients(blocks).value ==> RecipientEnds(r, all)
  {
    if blocks != [] {
      assert blocks[0] in blocks;
      RecipientEnd(blocks[0], all);
      RecipientsEnd(blocks[1..], all);
    }
  }

  lemma StatusEnd(part: seq<string>, all: seq<string>)
    requires Within(part, all) && ReadStatus(part).Some?
    ensures EndOf(ReadStatus(part).value.mta, all)
    ensures forall r :: r in ReadStatus(part).value.recipients ==> RecipientEnds(r, all)
  {
    var body := part[FirstEmpty(part) + 1..];
    BlocksWithin(body, all);
    var blocks := Blocks(body);
    assert blocks[0] in blocks;
    var mta := FieldIn(blocks[0], "Reporting-MTA");
    FieldEnd(blocks[0], "Reporting-MTA");
    EndWithin(mta.value, blocks[0], all);
    TypedEnd(mta, "dns", all);
    RecipientsEnd(blocks[1..], all);
  }

  /** Whatever the text, each value the reader recovers is the end of one line of it. */
  lemma ReadLines(text: string)
    requires Read(text).Some?
    ensures var r, ls := Read(text).value, Lines(text);
            && EndOf(r.to, ls) && EndOf(r.status.mta, ls)
            && forall x :: x in r.status.recipients ==> RecipientEnds(x, ls)
  {
    var ls := Lines(text);
    var n := FirstEmpty(ls);
    FieldEnd(ls[..n], "To");
    EndWithin(FieldIn(ls[..n], "To").value, ls[..n], ls);
    var b := BoundaryIn(SplitOn(FieldIn(ls[..n], "Content-Type").value, ';')).value;
    PartsWithin(ls[n + 1..], b, None, ls);
    var parts := ReadMail(text).value.parts;
    assert parts[1] in parts;
    StatusEnd(parts[1], ls);
  }

  // ---------------------------------------------------------------- line breaks

  lemma DropLine(s: string, n: nat)
    requires OneLine(s) && n <= |s|
    ensures OneLine(s[n..])
  {
    forall j: nat ensures !BreakAt(s[n..], j) {
      assert !BreakAt(s, n + j);
    }
  }

  lemma EndOneLine(v: string, ls: seq<string>)
    requires AllOneLine(ls) && EndOf(v, ls)
    ensures OneLine(v)
  {
    var l, i :| l in ls && 0 <= i <= |l| && v == l[i..];
    DropLine(l, i);
  }

  lemma {:induction false} UnpadLine(v: string)
    ensures OneLine(Unpad(v)) <==> OneLine(v)
  {
    if v != "" && (v[0] == ' ' || v[0] == '\t') {
      UnpadLine(v[1..]);
      assert v == [v[0]] + v[1..];
      Prefixed([v[0]], v[1..]);
    }
  }

  /** What was recovered, if it is what was told, came from lines of the text. */
  lemma ToldEnds(text: string, host: string, sender: string, rcpts: seq<string>, detail: string)
    requires rcpts != [] && Read(text) == Some(Told(host, sender, rcpts, detail))
    ensures EndOf(Unpad(host), Lines(text)) && EndOf(Unpad(sender), Lines(text)) && EndOf(Unpad(detail), Lines(text))
    ensures forall r :: r in rcpts ==> EndOf(Unpad(r), Lines(text))
  {
    ReadLines(text);
    var rs := Expected(rcpts, detail);
    assert rs[0] in rs;
    forall r | r in rcpts ensures EndOf(Unpad(r), Lines(text)) {
      var i :| 0 <= i < |rcpts| && rcpts[i] == r;
      assert rs[i] in rs;
    }
  }

  /** For a notice about at least one recipient that is read as it was printed, CRLFs in the inputs are
      the only hazard: the reader recovers everything exactly if host, sender, recipients and diagnostic
      hold none. */
  lemma RoundTripIffClean(host: string, id: string, sender: string, rcpts: seq<string>, detail: string, date: string)
    requires Hex(id) && OneLine(date) && rcpts != []
    ensures Read(Unlines(Notice(host, id, sender, rcpts, detail, date))) == Some(Told(host, sender, rcpts, detail))
            <==> Clean(host, sender, rcpts, detail)
  {
    var text := Unlines(Notice(host, id, sender, rcpts, detail, date));
    if Clean(host, sender, rcpts, detail) {
      RoundTrip(host, id, sender, rcpts, detail, date);
    }
    if Read(text) == Some(Told(host, sender, rcpts, detail)) {
      ToldEnds(text, host, sender, rcpts, detail);
      forall v | EndOf(Unpad(v), Lines(text)) ensures OneLine(v) {
        EndOneLine(Unpad(v), Lines(text));
        UnpadLine(v);
      }
    }
  }

  // ---------------------------------------------------------------- bare line feeds

  /** What a mail writer makes of a text: a line feed not preceded by a carriage return becomes CRLF. */
  function Converted(s: string): string
  {
    if s == "" then ""
    else
      var n := |s| - 1;
      Converted(s[..n]) + (if s[n] == '\n' && (n == 0 || s[n - 1] != '\r') then CRLF else [s[n]])
  }

  /** Every line feed follows a carriage return. */
  ghost predicate Paired(s: string)
  {
    forall i :: 0 <= i < |s| && s[i] == '\n' ==> i > 0 && s[i - 1] == '\r'
  }

  lemma {:induction false} ConvertedPaired(s: string)
    ensures Paired(Converted(s))
    ensures s != "" ==> Converted(s) != "" && Converted(s)[|Converted(s)| - 1] == s[|s| - 1]
  {
    if s != "" {
      ConvertedPaired(s[..|s| - 1]);
    }
  }

  lemma PairedPrefix(s: string, n: nat)
    requires Paired(s) && n <= |s|
    ensures Paired(s[..n])
  {
    assert forall i :: 0 <= i < n ==> s[..n][i] == s[i];
  }

  lemma {:induction false} PairedUnchanged(s: string)
    requires Paired(s)
    ensures Converted(s) == s
  {
    if s != "" {
      var n := |s| - 1;
      PairedPrefix(s, n);
      PairedUnchanged(s[..n]);
      if s[n] == '\n' {
        assert n > 0 && s[n - 1] == '\r';
      }
      assert Converted(s) == s[..n] + [s[n]];
    }
  }

  ghost predicate NoFeeds(ls: seq<string>)
  {
    forall l :: l in ls ==> '\n' !in l
  }

  lemma {:induction false} PairedLines(s: string)
    requires Paired(s)
    ensures NoFeeds(Lines(s))
    decreases |s|
  {
    var i := FirstBreak(s);
    forall j | 0 <= j < i ensures s[..i][j] != '\n' {
      if s[j] == '\n' {
        assert BreakAt(s, j - 1);
      }
    }
    if i < |s| {
      var rest := s[i + 2..];
      assert forall j :: 0 <= j < |rest| ==> rest[j] == s[i + 2 + j];
      PairedLines(rest);
    }
  }

  lemma {:induction false} UnlinesPaired(ls: seq<string>)
    requires NoFeeds(ls)
    ensures Paired(Unlines(ls))
  {
    if ls != [] {
      var front, last := ls[..|ls| - 1], ls[|ls| - 1];
      UnlinesPaired(front);
      var s, n := Unlines(ls), |Unlines(front)|;
      assert last in ls;
      assert forall i :: 0 <= i < n ==> s[i] == Unlines(front)[i];
      assert forall i :: 0 <= i < |last| ==> s[n + i] == last[i];
      assert s[n + |last|] == '\r' && |s| == n + |last| + 2;
    }
  }

  /** The inputs of the printer hold no line feed, with or without a carriage return before it. */
  ghost predicate Unfed(host: string, sender: string, rcpts: seq<string>, detail: string)
  {
    '\n' !in host && '\n' !in sender && NoFeeds(rcpts) && '\n' !in detail
  }

  lemma UnfedIsClean(s: string)
    requires '\n' !in s
    ensures OneLine(s)
  {
    forall i: nat ensures !BreakAt(s, i) {
      assert i + 1 < |s| ==> s[i + 1] in s;
    }
  }

  lemma HeadFeeds(name: string, v: string)
    requires '\n' !in name && '\n' !in v
    ensures '\n' !in Head(name, v)
  {
  }

  lemma FixedFeeds()
    ensures '\n' !in Head("Subject", "Delivery Status Notification (Failure)")
    ensures '\n' !in Head("MIME-Version", "1.0") && '\n' !in Head("Auto-Submitted", "auto-replied")
  {
  }

  lemma PieceFeeds(id: string)
    requires Hex(id)
    ensures '\n' !in Boundary(id) && '\n' !in BoundaryPiece(id)
  {
  }

  lemma TypeFeeds()
    ensures '\n' !in "multipart/report" && '\n' !in " report-type=delivery-status"
  {
  }

  lemma KindFeeds(id: string)
    requires Hex(id)
    ensures '\n' !in Boundary(id) && '\n' !in Head("Content-Type", ContentType(id))
  {
    PieceFeeds(id);
    TypeFeeds();
    HeadFeeds("Content-Type", ContentType(id));
  }

  lemma HeaderFeeds(host: string, id: string, sender: string, date: string)
    requires Hex(id) && '\n' !in host && '\n' !in sender && '\n' !in date
    ensures NoFeeds(Headers(host, id, sender, date))
  {
    HeadFeeds("From", "MAILER-DAEMON@" + host);
    HeadFeeds("To", sender);
    HeadFeeds("Date", date);
    HeadFeeds("Message-Id", "<dsn-" + id + "@" + host + ">");
    FixedFeeds();
    KindFeeds(id);
  }

  lemma UndeliveredFeeds()
    ensures '\n' !in UNDELIVERED
  {
  }

  lemma SystemFeeds(host: string)
    requires '\n' !in host
    ensures '\n' !in "This is the mail delivery system at " + host + "."
  {
  }

  lemma OpeningFeeds(host: string)
    requires '\n' !in host
    ensures NoFeeds(Opening(host))
  {
    HeadFeeds("Content-Type", "text/plain; charset=utf-8");
    UndeliveredFeeds();
    SystemFeeds(host);
  }

  lemma HumanFeeds(host: string, rcpts: seq<string>, detail: string)
    requires '\n' !in host && NoFeeds(rcpts) && '\n' !in detail
    ensures NoFeeds(Human(host, rcpts, detail))
  {
    OpeningFeeds(host);
    forall l | l in Listed(rcpts) ensures '\n' !in l {
      var i :| 0 <= i < |rcpts| && l == Listed(rcpts)[i];
      assert rcpts[i] in rcpts;
    }
    HeadFeeds("Diagnostic", detail);
  }

  lemma GroupFeeds(r: string, detail: string)
    requires '\n' !in r && '\n' !in detail
    ensures NoFeeds(Group(r, detail))
  {
    HeadFeeds("Final-Recipient", "rfc822; " + r);
    HeadFeeds("Action", "failed");
    HeadFeeds("Status", "5.0.0");
    HeadFeeds("Diagnostic-Code", "smtp; " + detail);
  }

  lemma {:induction false} GroupsFeeds(rcpts: seq<string>, detail: string)
    requires NoFeeds(rcpts) && '\n' !in detail
    ensures NoFeeds(Groups(rcpts, detail))
  {
    if rcpts != [] {
      assert rcpts[0] in rcpts;
      GroupFeeds(rcpts[0], detail);
      GroupsFeeds(rcpts[1..], detail);
    }
  }

  lemma MachineFeeds(host: string, rcpts: seq<string>, detail: string)
    requires '\n' !in host && NoFeeds(rcpts) && '\n' !in detail
    ensures NoFeeds(Machine(host, rcpts, detail))
  {
    HeadFeeds("Content-Type", "message/delivery-status");
    HeadFeeds("Reporting-MTA", "dns; " + host);
    GroupsFeeds(rcpts, detail);
  }

  lemma NoticeFeeds(host: string, id: string, sender: string, rcpts: seq<string>, detail: string, date: string)
    requires Hex(id) && '\n' !in date && Unfed(host, sender, rcpts, detail)
    ensures NoFeeds(Notice(host, id, sender, rcpts, detail, date))
  {
    HeaderFeeds(host, id, sender, date);
    HumanFeeds(host, rcpts, detail);
    MachineFeeds(host, rcpts, detail);
    KindFeeds(id);
  }

  /** Once a mail writer has turned bare line feeds into CRLF, the reader recovers everything exactly if
      the inputs hold no line feed at all, as a diagnostic joined from several reply lines would. */
  lemma RoundTripIffUnfed(host: string, id: string, sender: string, rcpts: seq<string>, detail: string, date: string)
    requires Hex(id) && '\n' !in date && rcpts != []
    ensures Read(Converted(Unlines(Notice(host, id, sender, rcpts, detail, date))))
              == Some(Told(host, sender, rcpts, detail))
            <==> Unfed(host, sender, rcpts, detail)
  {
    var notice := Notice(host, id, sender, rcpts, detail, date);
    var text := Converted(Unlines(notice));
    if Unfed(host, sender, rcpts, detail) {
      NoticeFeeds(host, id, sender, rcpts, detail, date);
      UnlinesPaired(notice);
      PairedUnchanged(Unlines(notice));
      forall v | '\n' !in v ensures OneLine(v) {
        UnfedIsClean(v);
      }
      RoundTrip(host, id, sender, rcpts, detail, date);
    }
    if Read(text) == Some(Told(host, sender, rcpts, detail)) {
      ToldEnds(text, host, sender, rcpts, detail);
      ConvertedPaired(Unlines(notice));
      PairedLines(text);
      forall v | EndOf(Unpad(v), Lines(text)) ensures '\n' !in v {
        var n := UnpadEnd(v);
        var l, i :| l in Lines(text) && 0 <= i <= |l| && Unpad(v) == l[i..];
      }
    }
  }
}
