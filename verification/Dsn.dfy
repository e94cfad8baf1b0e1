/** The failure notice: its printer, and an independent reader that follows section 2.1 of RFC 3464. */
module Dsn {
  // ---------------------------------------------------------------- lines

  const CRLF := "\r\n"

  predicate BreakAt(s: string, i: nat)
  {
    i + 1 < |s| && s[i] == '\r' && s[i + 1] == '\n'
  }

  /** The text holds no line break. */
  ghost predicate OneLine(s: string)
  {
    forall i: nat :: !BreakAt(s, i)
  }

  function FirstBreak(s: string): (i: nat)
    ensures i <= |s| && (i < |s| ==> BreakAt(s, i))
    ensures forall j: nat :: j < i ==> !BreakAt(s, j)
  {
    if s == "" || BreakAt(s, 0) then 0
    else
      assert forall j: nat :: j > 0 ==> (BreakAt(s, j) <==> BreakAt(s[1..], j - 1));
      1 + FirstBreak(s[1..])
  }

  function Lines(s: string): (ls: seq<string>)
    ensures forall l :: l in ls ==> OneLine(l)
    decreases |s|
  {
    var i := FirstBreak(s);
    assert OneLine(s[..i]) by {
      assert forall j: nat :: BreakAt(s[..i], j) ==> BreakAt(s, j);
    }
    if i == |s| then [s] else [s[..i]] + Lines(s[i + 2..])
  }

  /** Every line, the last one included, ends in CRLF. */
  function Unlines(ls: seq<string>): string
  {
    if ls == [] then "" else Unlines(ls[..|ls| - 1]) + ls[|ls| - 1] + CRLF
  }

  lemma LineFirst(l: string, s: string)
    requires OneLine(l)
    ensures Lines(l + CRLF + s) == [l] + Lines(s)
  {
    var t := l + CRLF + s;
    assert BreakAt(t, |l|);
    assert forall j: nat :: j + 1 < |l| ==> (BreakAt(t, j) <==> BreakAt(l, j));
    assert |l| > 0 ==> t[|l|] != '\n';
    var i := FirstBreak(t);
    assert i == |l|;
    assert t[..i] == l && t[i + 2..] == s;
  }

  lemma Regroup(a: string, b: string, c: string, d: string)
    ensures a + b + c + d == a + (b + c + d)
  {
  }

  lemma {:induction false} LinesOf(ls: seq<string>, s: string)
    requires forall l :: l in ls ==> OneLine(l)
    ensures Lines(Unlines(ls) + s) == ls + Lines(s)
  {
    if ls == [] {
      assert "" + s == s && ls + Lines(s) == Lines(s);
    } else {
      var front, last := ls[..|ls| - 1], ls[|ls| - 1];
      Regroup(Unlines(front), last, CRLF, s);
      LinesOf(front, last + CRLF + s);
      LineFirst(last, s);
      assert ls == front + [last];
    }
  }

  // ---------------------------------------------------------------- the printer

  function Head(name: string, v: string): string
  {
    name + ": " + v
  }

  function Boundary(id: string): string
  {
    "novamail-dsn-" + id
  }

  function ContentType(id: string): string
  {
    "multipart/report" + [';'] + (" report-type=delivery-status" + [';'] + (" boundary=\"" + Boundary(id) + "\""))
  }

  function Headers(host: string, id: string, sender: string, date: string): seq<string>
  {
    [ Head("From", "MAILER-DAEMON@" + host),
      Head("To", sender),
      Head("Subject", "Delivery Status Notification (Failure)"),
      Head("Date", date),
      Head("Message-Id", "<dsn-" + id + "@" + host + ">"),
      Head("MIME-Version", "1.0"),
      Head("Auto-Submitted", "auto-replied"),
      Head("Content-Type", ContentType(id)) ]
  }

  function Listed(rcpts: seq<string>): (ls: seq<string>)
    ensures |ls| == |rcpts| && forall i :: 0 <= i < |ls| ==> ls[i] == "  " + rcpts[i]
  {
    seq(|rcpts|, i requires 0 <= i < |rcpts| => "  " + rcpts[i])
  }

  const UNDELIVERED := "Your message could not be delivered" + " to the following recipient(s):"

  function Opening(host: string): seq<string>
  {
    [ Head("Content-Type", "text/plain; charset=utf-8"), "",
      "This is the mail delivery system at " + host + ".", "",
      UNDELIVERED, "" ]
  }

  function Human(host: string, rcpts: seq<string>, detail: string): seq<string>
  {
    Opening(host) + Listed(rcpts) + ["", Head("Diagnostic", detail), ""]
  }

  function Group(rcpt: string, detail: string): seq<string>
  {
    [ Head("Final-Recipient", "rfc822; " + rcpt),
      Head("Action", "failed"),
      Head("Status", "5.0.0"),
      Head("Diagnostic-Code", "smtp; " + detail) ]
  }

  function Groups(rcpts: seq<string>, detail: string): seq<string>
  {
    if rcpts == [] then [] else [""] + Group(rcpts[0], detail) + Groups(rcpts[1..], detail)
  }

  function Machine(host: string, rcpts: seq<string>, detail: string): seq<string>
  {
    [ Head("Content-Type", "message/delivery-status"), "", Head("Reporting-MTA", "dns; " + host) ]
    + Groups(rcpts, detail)
    + [""]
  }

  function Diagnosis(detail: string): string
  {
    if detail == "" then "delivery to upstream provider failed" else detail
  }

  function Notice(host: string, id: string, sender: string, rcpts: seq<string>, detail: string,
                  date: string): seq<string>
  {
    Headers(host, id, sender, date) + [""]
    + ["--" + Boundary(id)] + Human(host, rcpts, detail)
    + ["--" + Boundary(id)] + Machine(host, rcpts, detail)
    + ["--" + Boundary(id) + "--"]
  }

  lemma {:induction false} OneMoreGroup(rcpts: seq<string>, r: string, detail: string)
    ensures Groups(rcpts + [r], detail) == Groups(rcpts, detail) + ([""] + Group(r, detail))
  {
    if rcpts == [] {
      assert rcpts + [r] == [r] && [r][1..] == [];
    } else {
      assert (rcpts + [r])[0] == rcpts[0] && (rcpts + [r])[1..] == rcpts[1..] + [r];
      OneMoreGroup(rcpts[1..], r, detail);
    }
  }

  /** A growing text, and the lines written to it. */
  class Builder {
    var text: string
    ghost var lines: seq<string>

    ghost predicate Valid()
      reads this
    {
      text == Unlines(lines)
    }

    constructor ()
      ensures Valid() && lines == []
    {
      text, lines := "", [];
    }

    method Write(s: string)
      requires Valid()
      modifies this
      ensures Valid() && lines == old(lines) + [s]
    {
      text := text + s + CRLF;
      lines := lines + [s];
    }

    method WriteHeaders(host: string, id: string, sender: string, date: string)
      requires Valid()
      modifies this
      ensures Valid() && lines == old(lines) + Headers(host, id, sender, date)
    {
      WriteEnvelope(host, sender, date);
      WriteKind(host, id);
    }

    method WriteEnvelope(host: string, sender: string, date: string)
      requires Valid()
      modifies this
      ensures Valid()
      ensures lines == old(lines) + [Head("From", "MAILER-DAEMON@" + host), Head("To", sender),
                                     Head("Subject", "Delivery Status Notification (Failure)"), Head("Date", date)]
    {
      Write("From" + ": " + ("MAILER-DAEMON@" + host));
      Write("To" + ": " + sender);
      Write("Subject" + ": " + "Delivery Status Notification (Failure)");
      Write("Date" + ": " + date);
    }

    method WriteKind(host: string, id: string)
      requires Valid()
      modifies this
      ensures Valid()
      ensures lines == old(lines) + [Head("Message-Id", "<dsn-" + id + "@" + host + ">"), Head("MIME-Version", "1.0"),
                                     Head("Auto-Submitted", "auto-replied"), Head("Content-Type", ContentType(id))]
    {
      Write("Message-Id" + ": " + ("<dsn-" + id + "@" + host + ">"));
      Write("MIME-Version" + ": " + "1.0");
      Write("Auto-Submitted" + ": " + "auto-replied");
      Write("Content-Type" + ": " + ContentType(id));
    }

    method WriteOpening(host: string)
      requires Valid()
      modifies this
      ensures Valid() && lines == old(lines) + Opening(host)
    {
      Write("Content-Type" + ": " + "text/plain; charset=utf-8");
      Write("");
      Write("This is the mail delivery system at " + host + ".");
      Write("");
      Write(UNDELIVERED);
      Write("");
    }

    method WriteHuman(host: string, rcpts: seq<string>, detail: string)
      requires Valid()
      modifies this
      ensures Valid() && lines == old(lines) + Human(host, rcpts, detail)
    {
      WriteOpening(host);
      WriteListed(rcpts);
      Write("");
      Write("Diagnostic" + ": " + detail);
      Write("");
    }

    method WriteListed(rcpts: seq<string>)
      requires Valid()
      modifies this
      ensures Valid() && lines == old(lines) + Listed(rcpts)
    {
      for i := 0 to |rcpts|
        invariant Valid() && lines == old(lines) + Listed(rcpts[..i])
      {
        Write("  " + rcpts[i]);
        assert Listed(rcpts[..i + 1]) == Listed(rcpts[..i]) + ["  " + rcpts[i]];
      }
      assert rcpts[..|rcpts|] == rcpts;
    }

    method WriteGroups(rcpts: seq<string>, detail: string)
      requires Valid()
      modifies this
      ensures Valid() && lines == old(lines) + Groups(rcpts, detail)
    {
      for i := 0 to |rcpts|
        invariant Valid() && lines == old(lines) + Groups(rcpts[..i], detail)
      {
        WriteGroup(rcpts[i], detail);
        OneMoreGroup(rcpts[..i], rcpts[i], detail);
        assert rcpts[..i + 1] == rcpts[..i] + [rcpts[i]];
      }
      assert rcpts[..|rcpts|] == rcpts;
    }

    method WriteGroup(rcpt: string, detail: string)
      requires Valid()
      modifies this
      ensures Valid() && lines == old(lines) + ([""] + Group(rcpt, detail))
    {
      Write("");
      Write("Final-Recipient" + ": " + ("rfc822; " + rcpt));
      Write("Action" + ": " + "failed");
      Write("Status" + ": " + "5.0.0");
      Write("Diagnostic-Code" + ": " + ("smtp; " + detail));
    }

    method WriteMachine(host: string, rcpts: seq<string>, detail: string)
      requires Valid()
      modifies this
      ensures Valid() && lines == old(lines) + Machine(host, rcpts, detail)
    {
      Write("Content-Type" + ": " + "message/delivery-status");
      Write("");
      Write("Reporting-MTA" + ": " + ("dns; " + host));
      WriteGroups(rcpts, detail);
      Write("");
    }
  }

  method BuildDsn(host: string, id: string, sender: string, rcpts: seq<string>, given: string, date: string)
    returns (text: string)
    ensures text == Unlines(Notice(host, id, sender, rcpts, Diagnosis(given), date))
  {
    var detail := given;
    if detail == "" {
      detail := "delivery to upstream provider failed";
    }
    var boundary := Boundary(id);
    var b := new Builder();
    b.WriteHeaders(host, id, sender, date);
    b.Write("");
    b.Write("--" + boundary);
    b.WriteHuman(host, rcpts, detail);
    assert b.lines == Headers(host, id, sender, date) + [""] + ["--" + boundary] + Human(host, rcpts, detail);
    b.Write("--" + boundary);
    b.WriteMachine(host, rcpts, detail);
    b.Write("--" + boundary + "--");
    text := b.text;
    assert b.lines == Notice(host, id, sender, rcpts, detail, date);
  }
}
