/**
 * A thread log as text (packages/daemon/src/store.ts, `readThread`): snapshot lines, the last valid one of
 * which wins, and what an append does to the reading, whole or cut short anywhere.
 */
module LogText {
  import opened Common
  import opened Text

  /** A thread record, opaque but for what the store reads. */
  datatype Record = Record(
    id: string, bucket: string, resolved: bool, operations: bool,
    revisions: seq<string>, history: Option<seq<string>>, body: string)

  /** A record written before histories existed is given one on read. */
  function WithHistory(r: Record): Record {
    if r.history.Some? || r.revisions == [] then r else r.(history := Some(r.revisions))
  }

  /** JSON.stringify, and JSON.parse with validation. */
  datatype Codec = Codec(enc: Record -> string, dec: string -> Option<Record>)

  /** What is assumed of JSON: a record survives it, on one line that starts with a brace; nothing short of
      the whole is valid, and a valid record with the beginning of another one behind it is not. */
  ghost predicate Lawful(c: Codec) {
    && (forall r :: c.dec(c.enc(r)) == Some(r))
    && (forall r :: '\n' !in c.enc(r))
    && (forall r :: c.enc(r) != "" && !IsSpace(c.enc(r)[0]))
    && (forall r, k :: 0 <= k < |c.enc(r)| ==> c.dec(c.enc(r)[..k]).None?)
    && (forall s, r, k :: 0 < k <= |c.enc(r)| && c.dec(s).Some? ==> c.dec(s + c.enc(r)[..k]).None?)
  }

  // ---- lines ----

  function NonBlank(parts: seq<string>): seq<string> {
    if parts == [] then []
    else (if Trim(parts[0]) == "" then [] else [parts[0]]) + NonBlank(parts[1..])
  }

  function Lines(s: string): seq<string> {
    NonBlank(Split(s))
  }

  lemma NonBlankTwo(a: seq<string>, b: seq<string>)
    ensures NonBlank(a + b) == NonBlank(a) + NonBlank(b)
  {
    if a == [] {
      assert a + b == b;
    } else {
      assert (a + b)[1..] == a[1..] + b;
      NonBlankTwo(a[1..], b);
    }
  }

  lemma LinesTwo(a: string, b: string)
    ensures Lines(a + "\n" + b) == Lines(a) + Lines(b)
  {
    SplitTwo(a, b);
    NonBlankTwo(Split(a), Split(b));
  }

  predicate Visible(s: string) {
    s != "" && !IsSpace(s[0])
  }

  lemma TrimEndKeepsFirst(s: string)
    requires Visible(s)
    ensures TrimEnd(s) != ""
  {
  }

  lemma VisibleLine(s: string)
    requires Visible(s) && '\n' !in s
    ensures Lines(s) == [s] && Trim(s) != ""
  {
    SplitOne(s);
    TrimEndKeepsFirst(s);
    assert NonBlank([s]) == [s] + NonBlank([]);
  }

  lemma NoLine()
    ensures Lines("") == []
  {
    assert Split("") == [""];
    assert NonBlank([""]) == [] + NonBlank([]);
  }

  predicate Terminated(s: string) {
    s == "" || s[|s| - 1] == '\n'
  }

  /** Where the line that reaches up to n begins. */
  function LineStart(s: string, n: nat): (k: nat)
    requires n <= |s|
    ensures k <= n && (k == 0 || s[k - 1] == '\n')
    ensures forall i :: k <= i < n ==> s[i] != '\n'
  {
    if n == 0 || s[n - 1] == '\n' then n else LineStart(s, n - 1)
  }

  /** What follows the last newline. */
  function Tail(s: string): (t: string)
    ensures '\n' !in t && |t| <= |s|
    ensures t == "" <==> Terminated(s)
  {
    s[LineStart(s, |s|)..]
  }

  function Head(s: string): (h: string)
    ensures Terminated(h) && h + Tail(s) == s
  {
    s[..|s| - |Tail(s)|]
  }

  /** The text after a newline never mixes with the lines before it. */
  lemma LinesAfterNewline(s: string, x: string)
    requires Terminated(s)
    ensures Lines(s + x) == Lines(s) + Lines(x)
  {
    if s == "" {
      assert s + x == x;
      NoLine();
    } else {
      var a := s[..|s| - 1];
      assert s == a + "\n" + "" && s + x == a + "\n" + x;
      LinesTwo(a, "");
      LinesTwo(a, x);
      NoLine();
    }
  }

  lemma LineEnded(x: string)
    ensures Lines(x + "\n") == Lines(x)
  {
    LinesTwo(x, "");
    assert x + "\n" + "" == x + "\n";
    NoLine();
  }

  // ---- reading ----

  /** The last of the first n lines that holds a record. */
  function LastValid(c: Codec, lines: seq<string>, n: nat): (found: Option<nat>)
    requires n <= |lines|
    ensures found.Some? ==> found.value < n && c.dec(lines[found.value]).Some?
    ensures found.Some? ==> forall i :: found.value < i < n ==> c.dec(lines[i]).None?
    ensures found.None? ==> forall i :: 0 <= i < n ==> c.dec(lines[i]).None?
  {
    if n == 0 then None
    else if c.dec(lines[n - 1]).Some? then Some(n - 1)
    else LastValid(c, lines, n - 1)
  }

  datatype Reading = Reading(record: Record, lines: nat, torn: bool)

  function ReadLines(c: Codec, lines: seq<string>): Option<Reading> {
    var found := LastValid(c, lines, |lines|);
    if found.None? then None
    else Some(Reading(WithHistory(c.dec(lines[found.value]).value), |lines|, found.value != |lines| - 1))
  }

  function Read(c: Codec, text: string): Option<Reading> {
    ReadLines(c, Lines(text))
  }

  /** readThread: the backward scan */
  method ReadThread(c: Codec, text: string) returns (reading: Option<Reading>)
    ensures reading == Read(c, text)
  {
    var lines := Lines(text);
    var index := |lines|;
    while index > 0
      invariant 0 <= index <= |lines|
      invariant LastValid(c, lines, |lines|) == LastValid(c, lines, index)
    {
      var record := c.dec(lines[index - 1]);
      if record.Some? {
        return Some(Reading(WithHistory(record.value), |lines|, index - 1 != |lines| - 1));
      }
      index := index - 1;
    }
    reading := None;
  }

  lemma LastValidPrefix(c: Codec, a: seq<string>, b: seq<string>, n: nat)
    requires n <= |a|
    ensures LastValid(c, a + b, n) == LastValid(c, a, n)
  {
  }

  /** One more line: it wins if it is valid, and otherwise leaves the reading torn. */
  lemma ReadOneMore(c: Codec, lines: seq<string>, line: string)
    ensures ReadLines(c, lines + [line]) ==
      if c.dec(line).Some? then Some(Reading(WithHistory(c.dec(line).value), |lines| + 1, false))
      else if ReadLines(c, lines).Some? then Some(Reading(ReadLines(c, lines).value.record, |lines| + 1, true))
      else None
  {
    var all := lines + [line];
    assert all[|all| - 1] == line;
    if c.dec(line).None? {
      assert LastValid(c, all, |all|) == LastValid(c, all, |lines|);
      LastValidPrefix(c, lines, [line], |lines|);
      var found := LastValid(c, lines, |lines|);
      assert found.Some? ==> all[found.value] == lines[found.value];
    }
  }

  /** The first k characters of a record's line. */
  function Cut(c: Codec, r: Record, k: nat): string {
    var line := c.enc(r) + "\n";
    line[..if k < |line| then k else |line|]
  }

  lemma CutLines(c: Codec, r: Record, k: nat)
    requires Lawful(c)
    ensures k == 0 ==> Cut(c, r, k) == ""
    ensures 0 < k < |c.enc(r)| ==> Cut(c, r, k) == c.enc(r)[..k] && c.dec(Cut(c, r, k)).None?
    ensures k == |c.enc(r)| ==> Cut(c, r, k) == c.enc(r)
    ensures k > |c.enc(r)| ==> Cut(c, r, k) == c.enc(r) + "\n"
    ensures 0 < k ==> Lines(Cut(c, r, k)) == [c.enc(r)[..if k < |c.enc(r)| then k else |c.enc(r)|]]
  {
    var e := c.enc(r);
    if 0 < k {
      var x := e[..if k < |e| then k else |e|];
      assert x[0] == e[0];
      assert '\n' !in x;
      VisibleLine(x);
      LineEnded(e);
      assert e[..|e|] == e;
    }
  }

  lemma LawfulRecord(c: Codec, r: Record)
    requires Lawful(c)
    ensures c.dec(c.enc(r)) == Some(r) && Visible(c.enc(r)) && '\n' !in c.enc(r)
  {
  }

  /** An append to a terminated log, cut anywhere: with nothing written nothing changes; short of the whole
      record the old reading stands, torn; from the whole record on, with or without its newline, the new
      record is read. */
  lemma AppendReads(c: Codec, text: string, r: Record, k: nat)
    requires Lawful(c) && Terminated(text)
    ensures var now := Read(c, text + Cut(c, r, k));
      if k == 0 then now == Read(c, text)
      else if k < |c.enc(r)| then
        now == if Read(c, text).Some? then Some(Reading(Read(c, text).value.record, |Lines(text)| + 1, true)) else None
      else now == Some(Reading(WithHistory(r), |Lines(text)| + 1, false))
  {
    hide Lines, ReadLines, Cut, Lawful;
    CutLines(c, r, k);
    LinesAfterNewline(text, Cut(c, r, k));
    LawfulRecord(c, r);
    if k == 0 {
      assert text + "" == text;
    } else {
      var e := c.enc(r);
      var x := e[..if k < |e| then k else |e|];
      assert e[..|e|] == e;
      ReadOneMore(c, Lines(text), x);
    }
  }

  /** An append to a log whose last record lacks its newline fuses the two: both are gone from the reading. */
  lemma FusedAppendReads(c: Codec, text: string, r: Record, k: nat)
    requires Lawful(c) && k > 0 && c.dec(Tail(text)).Some? && Visible(Tail(text))
    ensures var before := Lines(Head(text));
      && Lines(text) == before + [Tail(text)]
      && Read(c, text + Cut(c, r, k)) ==
           if ReadLines(c, before).Some? then Some(Reading(ReadLines(c, before).value.record, |before| + 1, true)) else None
  {
    var e := c.enc(r);
    var x := e[..if k < |e| then k else |e|];
    var tail := Tail(text);
    var fused := tail + x;
    CutLines(c, r, k);
    FusedLine(c, tail, r, k);
    assert e[..|e|] == e;
    hide Lines, ReadLines, Cut, Lawful, Tail, Head, Visible, Split, Trim;
    OneMoreLine(Head(text), tail);
    OneMoreLine(Head(text), fused);
    assert text + Cut(c, r, k) == Head(text) + (if k > |e| then fused + "\n" else fused);
    ReadOneMore(c, Lines(Head(text)), fused);
  }

  lemma OneMoreLine(head: string, line: string)
    requires Terminated(head) && Visible(line) && '\n' !in line
    ensures Lines(head + line) == Lines(head + (line + "\n")) == Lines(head) + [line]
  {
    hide Lines, Trim;
    VisibleLine(line);
    LineEnded(line);
    LinesAfterNewline(head, line);
    LinesAfterNewline(head, line + "\n");
  }

  lemma FusedLine(c: Codec, tail: string, r: Record, k: nat)
    requires Lawful(c) && k > 0 && c.dec(tail).Some? && Visible(tail) && '\n' !in tail
    ensures var fused := tail + c.enc(r)[..if k < |c.enc(r)| then k else |c.enc(r)|];
      c.dec(fused).None? && Visible(fused) && '\n' !in fused
  {
    var fused := tail + c.enc(r)[..if k < |c.enc(r)| then k else |c.enc(r)|];
    assert fused[0] == tail[0];
  }

  /** A log the store itself left: the last line is terminated, or begins like a record. */
  predicate Tidy(text: string) {
    Tail(text) == "" || Visible(Tail(text))
  }

  /** Exactly the missing newline spoils the next append. */
  lemma AppendIsReadExactly(c: Codec, text: string, r: Record)
    requires Lawful(c) && Tidy(text) && Read(c, text).Some? && !Read(c, text).value.torn
    ensures Read(c, text + c.enc(r) + "\n") == Some(Reading(WithHistory(r), Read(c, text).value.lines + 1, false))
      <==> Terminated(text)
  {
    hide Lines, Lawful, Tail;
    var k := |c.enc(r)| + 1;
    CutLines(c, r, k);
    assert text + Cut(c, r, k) == text + c.enc(r) + "\n";
    if Terminated(text) {
      AppendReads(c, text, r, k);
    } else {
      UntornTail(c, text);
      FusedAppendReads(c, text, r, k);
    }
  }

  lemma UntornTail(c: Codec, text: string)
    requires Tidy(text) && !Terminated(text) && Read(c, text).Some? && !Read(c, text).value.torn
    ensures c.dec(Tail(text)).Some?
  {
    VisibleLine(Tail(text));
    LinesAfterNewline(Head(text), Tail(text));
    var lines := Lines(text);
    assert lines[|lines| - 1] == Tail(text);
  }
}
