/**
 * What the store's theorems assume can be had: a codec with the laws assumed of JSON, and a run from an empty
 * store that loses exactly a newline and then two records.
 */
module LogWitness {
  import opened Common
  import opened Text
  import opened LogText
  import opened LogStore
  import opened LogCrash
  import opened LogRuns

  // ---- a lawful codec ----

  function Unary(n: nat): string {
    if n == 0 then "b" else "a" + Unary(n - 1)
  }

  function EncodeText(s: string): string {
    if s == "" then "c" else Unary(s[0] as int) + EncodeText(s[1..])
  }

  function EncodeTexts(l: seq<string>): string {
    if l == [] then "d" else "e" + (EncodeText(l[0]) + EncodeTexts(l[1..]))
  }

  function EncodeFlag(b: bool): string {
    if b then "f" else "g"
  }

  function EncodeHistory(h: Option<seq<string>>): string {
    if h.None? then "h" else "i" + EncodeTexts(h.value)
  }

  function EncodeFields(r: Record): string {
    EncodeText(r.id) + (EncodeText(r.bucket) + (EncodeFlag(r.resolved) + (EncodeFlag(r.operations)
      + (EncodeTexts(r.revisions) + (EncodeHistory(r.history) + EncodeText(r.body))))))
  }

  function Encode(r: Record): string {
    "{" + EncodeFields(r) + "}"
  }

  lemma {:induction false} UnaryIsPrefixFree(n: nat, m: nat, x: string, y: string)
    requires Unary(n) + x == Unary(m) + y
    ensures n == m && x == y
  {
    var s := Unary(n) + x;
    assert s[0] == Unary(n)[0] == Unary(m)[0];
    if n == 0 {
      assert s[1..] == x && s[1..] == y;
    } else {
      assert s[1..] == Unary(n - 1) + x && s[1..] == Unary(m - 1) + y;
      UnaryIsPrefixFree(n - 1, m - 1, x, y);
    }
  }

  lemma {:induction false} TextIsPrefixFree(s: string, t: string, x: string, y: string)
    requires EncodeText(s) + x == EncodeText(t) + y
    ensures s == t && x == y
  {
    var all := EncodeText(s) + x;
    assert all[0] == EncodeText(s)[0] == EncodeText(t)[0];
    if s == "" {
      assert all[1..] == x && all[1..] == y;
    } else {
      var a, b := EncodeText(s[1..]) + x, EncodeText(t[1..]) + y;
      assert all == Unary(s[0] as int) + a && all == Unary(t[0] as int) + b;
      UnaryIsPrefixFree(s[0] as int, t[0] as int, a, b);
      TextIsPrefixFree(s[1..], t[1..], x, y);
      assert s == [s[0]] + s[1..] && t == [t[0]] + t[1..];
    }
  }

  lemma {:induction false} TextsArePrefixFree(s: seq<string>, t: seq<string>, x: string, y: string)
    requires EncodeTexts(s) + x == EncodeTexts(t) + y
    ensures s == t && x == y
  {
    var all := EncodeTexts(s) + x;
    assert all[0] == EncodeTexts(s)[0] == EncodeTexts(t)[0];
    if s == [] {
      assert all[1..] == x && all[1..] == y;
    } else {
      var a, b := EncodeTexts(s[1..]) + x, EncodeTexts(t[1..]) + y;
      assert all[1..] == EncodeText(s[0]) + a && all[1..] == EncodeText(t[0]) + b;
      TextIsPrefixFree(s[0], t[0], a, b);
      TextsArePrefixFree(s[1..], t[1..], x, y);
      assert s == [s[0]] + s[1..] && t == [t[0]] + t[1..];
    }
  }

  lemma FlagIsPrefixFree(a: bool, b: bool, x: string, y: string)
    requires EncodeFlag(a) + x == EncodeFlag(b) + y
    ensures a == b && x == y
  {
    var all := EncodeFlag(a) + x;
    assert all[0] == EncodeFlag(a)[0] == EncodeFlag(b)[0];
    assert all[1..] == x && all[1..] == y;
  }

  lemma HistoryIsPrefixFree(a: Option<seq<string>>, b: Option<seq<string>>, x: string, y: string)
    requires EncodeHistory(a) + x == EncodeHistory(b) + y
    ensures a == b && x == y
  {
    hide EncodeTexts;
    var s, t := EncodeHistory(a) + x, EncodeHistory(b) + y;
    assert s[0] == EncodeHistory(a)[0] && t[0] == EncodeHistory(b)[0];
    if a.None? {
      assert s[1..] == x && t[1..] == y;
    } else {
      TaggedTexts(a.value, x);
      TaggedTexts(b.value, y);
      TextsArePrefixFree(a.value, b.value, x, y);
    }
  }

  lemma TaggedTexts(l: seq<string>, x: string)
    ensures (EncodeHistory(Some(l)) + x)[1..] == EncodeTexts(l) + x
  {
    hide EncodeTexts;
    var f := EncodeTexts(l);
    assert ("i" + f + x)[1..] == f + x;
  }

  lemma FieldsAreInjective(r: Record, q: Record)
    requires EncodeFields(r) == EncodeFields(q)
    ensures r == q
  {
    hide EncodeText, EncodeTexts, EncodeFlag, EncodeHistory;
    var r6, q6 := EncodeHistory(r.history) + EncodeText(r.body), EncodeHistory(q.history) + EncodeText(q.body);
    var r5, q5 := EncodeTexts(r.revisions) + r6, EncodeTexts(q.revisions) + q6;
    var r4, q4 := EncodeFlag(r.operations) + r5, EncodeFlag(q.operations) + q5;
    var r3, q3 := EncodeFlag(r.resolved) + r4, EncodeFlag(q.resolved) + q4;
    TextIsPrefixFree(r.id, q.id, EncodeText(r.bucket) + r3, EncodeText(q.bucket) + q3);
    TextIsPrefixFree(r.bucket, q.bucket, r3, q3);
    FlagIsPrefixFree(r.resolved, q.resolved, r4, q4);
    FlagIsPrefixFree(r.operations, q.operations, r5, q5);
    TextsArePrefixFree(r.revisions, q.revisions, r6, q6);
    HistoryIsPrefixFree(r.history, q.history, EncodeText(r.body), EncodeText(q.body));
    assert EncodeText(r.body) + "" == EncodeText(q.body) + "";
    TextIsPrefixFree(r.body, q.body, "", "");
  }

  predicate Letters(s: string) {
    forall i :: 0 <= i < |s| ==> 'a' <= s[i] <= 'i'
  }

  lemma {:induction false} UnaryLetters(n: nat)
    ensures Letters(Unary(n))
  {
    if n > 0 { UnaryLetters(n - 1); }
  }

  lemma {:induction false} TextLetters(s: string)
    ensures Letters(EncodeText(s))
  {
    if s != "" {
      UnaryLetters(s[0] as int);
      TextLetters(s[1..]);
    }
  }

  lemma {:induction false} TextsLetters(l: seq<string>)
    ensures Letters(EncodeTexts(l))
  {
    if l != [] {
      TextLetters(l[0]);
      TextsLetters(l[1..]);
    }
  }

  lemma LettersTwo(a: string, b: string)
    requires Letters(a) && Letters(b)
    ensures Letters(a + b)
  {
  }

  lemma FieldLetters(r: Record)
    ensures Letters(EncodeFields(r))
  {
    TextLetters(r.id);
    TextLetters(r.bucket);
    TextLetters(r.body);
    TextsLetters(r.revisions);
    assert Letters(EncodeFlag(r.resolved)) && Letters(EncodeFlag(r.operations));
    assert Letters(EncodeHistory(r.history)) by { if r.history.Some? { TextsLetters(r.history.value); } }
    hide Letters, EncodeText, EncodeTexts, EncodeFlag, EncodeHistory;
    var r6 := EncodeHistory(r.history) + EncodeText(r.body);
    LettersTwo(EncodeHistory(r.history), EncodeText(r.body));
    LettersTwo(EncodeTexts(r.revisions), r6);
    LettersTwo(EncodeFlag(r.operations), EncodeTexts(r.revisions) + r6);
    LettersTwo(EncodeFlag(r.resolved), EncodeFlag(r.operations) + (EncodeTexts(r.revisions) + r6));
    LettersTwo(EncodeText(r.bucket), EncodeFlag(r.resolved) + (EncodeFlag(r.operations) + (EncodeTexts(r.revisions) + r6)));
    LettersTwo(EncodeText(r.id), EncodeText(r.bucket) + (EncodeFlag(r.resolved) + (EncodeFlag(r.operations) + (EncodeTexts(r.revisions) + r6))));
  }

  /** The closing brace of an encoding is its last character and no other. */
  lemma OneBrace(r: Record)
    ensures var e := Encode(r);
      && |e| >= 2 && e[0] == '{' && e[|e| - 1] == '}' && '\n' !in e
      && forall i :: 0 <= i < |e| - 1 ==> e[i] != '}'
  {
    FieldLetters(r);
    hide EncodeFields;
    var e, f := Encode(r), EncodeFields(r);
    assert forall i :: 1 <= i < |e| - 1 ==> e[i] == f[i - 1];
  }

  lemma EncodeIsInjective(r: Record, q: Record)
    requires Encode(r) == Encode(q)
    ensures r == q
  {
    hide EncodeFields;
    var e := Encode(r);
    assert e[1..|e| - 1] == EncodeFields(r) && e[1..|e| - 1] == EncodeFields(q);
    FieldsAreInjective(r, q);
  }

  ghost predicate Encodes(s: string, r: Record) {
    Encode(r) == s
  }

  ghost function Decoded(s: string): (found: Option<Record>)
    ensures found.Some? ==> Encodes(s, found.value)
    ensures found.None? ==> forall r :: !Encodes(s, r)
  {
    if r: Record :| Encodes(s, r) then Some(r) else None
  }

  lemma NoRecord(s: string, i: nat)
    requires i + 1 < |s| && s[i] == '}'
    ensures Decoded(s).None?
  {
    if Decoded(s).Some? { OneBrace(Decoded(s).value); }
  }

  lemma Unclosed(s: string)
    requires forall i :: 0 <= i < |s| ==> s[i] != '}'
    ensures Decoded(s).None?
  {
    if Decoded(s).Some? { OneBrace(Decoded(s).value); }
  }

  /** Some codec has every law assumed of JSON. */
  lemma LawfulCodecsExist()
    ensures exists c :: Lawful(c)
  {
    hide Encode, Decoded;
    var c := Codec(Encode, s => Decoded(s));
    forall r ensures c.dec(c.enc(r)) == Some(r) {
      assert Encodes(Encode(r), r);
      EncodeIsInjective(Decoded(Encode(r)).value, r);
    }
    forall r ensures '\n' !in c.enc(r) && c.enc(r) != "" && !IsSpace(c.enc(r)[0]) { OneBrace(r); }
    forall r, k | 0 <= k < |c.enc(r)| ensures c.dec(c.enc(r)[..k]).None? {
      OneBrace(r);
      Unclosed(Encode(r)[..k]);
    }
    forall s, r, k | 0 < k <= |c.enc(r)| && c.dec(s).Some? ensures c.dec(s + c.enc(r)[..k]).None? {
      OneBrace(Decoded(s).value);
      NoRecord(s + Encode(r)[..k], |s| - 1);
    }
    assert Lawful(c);
  }

  // ---- the run that loses two records ----

  function Version(body: string): Record {
    Record("t", "b", false, false, [], None, body)
  }

  const LOG := Path("b", "t")

  /** Write, die with only the newline missing, restart, write again. */
  function UntilRestart(c: Codec): seq<Event> {
    [Perform(Put(Version("1"))), CrashIn(Put(Version("2")), |c.enc(Version("2"))|), Boot([LOG])]
  }

  function OneLog(text: string, r: Record, lines: nat): Store {
    Store(map[LOG := text], map["t" := r], map["t" := LOG], map["t" := lines])
  }

  lemma FirstWrite(c: Codec)
    ensures Step(c, Up(Fresh(map[])), UntilRestart(c)[0]) == Up(OneLog(c.enc(Version("1")) + "\n", Version("1"), 1))
  {
    var s := Fresh(map[]);
    assert FileOf(s, Version("1")) == LOG;
    assert s.disk[LOG := c.enc(Version("1")) + "\n"] == map[LOG := c.enc(Version("1")) + "\n"];
    assert Upsert(c, s, Version("1")) == OneLog(c.enc(Version("1")) + "\n", Version("1"), 1);
  }

  function BothTexts(c: Codec): string {
    c.enc(Version("1")) + "\n" + c.enc(Version("2"))
  }

  lemma CutWrite(c: Codec)
    requires Lawful(c)
    ensures Step(c, Up(OneLog(c.enc(Version("1")) + "\n", Version("1"), 1)), UntilRestart(c)[1]) == Down(map[LOG := BothTexts(c)])
  {
    hide Lawful;
    var s := OneLog(c.enc(Version("1")) + "\n", Version("1"), 1);
    var k := |c.enc(Version("2"))|;
    CutLines(c, Version("2"), k);
    assert !Compacts(s, Version("2"));
    assert s.disk[LOG := BothTexts(c)] == map[LOG := BothTexts(c)];
  }

  lemma BothRead(c: Codec)
    requires Lawful(c)
    ensures Read(c, BothTexts(c)) == Some(Reading(Version("2"), 2, false))
    ensures Read(c, c.enc(Version("1")) + "\n") == Some(Reading(Version("1"), 1, false))
  {
    var text, k := c.enc(Version("1")) + "\n", |c.enc(Version("2"))|;
    WholeReads(c, Version("1"));
    CutLines(c, Version("2"), k);
    LawfulRecord(c, Version("1"));
    VisibleLine(c.enc(Version("1")));
    LineEnded(c.enc(Version("1")));
    hide Lawful, Lines, Cut;
    AppendReads(c, text, Version("2"), k);
    LawfulRecord(c, Version("2"));
  }

  lemma Restart(c: Codec)
    requires Lawful(c)
    ensures Step(c, Down(map[LOG := BothTexts(c)]), UntilRestart(c)[2]) == Up(OneLog(BothTexts(c), Version("2"), 2))
  {
    BothRead(c);
    hide Lawful, Read, BothTexts;
    var disk := map[LOG := BothTexts(c)];
    assert Lists([LOG], disk);
    assert [LOG][..0] == [];
    assert RecoverAll(c, Fresh(disk), []) == Fresh(disk);
    assert RecoverAll(c, Fresh(disk), [LOG]) == RecoverFile(c, RecoverAll(c, Fresh(disk), [LOG][..0]), LOG);
    assert TextOf(disk, LOG) == BothTexts(c);
  }

  lemma AfterRestart(c: Codec)
    requires Lawful(c)
    ensures Steps(c, Up(Fresh(map[])), UntilRestart(c)) == Up(OneLog(BothTexts(c), Version("2"), 2))
  {
    FirstWrite(c);
    CutWrite(c);
    Restart(c);
    hide Step, Lawful;
    var es := UntilRestart(c);
    assert es[1..] == [es[1], es[2]] && es[1..][1..] == [es[2]] && es[1..][1..][1..] == [];
    var b := Down(map[LOG := BothTexts(c)]);
    assert Steps(c, b, es[1..][1..]) == Steps(c, Step(c, b, es[2]), es[1..][1..][1..]);
  }

  lemma BothHead(c: Codec)
    requires Lawful(c)
    ensures Tail(BothTexts(c)) == c.enc(Version("2")) && Head(BothTexts(c)) == c.enc(Version("1")) + "\n"
    ensures !Terminated(BothTexts(c))
  {
    LawfulRecord(c, Version("2"));
    TailAfterNewline(c.enc(Version("1")) + "\n", c.enc(Version("2")));
  }

  /** From an empty store: after the restart the thread's second version is served, the next write fuses with
      it, and the restart after that finds only the first. */
  lemma TwoRecordsAreLost(c: Codec)
    requires Lawful(c)
    ensures var n := Steps(c, Up(Fresh(map[])), UntilRestart(c));
      var e := Perform(Put(Version("3")));
      && n.Up? && n.store.sessions == map["t" := Version("2")]
      && FusesNow(n, e)
      && LOG in DiskOf(Step(c, n, e)) && Read(c, DiskOf(Step(c, n, e))[LOG]).Some?
      && Read(c, DiskOf(Step(c, n, e))[LOG]).value.record == Version("1")
  {
    AfterRestart(c);
    BothHead(c);
    BothRead(c);
    var s := OneLog(BothTexts(c), Version("2"), 2);
    var r := Version("3");
    assert !Compacts(s, r);
    LawfulRecord(c, Version("2"));
    hide Read, Lawful, BothTexts;
    var k := |c.enc(r)| + 1;
    CutLines(c, r, k);
    FusedAppendReads(c, BothTexts(c), r, k);
    assert Cut(c, r, k) == c.enc(r) + "\n";
    assert Upsert(c, s, r).disk[LOG] == BothTexts(c) + (c.enc(r) + "\n");
    ReadOfLines(c, Head(BothTexts(c)));
  }

  lemma ReadOfLines(c: Codec, text: string)
    ensures Read(c, text) == ReadLines(c, Lines(text))
  {
  }
}
