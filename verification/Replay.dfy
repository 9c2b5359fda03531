/**
 * Replaying a turn's progress log (packages/adapters/src/durable-acp-task.ts, `replayAcpProgress`)
 * against showing it live (packages/daemon/src/thread-agent.ts, `applyUpdate`).
 */
module Replay {
  import opened Common
  import opened Utf8
  import opened Transcript

  datatype Event = Said(id: Option<string>, text: string, replace: bool) | Other(kind: nat)

  /** A message as the transcript has it; a complete one takes no more text. */
  datatype Line = Line(id: string, text: string, complete: bool)

  /** What a message event does to the transcript. */
  datatype Write = Write(key: string, text: string, replace: bool)

  /** The message a live event concerns. A retried turn has an attempt identity. */
  function LiveKey(turn: string, attempt: Option<string>, id: Option<string>): string {
    if attempt.Some? then attempt.value + ":" + id.GetOr("answer")
    else id.GetOr("answer-" + turn)
  }

  function Writes(turn: string, attempt: Option<string>, es: seq<Event>): seq<Write> {
    if es == [] then []
    else
      var e := es[|es| - 1];
      Writes(turn, attempt, es[..|es| - 1]) + if e.Said? then [WriteOf(turn, attempt, e)] else []
  }

  function WriteOf(turn: string, attempt: Option<string>, e: Event): Write
    requires e.Said?
  {
    Write(LiveKey(turn, attempt, e.id), e.text, e.replace)
  }

  function LineIndex(lines: seq<Line>, id: string): (n: nat)
    ensures n <= |lines|
    ensures n < |lines| ==> lines[n].id == id
    ensures forall i :: 0 <= i < n ==> lines[i].id != id
  {
    FirstWhere(lines, (l: Line) => l.id == id)
  }

  /** applyUpdate while every text fits its budget. */
  function Put(lines: seq<Line>, w: Write): seq<Line> {
    var n := LineIndex(lines, w.key);
    if n == |lines| then lines + [Line(w.key, w.text, false)]
    else if lines[n].complete then lines
    else lines[n := Line(w.key, if w.replace then w.text else lines[n].text + w.text, false)]
  }

  function PutAll(lines: seq<Line>, ws: seq<Write>): seq<Line> {
    if ws == [] then lines else Put(PutAll(lines, ws[..|ws| - 1]), ws[|ws| - 1])
  }

  /** The transcript once these events have been shown. */
  function ShowAll(turn: string, attempt: Option<string>, lines: seq<Line>, es: seq<Event>): seq<Line> {
    PutAll(lines, Writes(turn, attempt, es))
  }

  // ---- replay ----

  /** One entry of the replay's Map, in insertion order: its key and the newest event under it. */
  datatype Entry = Entry(key: string, id: Option<string>, text: string)

  function ReplayKey(id: Option<string>): string {
    id.GetOr("answer")
  }

  function EntryIndex(entries: seq<Entry>, key: string): (n: nat)
    ensures n <= |entries|
    ensures n < |entries| ==> entries[n].key == key
    ensures forall i :: 0 <= i < n ==> entries[i].key != key
  {
    FirstWhere(entries, (e: Entry) => e.key == key)
  }

  function Collect(entries: seq<Entry>, e: Event): seq<Entry> {
    if !e.Said? then entries
    else
      var key := ReplayKey(e.id);
      var n := EntryIndex(entries, key);
      if n == |entries| then entries + [Entry(key, e.id, e.text)]
      else entries[n := Entry(key, e.id, if e.replace then e.text else entries[n].text + e.text)]
  }

  function CollectAll(es: seq<Event>): seq<Entry> {
    if es == [] then [] else Collect(CollectAll(es[..|es| - 1]), es[|es| - 1])
  }

  function Others(es: seq<Event>): seq<Event> {
    if es == [] then []
    else Others(es[..|es| - 1]) + (if es[|es| - 1].Said? then [] else [es[|es| - 1]])
  }

  function Messages(entries: seq<Entry>): (ms: seq<Event>)
    ensures |ms| == |entries|
  {
    seq(|entries|, i requires 0 <= i < |entries| => Said(entries[i].id, entries[i].text, true))
  }

  /** Everything a replay publishes, in order. */
  function Replayed(es: seq<Event>): seq<Event> {
    Others(es) + Messages(CollectAll(es))
  }

  /** replayAcpProgress, with its Map as an ordered list. */
  method ReplayProgress(es: seq<Event>) returns (published: seq<Event>)
    ensures published == Replayed(es)
  {
    published := [];
    var entries: seq<Entry> := [];
    var i := 0;
    while i < |es|
      invariant 0 <= i <= |es|
      invariant published == Others(es[..i])
      invariant entries == CollectAll(es[..i])
    {
      assert es[..i + 1][..i] == es[..i] && es[..i + 1][i] == es[i];
      var e := es[i];
      if e.Said? {
        var key := ReplayKey(e.id);
        var n := EntryIndex(entries, key);
        if n == |entries| {
          entries := entries + [Entry(key, e.id, e.text)];
        } else {
          entries := entries[n := Entry(key, e.id, if e.replace then e.text else entries[n].text + e.text)];
        }
      } else {
        published := published + [e];
      }
      i := i + 1;
    }
    assert es[..i] == es;
    ghost var others := published;
    var k := 0;
    while k < |entries|
      invariant 0 <= k <= |entries|
      invariant published == others + Messages(entries)[..k]
    {
      published := published + [Said(entries[k].id, entries[k].text, true)];
      k := k + 1;
    }
    assert Messages(entries)[..k] == Messages(entries);
  }

  // ---- when replay and live agree about which events form one message ----

  predicate SameGrouping(turn: string, attempt: Option<string>, es: seq<Event>) {
    forall i, j :: 0 <= i < |es| && 0 <= j < |es| && es[i].Said? && es[j].Said? ==>
      (ReplayKey(es[i].id) == ReplayKey(es[j].id) <==> LiveKey(turn, attempt, es[i].id) == LiveKey(turn, attempt, es[j].id))
  }

  predicate Mentions(es: seq<Event>, id: Option<string>) {
    exists i :: 0 <= i < |es| && es[i].Said? && es[i].id == id
  }

  /** The condition a harness can be checked for: a retried turn always agrees; a first turn agrees unless
      unnamed events come beside an explicit id `answer` or `answer-<turn>`. */
  predicate ClearlyNamed(turn: string, attempt: Option<string>, es: seq<Event>) {
    || attempt.Some?
    || !Mentions(es, None)
    || (!Mentions(es, Some("answer")) && !Mentions(es, Some("answer-" + turn)))
  }

  lemma PrefixKeys(prefix: string, a: string, b: string)
    ensures prefix + ":" + a == prefix + ":" + b <==> a == b
  {
    if prefix + ":" + a == prefix + ":" + b {
      assert a == (prefix + ":" + a)[|prefix| + 1..];
      assert b == (prefix + ":" + b)[|prefix| + 1..];
    }
  }

  lemma GroupingExactly(turn: string, attempt: Option<string>, es: seq<Event>)
    ensures SameGrouping(turn, attempt, es) <==> ClearlyNamed(turn, attempt, es)
  {
    assert |"answer-" + turn| > |"answer"|;
    if attempt.Some? {
      forall i, j | 0 <= i < |es| && 0 <= j < |es| && es[i].Said? && es[j].Said?
        ensures ReplayKey(es[i].id) == ReplayKey(es[j].id) <==> LiveKey(turn, attempt, es[i].id) == LiveKey(turn, attempt, es[j].id)
      {
        PrefixKeys(attempt.value, es[i].id.GetOr("answer"), es[j].id.GetOr("answer"));
      }
    } else if !ClearlyNamed(turn, attempt, es) {
      var i :| 0 <= i < |es| && es[i].Said? && es[i].id == None;
      var name := if Mentions(es, Some("answer")) then "answer" else "answer-" + turn;
      var j :| 0 <= j < |es| && es[j].Said? && es[j].id == Some(name);
      assert (ReplayKey(es[i].id) == ReplayKey(es[j].id)) != (LiveKey(turn, attempt, es[i].id) == LiveKey(turn, attempt, es[j].id));
    } else {
      forall i, j | 0 <= i < |es| && 0 <= j < |es| && es[i].Said? && es[j].Said?
        ensures ReplayKey(es[i].id) == ReplayKey(es[j].id) <==> LiveKey(turn, attempt, es[i].id) == LiveKey(turn, attempt, es[j].id)
      {
        if es[i].id.None? { assert Mentions(es, None); }
        if es[j].id.None? { assert Mentions(es, None); }
        if es[i].id.Some? && (es[i].id.value == "answer" || es[i].id.value == "answer-" + turn) { assert Mentions(es, es[i].id); }
        if es[j].id.Some? && (es[j].id.value == "answer" || es[j].id.value == "answer-" + turn) { assert Mentions(es, es[j].id); }
      }
    }
  }

  // ---- a transcript is its identities in order, and each identity's line ----

  function Get(lines: seq<Line>, key: string): (l: Option<Line>)
    ensures l.Some? ==> l.value.id == key
  {
    var n := LineIndex(lines, key);
    if n < |lines| then Some(lines[n]) else None
  }

  function Apply(l: Option<Line>, w: Write): Option<Line> {
    if l.None? then Some(Line(w.key, w.text, false))
    else if l.value.complete then l
    else Some(Line(w.key, if w.replace then w.text else l.value.text + w.text, false))
  }

  /** What the writes to one message make of it. */
  function ApplyAll(l: Option<Line>, ws: seq<Write>, key: string): Option<Line> {
    if ws == [] then l
    else
      var before := ApplyAll(l, ws[..|ws| - 1], key);
      if ws[|ws| - 1].key == key then Apply(before, ws[|ws| - 1]) else before
  }

  function Ids(lines: seq<Line>): (ids: seq<string>)
    ensures |ids| == |lines|
  {
    seq(|lines|, i requires 0 <= i < |lines| => lines[i].id)
  }

  /** The messages these writes add to those known, in order of first appearance. */
  function NewIds(known: seq<string>, ws: seq<Write>): seq<string> {
    if ws == [] then []
    else
      var before := NewIds(known, ws[..|ws| - 1]);
      var key := ws[|ws| - 1].key;
      if key in known || key in before then before else before + [key]
  }

  predicate Writing(ws: seq<Write>, key: string) {
    exists i :: 0 <= i < |ws| && ws[i].key == key
  }

  lemma IndexIs(lines: seq<Line>, key: string, n: nat)
    requires n < |lines| && lines[n].id == key && forall i :: 0 <= i < n ==> lines[i].id != key
    ensures LineIndex(lines, key) == n
  {
  }

  lemma GetPut(lines: seq<Line>, w: Write, key: string)
    ensures Get(Put(lines, w), key) == if w.key == key then Apply(Get(lines, key), w) else Get(lines, key)
  {
    var after := Put(lines, w);
    var n, k := LineIndex(lines, key), LineIndex(lines, w.key);
    assert forall i :: 0 <= i < |lines| ==> after[i].id == lines[i].id;
    if n < |lines| {
      IndexIs(after, key, n);
    } else if w.key == key {
      IndexIs(after, key, n);
    } else {
      assert forall i :: 0 <= i < |after| ==> after[i].id != key;
    }
  }

  lemma {:induction false} GetPutAll(lines: seq<Line>, ws: seq<Write>, key: string)
    ensures Get(PutAll(lines, ws), key) == ApplyAll(Get(lines, key), ws, key)
  {
    if ws != [] {
      hide Put, Get, Apply;
      GetPutAll(lines, ws[..|ws| - 1], key);
      GetPut(PutAll(lines, ws[..|ws| - 1]), ws[|ws| - 1], key);
    }
  }

  lemma IdsPut(lines: seq<Line>, w: Write)
    ensures Ids(Put(lines, w)) == if w.key in Ids(lines) then Ids(lines) else Ids(lines) + [w.key]
  {
    var n := LineIndex(lines, w.key);
    if n < |lines| {
      assert Ids(lines)[n] == w.key;
    } else {
      assert forall i :: 0 <= i < |lines| ==> Ids(lines)[i] != w.key;
    }
  }

  lemma {:induction false} IdsPutAll(lines: seq<Line>, ws: seq<Write>)
    ensures Ids(PutAll(lines, ws)) == Ids(lines) + NewIds(Ids(lines), ws)
  {
    if ws != [] {
      hide Put, Ids;
      IdsPutAll(lines, ws[..|ws| - 1]);
      IdsPut(PutAll(lines, ws[..|ws| - 1]), ws[|ws| - 1]);
    }
  }

  lemma {:induction false} NewIdsFresh(known: seq<string>, ws: seq<Write>)
    ensures Distinct(NewIds(known, ws))
    ensures forall x :: x in NewIds(known, ws) <==> x !in known && Writing(ws, x)
  {
    if ws != [] {
      var n := |ws| - 1;
      NewIdsFresh(known, ws[..n]);
      forall x ensures Writing(ws, x) <==> Writing(ws[..n], x) || ws[n].key == x {
        if Writing(ws[..n], x) {
          var i :| 0 <= i < n && ws[..n][i].key == x;
          assert ws[i].key == x;
        }
        if Writing(ws, x) {
          var i :| 0 <= i < |ws| && ws[i].key == x;
          if i < n { assert ws[..n][i].key == x; }
        }
      }
    }
  }

  /** A line with a namesake before it is out of reach of every write. */
  lemma {:induction false} NamesakesStay(lines: seq<Line>, ws: seq<Write>, j: nat, i: nat)
    requires j < i < |lines| && lines[j].id == lines[i].id
    ensures |lines| <= |PutAll(lines, ws)| && PutAll(lines, ws)[i] == lines[i] && PutAll(lines, ws)[j].id == lines[j].id
  {
    if ws != [] { NamesakesStay(lines, ws[..|ws| - 1], j, i); }
  }

  /** Two ways of writing to one transcript come out the same exactly when they add the same messages in the
      same order and make the same of each message. */
  lemma SameTranscript(base: seq<Line>, a: seq<Write>, b: seq<Write>)
    ensures PutAll(base, a) == PutAll(base, b) <==>
      && NewIds(Ids(base), a) == NewIds(Ids(base), b)
      && forall key :: ApplyAll(Get(base, key), a, key) == ApplyAll(Get(base, key), b, key)
  {
    hide ApplyAll, NewIds, Put, Apply, PutAll;
    IdsPutAll(base, a);
    IdsPutAll(base, b);
    forall key ensures Get(PutAll(base, a), key) == ApplyAll(Get(base, key), a, key)
      && Get(PutAll(base, b), key) == ApplyAll(Get(base, key), b, key)
    {
      GetPutAll(base, a, key);
      GetPutAll(base, b, key);
    }
    var x, y := PutAll(base, a), PutAll(base, b);
    if x == y {
      var n := |base|;
      assert Ids(x)[n..] == NewIds(Ids(base), a) && Ids(y)[n..] == NewIds(Ids(base), b);
    } else if NewIds(Ids(base), a) == NewIds(Ids(base), b)
              && forall key :: ApplyAll(Get(base, key), a, key) == ApplyAll(Get(base, key), b, key) {
      assert |Ids(x)| == |Ids(y)|;
      forall i | 0 <= i < |x| ensures x[i] == y[i] { SameLine(base, a, b, i); }
      assert false;
    }
  }

  lemma NewcomersAreFirst(known: seq<string>, ws: seq<Write>, j: nat, i: nat)
    requires |known| <= i < |known| + |NewIds(known, ws)| && j < i
    ensures (known + NewIds(known, ws))[j] != (known + NewIds(known, ws))[i]
  {
    NewIdsFresh(known, ws);
    var added := NewIds(known, ws);
    assert (known + added)[i] == added[i - |known|];
    assert added[i - |known|] in added;
    if j < |known| { assert (known + added)[j] == known[j]; } else { assert (known + added)[j] == added[j - |known|]; }
  }

  lemma SameLine(base: seq<Line>, a: seq<Write>, b: seq<Write>, i: nat)
    requires Ids(PutAll(base, a)) == Ids(PutAll(base, b)) && i < |PutAll(base, a)| == |PutAll(base, b)|
    requires forall key :: Get(PutAll(base, a), key) == Get(PutAll(base, b), key)
    ensures PutAll(base, a)[i] == PutAll(base, b)[i]
  {
    hide PutAll, NewIds;
    var x, y := PutAll(base, a), PutAll(base, b);
    IdsPutAll(base, a);
    NewIdsFresh(Ids(base), a);
    assert Ids(x)[i] == x[i].id && Ids(y)[i] == y[i].id;
    var j := LineIndex(x, x[i].id);
    assert Ids(x)[j] == x[j].id;
    if j < i {
      if i >= |base| { NewcomersAreFirst(Ids(base), a, j, i); }
      assert i < |base|;
      assert Ids(x)[i] == Ids(base)[i] && Ids(x)[j] == Ids(base)[j];
      NamesakesStay(base, a, j, i);
      NamesakesStay(base, b, j, i);
    } else {
      assert j == i;
      assert Get(x, x[i].id) == Some(x[i]);
      var k := LineIndex(y, x[i].id);
      assert forall l :: 0 <= l < i ==> Ids(y)[l] == Ids(x)[l] == x[l].id;
      assert forall l :: 0 <= l < i ==> y[l].id == Ids(y)[l];
      assert k == i;
    }
  }

  lemma {:induction false} PutTwo(lines: seq<Line>, a: seq<Write>, b: seq<Write>)
    ensures PutAll(lines, a + b) == PutAll(PutAll(lines, a), b)
    decreases |b|
  {
    if b == [] {
      assert a + b == a;
    } else {
      assert (a + b)[..|a + b| - 1] == a + b[..|b| - 1];
      PutTwo(lines, a, b[..|b| - 1]);
    }
  }

  lemma {:induction false} ApplyTwo(l: Option<Line>, a: seq<Write>, b: seq<Write>, key: string)
    ensures ApplyAll(l, a + b, key) == ApplyAll(ApplyAll(l, a, key), b, key)
    decreases |b|
  {
    if b == [] {
      assert a + b == a;
    } else {
      assert (a + b)[..|a + b| - 1] == a + b[..|b| - 1];
      ApplyTwo(l, a, b[..|b| - 1], key);
    }
  }

  lemma {:induction false} NewIdsTwo(known: seq<string>, a: seq<Write>, b: seq<Write>)
    ensures NewIds(known, a + b) == NewIds(known, a) + NewIds(known + NewIds(known, a), b)
    decreases |b|
  {
    if b == [] {
      assert a + b == a;
    } else {
      assert (a + b)[..|a + b| - 1] == a + b[..|b| - 1];
      NewIdsTwo(known, a, b[..|b| - 1]);
    }
  }

  lemma {:induction false} UnwrittenStays(l: Option<Line>, ws: seq<Write>, key: string)
    requires !Writing(ws, key)
    ensures ApplyAll(l, ws, key) == l
  {
    if ws != [] {
      var n := |ws| - 1;
      assert ws[n].key != key;
      assert forall i :: 0 <= i < n ==> ws[..n][i].key == ws[i].key != key;
      UnwrittenStays(l, ws[..n], key);
    }
  }

  // ---- what a replay does to one message ----

  function ReplayWrites(turn: string, attempt: Option<string>, entries: seq<Entry>): (ws: seq<Write>)
    ensures |ws| == |entries|
  {
    seq(|entries|, i requires 0 <= i < |entries| => Write(LiveKey(turn, attempt, entries[i].id), entries[i].text, true))
  }

  lemma {:induction false} WritesTwo(turn: string, attempt: Option<string>, a: seq<Event>, b: seq<Event>)
    ensures Writes(turn, attempt, a + b) == Writes(turn, attempt, a) + Writes(turn, attempt, b)
    decreases |b|
  {
    if b == [] {
      assert a + b == a;
    } else {
      assert (a + b)[..|a + b| - 1] == a + b[..|b| - 1];
      WritesTwo(turn, attempt, a, b[..|b| - 1]);
    }
  }

  lemma {:induction false} OthersWriteNothing(turn: string, attempt: Option<string>, es: seq<Event>)
    ensures Writes(turn, attempt, Others(es)) == []
  {
    if es != [] {
      OthersWriteNothing(turn, attempt, es[..|es| - 1]);
      if !es[|es| - 1].Said? {
        assert Others(es)[..|Others(es)| - 1] == Others(es[..|es| - 1]);
      } else {
        assert Others(es) == Others(es[..|es| - 1]);
      }
    }
  }

  lemma {:induction false} MessageWrites(turn: string, attempt: Option<string>, entries: seq<Entry>, k: nat)
    requires k <= |entries|
    ensures Writes(turn, attempt, Messages(entries)[..k]) == ReplayWrites(turn, attempt, entries)[..k]
  {
    if k > 0 {
      MessageWrites(turn, attempt, entries, k - 1);
      assert Messages(entries)[..k][..k - 1] == Messages(entries)[..k - 1];
    }
  }

  /** The other events of a log write nothing; each entry of the Map replaces its message. */
  lemma ReplayedWrites(turn: string, attempt: Option<string>, es: seq<Event>)
    ensures Writes(turn, attempt, Replayed(es)) == ReplayWrites(turn, attempt, CollectAll(es))
  {
    var entries := CollectAll(es);
    WritesTwo(turn, attempt, Others(es), Messages(entries));
    OthersWriteNothing(turn, attempt, es);
    MessageWrites(turn, attempt, entries, |entries|);
    assert Messages(entries)[..|entries|] == Messages(entries);
    assert ReplayWrites(turn, attempt, entries)[..|entries|] == ReplayWrites(turn, attempt, entries);
  }

  predicate Replacing(ws: seq<Write>) {
    forall i :: 0 <= i < |ws| ==> ws[i].replace
  }

  lemma ReplaysReplace(turn: string, attempt: Option<string>, entries: seq<Entry>)
    ensures Replacing(ReplayWrites(turn, attempt, entries))
  {
  }

  /** The text of the last write to a message. */
  function LastText(ws: seq<Write>, key: string): string {
    if ws == [] then "" else if ws[|ws| - 1].key == key then ws[|ws| - 1].text else LastText(ws[..|ws| - 1], key)
  }

  /** Replacements forget what was there before, unless the message is complete. */
  lemma {:induction false} ReplacedText(l: Option<Line>, ws: seq<Write>, key: string)
    requires Replacing(ws) && Writing(ws, key)
    ensures ApplyAll(l, ws, key) == if l.Some? && l.value.complete then l else Some(Line(key, LastText(ws, key), false))
  {
    var n := |ws| - 1;
    if ws[n].key == key {
      CompleteStays(l, ws[..n], key);
    } else {
      assert Writing(ws[..n], key) by {
        var i :| 0 <= i < |ws| && ws[i].key == key;
        assert ws[..n][i].key == key;
      }
      ReplacedText(l, ws[..n], key);
    }
  }

  lemma {:induction false} CompleteStays(l: Option<Line>, ws: seq<Write>, key: string)
    ensures l.Some? && l.value.complete ==> ApplyAll(l, ws, key) == l
    ensures !(l.Some? && l.value.complete) ==> ApplyAll(l, ws, key).None? || !ApplyAll(l, ws, key).value.complete
  {
    if ws != [] { CompleteStays(l, ws[..|ws| - 1], key); }
  }

  // ---- any naming: when a replay restores a turn ----

  /** Part of the turn was shown before the crash; after the replay the transcript is that of an uninterrupted
      turn. */
  predicate Restored(turn: string, attempt: Option<string>, base: seq<Line>, es: seq<Event>, k: nat)
    requires k <= |es|
  {
    ShowAll(turn, attempt, ShowAll(turn, attempt, base, es[..k]), Replayed(es)) == ShowAll(turn, attempt, base, es)
  }

  /** No event of the turn changes this line. */
  predicate LeavesAlone(turn: string, attempt: Option<string>, es: seq<Event>, l: Line) {
    forall i :: 0 <= i < |es| && es[i].Said? && LiveKey(turn, attempt, es[i].id) == l.id ==>
      Apply(Some(l), WriteOf(turn, attempt, es[i])) == Some(l)
  }

  /** The replay's last word on a message is what the turn made of it; a message the replay is silent about is
      an earlier one that no event changes. */
  predicate MessageCoincides(turn: string, attempt: Option<string>, base: seq<Line>, es: seq<Event>, key: string) {
    var l := Get(base, key);
    var ws := ReplayWrites(turn, attempt, CollectAll(es));
    || (l.Some? && l.value.complete)
    || (if Writing(ws, key) then ApplyAll(l, Writes(turn, attempt, es), key) == Some(Line(key, LastText(ws, key), false))
        else l.Some? && LeavesAlone(turn, attempt, es, l.value))
  }

  /** Replay and live agree although unnamed events are mixed with names they stand for: message by message, and
      about the order of the new ones. */
  predicate Coincides(turn: string, attempt: Option<string>, base: seq<Line>, es: seq<Event>) {
    && NewIds(Ids(base), ReplayWrites(turn, attempt, CollectAll(es))) == NewIds(Ids(base), Writes(turn, attempt, es))
    && forall i :: 0 <= i < |es| && es[i].Said? ==> MessageCoincides(turn, attempt, base, es, LiveKey(turn, attempt, es[i].id))
  }

  lemma RestoredMeans(turn: string, attempt: Option<string>, base: seq<Line>, es: seq<Event>, k: nat)
    requires k <= |es|
    ensures var all := Writes(turn, attempt, es[..k]) + ReplayWrites(turn, attempt, CollectAll(es));
      var live := Writes(turn, attempt, es);
      Restored(turn, attempt, base, es, k) <==>
        && NewIds(Ids(base), all) == NewIds(Ids(base), live)
        && forall key :: ApplyAll(Get(base, key), all, key) == ApplyAll(Get(base, key), live, key)
  {
    hide *;
    var rs := ReplayWrites(turn, attempt, CollectAll(es));
    ReplayedWrites(turn, attempt, es);
    PutTwo(base, Writes(turn, attempt, es[..k]), rs);
    SameTranscript(base, Writes(turn, attempt, es[..k]) + rs, Writes(turn, attempt, es));
    RestoredIs(turn, attempt, base, es, k);
  }

  lemma RestoredIs(turn: string, attempt: Option<string>, base: seq<Line>, es: seq<Event>, k: nat)
    requires k <= |es|
    ensures Restored(turn, attempt, base, es, k) <==>
      PutAll(PutAll(base, Writes(turn, attempt, es[..k])), Writes(turn, attempt, Replayed(es))) == PutAll(base, Writes(turn, attempt, es))
  {
    hide PutAll, Writes, Replayed;
  }

  /** The keys of a log's writes are the keys of its events, and the replay has no others. */
  lemma {:induction false} WritingMeans(turn: string, attempt: Option<string>, es: seq<Event>, key: string)
    ensures Writing(Writes(turn, attempt, es), key) <==> Named(turn, attempt, es, key)
  {
    if es != [] {
      var n := |es| - 1;
      WritingMeans(turn, attempt, es[..n], key);
      var before, now := Writes(turn, attempt, es[..n]), Writes(turn, attempt, es);
      if Writing(before, key) {
        var i :| 0 <= i < |before| && before[i].key == key;
        assert now[i].key == key;
        var j :| 0 <= j < n && es[..n][j].Said? && LiveKey(turn, attempt, es[..n][j].id) == key;
        assert es[j] == es[..n][j];
      } else if es[n].Said? && LiveKey(turn, attempt, es[n].id) == key {
        assert now[|before|].key == key;
      } else {
        forall i | 0 <= i < |now| ensures now[i].key != key { if i < |before| { assert now[i] == before[i]; } }
        forall j | 0 <= j < |es| && es[j].Said? ensures LiveKey(turn, attempt, es[j].id) != key {
          if j < n { assert es[..n][j] == es[j]; }
        }
      }
    }
  }

  predicate Named(turn: string, attempt: Option<string>, es: seq<Event>, key: string) {
    exists i :: 0 <= i < |es| && es[i].Said? && LiveKey(turn, attempt, es[i].id) == key
  }

  ghost predicate FromEvents(entries: seq<Entry>, es: seq<Event>) {
    forall i :: 0 <= i < |entries| ==> entries[i].key == ReplayKey(entries[i].id) && Mentions(es, entries[i].id)
  }

  lemma MentionsMore(before: seq<Event>, es: seq<Event>, id: Option<string>)
    requires es != [] && before == es[..|es| - 1] && Mentions(before, id)
    ensures Mentions(es, id)
  {
    var k :| 0 <= k < |before| && before[k].Said? && before[k].id == id;
    assert es[k] == before[k];
  }

  lemma {:induction false} EntriesAreMentioned(es: seq<Event>)
    ensures FromEvents(CollectAll(es), es)
  {
    if es != [] {
      var before, last := es[..|es| - 1], es[|es| - 1];
      EntriesAreMentioned(before);
      var entries := CollectAll(before);
      forall i | 0 <= i < |entries| ensures Mentions(es, entries[i].id) { MentionsMore(before, es, entries[i].id); }
      if last.Said? { assert Mentions(es, last.id); }
    }
  }

  lemma ReplayNamesNoOthers(turn: string, attempt: Option<string>, es: seq<Event>, key: string)
    requires Writing(ReplayWrites(turn, attempt, CollectAll(es)), key)
    ensures Named(turn, attempt, es, key)
  {
    EntriesAreMentioned(es);
    var entries := CollectAll(es);
    var ws := ReplayWrites(turn, attempt, entries);
    var i :| 0 <= i < |ws| && ws[i].key == key;
    assert Mentions(es, entries[i].id);
    var j :| 0 <= j < |es| && es[j].Said? && es[j].id == entries[i].id;
  }

  // ---- the order of new messages ----

  function Without(ids: seq<string>, known: seq<string>): seq<string> {
    if ids == [] then []
    else Without(ids[..|ids| - 1], known) + if ids[|ids| - 1] in known then [] else [ids[|ids| - 1]]
  }

  lemma {:induction false} WithoutMembers(ids: seq<string>, known: seq<string>)
    ensures forall x :: x in Without(ids, known) <==> x in ids && x !in known
  {
    if ids != [] {
      WithoutMembers(ids[..|ids| - 1], known);
      assert ids == ids[..|ids| - 1] + [ids[|ids| - 1]];
    }
  }

  /** Knowing more messages beforehand only takes those out. */
  lemma {:induction false} NewIdsKnown(known: seq<string>, more: seq<string>, ws: seq<Write>)
    ensures NewIds(known + more, ws) == Without(NewIds(known, ws), more)
  {
    if ws != [] {
      var n := |ws| - 1;
      NewIdsKnown(known, more, ws[..n]);
      var before := NewIds(known, ws[..n]);
      WithoutMembers(before, more);
      assert (before + [ws[n].key])[..|before|] == before;
    }
  }

  lemma {:induction false} WithoutItsPrefix(a: seq<string>, b: seq<string>)
    requires Distinct(a + b)
    ensures Without(a + b, a) == b
  {
    if b == [] {
      assert a + b == a;
      WithoutAll(a, a);
    } else {
      var n := |b| - 1;
      assert (a + b)[..|a| + n] == a + b[..n];
      assert Distinct(a + b[..n]) by {
        forall i, j | 0 <= i < j < |a + b[..n]| ensures (a + b[..n])[i] != (a + b[..n])[j] {
          assert (a + b)[i] == (a + b[..n])[i] && (a + b)[j] == (a + b[..n])[j];
        }
      }
      WithoutItsPrefix(a, b[..n]);
      forall i | 0 <= i < |a| ensures a[i] != b[n] { assert (a + b)[i] == a[i] && (a + b)[|a| + n] == b[n]; }
    }
  }

  lemma {:induction false} WithoutAll(a: seq<string>, known: seq<string>)
    requires forall x :: x in a ==> x in known
    ensures Without(a, known) == []
  {
    if a != [] {
      assert a[|a| - 1] in a;
      forall x | x in a[..|a| - 1] ensures x in known { assert x in a; }
      WithoutAll(a[..|a| - 1], known);
    }
  }

  /** Showing some of a turn's messages first, and then all of them in the turn's order, leaves the turn's order
      exactly when those first ones came in that order and nothing was skipped before them. */
  lemma OrderExactly(known: seq<string>, seen: seq<Write>, rs: seq<Write>, live: seq<Write>)
    requires NewIds(known, rs) == NewIds(known, live)
    ensures NewIds(known, seen + rs) == NewIds(known, live) <==> NewIds(known, seen) <= NewIds(known, live)
  {
    hide NewIds, Without, Writing;
    var a, l := NewIds(known, seen), NewIds(known, live);
    NewIdsTwo(known, seen, rs);
    NewIdsKnown(known, a, rs);
    if a <= l {
      NewIdsFresh(known, live);
      assert l == a + l[|a|..];
      WithoutItsPrefix(a, l[|a|..]);
    }
  }

  lemma PrefixOrder(turn: string, attempt: Option<string>, known: seq<string>, es: seq<Event>, k: nat)
    requires k <= |es|
    ensures NewIds(known, Writes(turn, attempt, es[..k])) <= NewIds(known, Writes(turn, attempt, es))
  {
    assert es == es[..k] + es[k..];
    WritesTwo(turn, attempt, es[..k], es[k..]);
    NewIdsTwo(known, Writes(turn, attempt, es[..k]), Writes(turn, attempt, es[k..]));
  }

  // ---- the exact condition, whatever the naming ----

  lemma {:induction false} LeftAlone(turn: string, attempt: Option<string>, es: seq<Event>, l: Line)
    requires LeavesAlone(turn, attempt, es, l)
    ensures ApplyAll(Some(l), Writes(turn, attempt, es), l.id) == Some(l)
  {
    if es != [] {
      var n := |es| - 1;
      assert forall i :: 0 <= i < n ==> es[..n][i] == es[i];
      LeftAlone(turn, attempt, es[..n], l);
      AppliedMore(turn, attempt, Some(l), es, l.id);
    }
  }

  lemma AppliedMore(turn: string, attempt: Option<string>, l: Option<Line>, es: seq<Event>, key: string)
    requires es != []
    ensures var n := |es| - 1;
      var before := ApplyAll(l, Writes(turn, attempt, es[..n]), key);
      ApplyAll(l, Writes(turn, attempt, es), key) ==
        if es[n].Said? && LiveKey(turn, attempt, es[n].id) == key then Apply(before, WriteOf(turn, attempt, es[n])) else before
  {
    var n := |es| - 1;
    var before := Writes(turn, attempt, es[..n]);
    if es[n].Said? { assert (before + [WriteOf(turn, attempt, es[n])])[..|before|] == before; }
    else { assert before + [] == before; }
  }

  /** One message: for every crash point, given that it coincides. */
  lemma MessageRestored(turn: string, attempt: Option<string>, base: seq<Line>, es: seq<Event>, k: nat, key: string)
    requires k <= |es| && Named(turn, attempt, es, key) && MessageCoincides(turn, attempt, base, es, key)
    ensures var rs := ReplayWrites(turn, attempt, CollectAll(es));
      ApplyAll(Get(base, key), Writes(turn, attempt, es[..k]) + rs, key) == ApplyAll(Get(base, key), Writes(turn, attempt, es), key)
  {
    hide Writes, Apply, ApplyAll, CollectAll, Writing, LiveKey, LeavesAlone, Get;
    var l := Get(base, key);
    var part, rs, live := Writes(turn, attempt, es[..k]), ReplayWrites(turn, attempt, CollectAll(es)), Writes(turn, attempt, es);
    ApplyTwo(l, part, rs, key);
    CompleteStays(l, part, key);
    CompleteStays(l, part + rs, key);
    CompleteStays(l, live, key);
    if !(l.Some? && l.value.complete) {
      if Writing(rs, key) {
        ReplaysReplace(turn, attempt, CollectAll(es));
        ReplacedText(ApplyAll(l, part, key), rs, key);
      } else {
        UnwrittenStays(ApplyAll(l, part, key), rs, key);
        LeftAlone(turn, attempt, es, l.value);
        LeavesPrefixAlone(turn, attempt, es, l.value, k);
        LeftAlone(turn, attempt, es[..k], l.value);
      }
    }
  }

  lemma LeavesPrefixAlone(turn: string, attempt: Option<string>, es: seq<Event>, l: Line, k: nat)
    requires k <= |es| && LeavesAlone(turn, attempt, es, l)
    ensures LeavesAlone(turn, attempt, es[..k], l)
  {
  }

  lemma UnnamedStays(turn: string, attempt: Option<string>, base: seq<Line>, es: seq<Event>, k: nat, key: string)
    requires k <= |es| && !Named(turn, attempt, es, key)
    ensures var rs := ReplayWrites(turn, attempt, CollectAll(es));
      ApplyAll(Get(base, key), Writes(turn, attempt, es[..k]) + rs, key) == ApplyAll(Get(base, key), Writes(turn, attempt, es), key)
  {
    var l := Get(base, key);
    var part, rs, live := Writes(turn, attempt, es[..k]), ReplayWrites(turn, attempt, CollectAll(es)), Writes(turn, attempt, es);
    assert !Named(turn, attempt, es[..k], key) by { assert forall i :: 0 <= i < k ==> es[..k][i] == es[i]; }
    hide Writes, ApplyAll, CollectAll, Writing, Named;
    WritingMeans(turn, attempt, es, key);
    WritingMeans(turn, attempt, es[..k], key);
    if Writing(rs, key) { ReplayNamesNoOthers(turn, attempt, es, key); }
    ApplyTwo(l, part, rs, key);
    UnwrittenStays(l, part, key);
    UnwrittenStays(l, rs, key);
    UnwrittenStays(l, live, key);
  }

  lemma CoincidenceRestores(turn: string, attempt: Option<string>, base: seq<Line>, es: seq<Event>, k: nat)
    requires k <= |es| && Coincides(turn, attempt, base, es)
    ensures Restored(turn, attempt, base, es, k)
  {
    hide Writes, ApplyAll, CollectAll, MessageCoincides, Restored, NewIds, ReplayWrites, LiveKey;
    var part, rs, live := Writes(turn, attempt, es[..k]), ReplayWrites(turn, attempt, CollectAll(es)), Writes(turn, attempt, es);
    RestoredMeans(turn, attempt, base, es, k);
    PrefixOrder(turn, attempt, Ids(base), es, k);
    OrderExactly(Ids(base), part, rs, live);
    forall key ensures ApplyAll(Get(base, key), part + rs, key) == ApplyAll(Get(base, key), live, key) {
      if Named(turn, attempt, es, key) {
        MessageRestored(turn, attempt, base, es, k, key);
      } else {
        UnnamedStays(turn, attempt, base, es, k, key);
      }
    }
  }

  lemma {:induction false} WrittenIsThere(l: Option<Line>, ws: seq<Write>, key: string)
    requires Writing(ws, key)
    ensures ApplyAll(l, ws, key).Some?
  {
    var n := |ws| - 1;
    if ws[n].key != key {
      assert Writing(ws[..n], key) by {
        var i :| 0 <= i < |ws| && ws[i].key == key;
        assert ws[..n][i].key == key;
      }
      WrittenIsThere(l, ws[..n], key);
    }
  }

  /** If every crash point restores the turn, each of its messages coincides. */
  lemma RestorationCoincides(turn: string, attempt: Option<string>, base: seq<Line>, es: seq<Event>, key: string)
    requires forall k :: 0 <= k <= |es| ==> Restored(turn, attempt, base, es, k)
    requires Named(turn, attempt, es, key)
    ensures MessageCoincides(turn, attempt, base, es, key)
  {
    hide Writes, Apply, ApplyAll, CollectAll, Restored, NewIds, ReplayWrites, LiveKey, Named, Get;
    var l := Get(base, key);
    var rs, live := ReplayWrites(turn, attempt, CollectAll(es)), Writes(turn, attempt, es);
    assert es[..0] == [];
    NoWrites(turn, attempt);
    assert [] + rs == rs;
    RestoredMeans(turn, attempt, base, es, 0);
    assert ApplyAll(l, rs, key) == ApplyAll(l, live, key);
    if !(l.Some? && l.value.complete) {
      if Writing(rs, key) {
        ReplaysReplace(turn, attempt, CollectAll(es));
        ReplacedText(l, rs, key);
      } else {
        UnwrittenStays(l, rs, key);
        WritingMeans(turn, attempt, es, key);
        WrittenIsThere(l, live, key);
        forall i | 0 <= i < |es| && es[i].Said? && LiveKey(turn, attempt, es[i].id) == l.value.id
          ensures Apply(Some(l.value), WriteOf(turn, attempt, es[i])) == Some(l.value)
        {
          SilentStep(turn, attempt, base, es, key, i);
          SilentStep(turn, attempt, base, es, key, i + 1);
          assert es[..i + 1][..i] == es[..i] && es[..i + 1][i] == es[i];
          AppliedMore(turn, attempt, l, es[..i + 1], key);
        }
      }
    }
  }

  lemma NoWrites(turn: string, attempt: Option<string>)
    ensures Writes(turn, attempt, []) == []
  {
  }

  /** A message the replay is silent about must have its final text at every crash point. */
  lemma SilentStep(turn: string, attempt: Option<string>, base: seq<Line>, es: seq<Event>, key: string, k: nat)
    requires k <= |es| && Restored(turn, attempt, base, es, k)
    requires !Writing(ReplayWrites(turn, attempt, CollectAll(es)), key)
    ensures ApplyAll(Get(base, key), Writes(turn, attempt, es[..k]), key) == ApplyAll(Get(base, key), Writes(turn, attempt, es), key)
  {
    hide Writes, ApplyAll, CollectAll, Restored, NewIds, ReplayWrites, Writing;
    var part, rs := Writes(turn, attempt, es[..k]), ReplayWrites(turn, attempt, CollectAll(es));
    RestoredMeans(turn, attempt, base, es, k);
    ApplyTwo(Get(base, key), part, rs, key);
    UnwrittenStays(ApplyAll(Get(base, key), part, key), rs, key);
  }

  lemma CoincidesExactly(turn: string, attempt: Option<string>, base: seq<Line>, es: seq<Event>)
    ensures (forall k :: 0 <= k <= |es| ==> Restored(turn, attempt, base, es, k)) <==> Coincides(turn, attempt, base, es)
  {
    hide Writes, ApplyAll, CollectAll, Restored, NewIds, ReplayWrites, LiveKey, MessageCoincides;
    if forall k :: 0 <= k <= |es| ==> Restored(turn, attempt, base, es, k) {
      assert es[..0] == [];
      NoWrites(turn, attempt);
      var rs := ReplayWrites(turn, attempt, CollectAll(es));
      assert [] + rs == rs;
      RestoredMeans(turn, attempt, base, es, 0);
      forall i | 0 <= i < |es| && es[i].Said?
        ensures MessageCoincides(turn, attempt, base, es, LiveKey(turn, attempt, es[i].id))
      {
        RestorationCoincides(turn, attempt, base, es, LiveKey(turn, attempt, es[i].id));
      }
    } else if Coincides(turn, attempt, base, es) {
      forall k | 0 <= k <= |es| ensures Restored(turn, attempt, base, es, k) { CoincidenceRestores(turn, attempt, base, es, k); }
      assert false;
    }
  }
}
