/**
 * When a replay of a turn's log leaves the transcript an uninterrupted turn would have left: for any part of
 * the turn shown before, any earlier transcript, and any naming that keeps messages apart.
 */
module ReplayLive {
  import opened Common
  import opened Utf8
  import opened Replay
  import opened Receipts
  import AgentMachine
  import Transcript

  // ---- the replay's Map is the transcript of an empty start ----

  function Lines(turn: string, attempt: Option<string>, entries: seq<Entry>): (ls: seq<Line>)
    ensures |ls| == |entries|
  {
    seq(|entries|, i requires 0 <= i < |entries| => Line(LiveKey(turn, attempt, entries[i].id), entries[i].text, false))
  }

  lemma ClearPrefix(turn: string, attempt: Option<string>, es: seq<Event>, k: nat)
    requires k <= |es| && ClearlyNamed(turn, attempt, es)
    ensures ClearlyNamed(turn, attempt, es[..k])
  {
    forall id | Mentions(es[..k], id) ensures Mentions(es, id) {
      var i :| 0 <= i < k && es[..k][i].Said? && es[..k][i].id == id;
      assert es[i].id == id;
    }
  }

  /** Two ids seen in one clearly named log: one entry of the Map if and only if one message. */
  lemma SameMessage(turn: string, attempt: Option<string>, es: seq<Event>, a: Option<string>, b: Option<string>)
    requires ClearlyNamed(turn, attempt, es) && Mentions(es, a) && Mentions(es, b)
    ensures ReplayKey(a) == ReplayKey(b) <==> LiveKey(turn, attempt, a) == LiveKey(turn, attempt, b)
  {
    hide ClearlyNamed, LiveKey, ReplayKey;
    GroupingExactly(turn, attempt, es);
    var i :| 0 <= i < |es| && es[i].Said? && es[i].id == a;
    var j :| 0 <= j < |es| && es[j].Said? && es[j].id == b;
  }

  lemma SameIndex(turn: string, attempt: Option<string>, es: seq<Event>, entries: seq<Entry>, id: Option<string>)
    requires ClearlyNamed(turn, attempt, es) && FromEvents(entries, es) && Mentions(es, id)
    ensures EntryIndex(entries, ReplayKey(id)) == LineIndex(Lines(turn, attempt, entries), LiveKey(turn, attempt, id))
  {
    forall i | 0 <= i < |entries|
      ensures entries[i].key == ReplayKey(id) <==> Lines(turn, attempt, entries)[i].id == LiveKey(turn, attempt, id)
    {
      SameMessage(turn, attempt, es, entries[i].id, id);
    }
    hide ReplayKey, LiveKey, ClearlyNamed, Mentions;
    var n, k := EntryIndex(entries, ReplayKey(id)), LineIndex(Lines(turn, attempt, entries), LiveKey(turn, attempt, id));
    assert !(n < k) && !(k < n);
  }

  lemma CollectedEvent(turn: string, attempt: Option<string>, es: seq<Event>, entries: seq<Entry>, e: Event)
    requires ClearlyNamed(turn, attempt, es) && FromEvents(entries, es) && e.Said? && Mentions(es, e.id)
    ensures Lines(turn, attempt, Collect(entries, e)) == Put(Lines(turn, attempt, entries), WriteOf(turn, attempt, e))
  {
    SameIndex(turn, attempt, es, entries, e.id);
    hide ClearlyNamed, Mentions, FromEvents, LiveKey, ReplayKey;
    var n := EntryIndex(entries, ReplayKey(e.id));
    var now := Collect(entries, e);
    forall i | 0 <= i < |entries| && i != n ensures now[i] == entries[i] { }
  }

  /** What the replay collects is what showing the turn in an empty transcript gives. */
  lemma {:induction false} CollectIsLive(turn: string, attempt: Option<string>, es: seq<Event>)
    requires ClearlyNamed(turn, attempt, es)
    ensures Lines(turn, attempt, CollectAll(es)) == ShowAll(turn, attempt, [], es)
  {
    if es != [] {
      var n := |es| - 1;
      ClearPrefix(turn, attempt, es, n);
      CollectIsLive(turn, attempt, es[..n]);
      if es[n].Said? {
        EntriesAreMentioned(es[..n]);
        MentionedBefore(CollectAll(es[..n]), es);
        assert Mentions(es, es[n].id);
        CollectedEvent(turn, attempt, es, CollectAll(es[..n]), es[n]);
        var w := WriteOf(turn, attempt, es[n]);
        var before := Writes(turn, attempt, es[..n]);
        assert (before + [w])[..|before|] == before;
      } else {
        assert Writes(turn, attempt, es) == Writes(turn, attempt, es[..n]);
      }
    }
  }

  lemma MentionedBefore(entries: seq<Entry>, es: seq<Event>)
    requires es != [] && FromEvents(entries, es[..|es| - 1])
    ensures FromEvents(entries, es)
  {
    forall i | 0 <= i < |entries| ensures Mentions(es, entries[i].id) {
      MentionsMore(es[..|es| - 1], es, entries[i].id);
    }
  }

  /** Writes with distinct keys, each replacing, put one line each. */
  lemma {:induction false} DistinctWrites(turn: string, attempt: Option<string>, entries: seq<Entry>, k: nat)
    requires k <= |entries| && Distinct(Ids(Lines(turn, attempt, entries)))
    ensures PutAll([], ReplayWrites(turn, attempt, entries)[..k]) == Lines(turn, attempt, entries)[..k]
  {
    var rs, ls := ReplayWrites(turn, attempt, entries), Lines(turn, attempt, entries);
    if k > 0 {
      DistinctWrites(turn, attempt, entries, k - 1);
      assert rs[..k][..k - 1] == rs[..k - 1];
      assert rs[k - 1].key == ls[k - 1].id == Ids(ls)[k - 1];
      var before := ls[..k - 1];
      forall i | 0 <= i < k - 1 ensures before[i].id != rs[k - 1].key { assert Ids(ls)[i] == ls[i].id; }
      assert LineIndex(before, rs[k - 1].key) == k - 1;
      assert ls[..k] == before + [ls[k - 1]];
    }
  }

  /** In an empty transcript, replaying a clearly named log is showing it. */
  lemma ReplayAloneIsLive(turn: string, attempt: Option<string>, es: seq<Event>)
    requires ClearlyNamed(turn, attempt, es)
    ensures PutAll([], ReplayWrites(turn, attempt, CollectAll(es))) == PutAll([], Writes(turn, attempt, es))
  {
    hide ClearlyNamed, PutAll, Writes, NewIds, CollectAll, Writing;
    var entries, live := CollectAll(es), Writes(turn, attempt, es);
    CollectIsLive(turn, attempt, es);
    IdsPutAll([], live);
    NewIdsFresh([], live);
    assert Ids([]) + NewIds([], live) == NewIds([], live);
    DistinctWrites(turn, attempt, entries, |entries|);
    var rs := ReplayWrites(turn, attempt, entries);
    assert rs[..|entries|] == rs && Lines(turn, attempt, entries)[..|entries|] == Lines(turn, attempt, entries);
  }

  /** What agrees in an empty transcript agrees about every new message of any transcript, and about the order. */
  lemma SameAlone(a: seq<Write>, b: seq<Write>, known: seq<string>, key: string)
    requires PutAll([], a) == PutAll([], b)
    ensures ApplyAll(None, a, key) == ApplyAll(None, b, key)
    ensures NewIds(known, a) == NewIds(known, b)
  {
    hide PutAll, ApplyAll, NewIds, Without;
    SameTranscript([], a, b);
    assert Get([], key) == None;
    assert Ids([]) == [];
    NewIdsKnown([], known, a);
    NewIdsKnown([], known, b);
    assert [] + known == known;
  }

  // ---- a message that an earlier turn left open ----

  predicate Rewriting(ws: seq<Write>, key: string) {
    exists i :: 0 <= i < |ws| && ws[i].key == key && ws[i].replace
  }

  lemma RewritingMore(ws: seq<Write>, key: string)
    requires ws != []
    ensures Rewriting(ws, key) <==> Rewriting(ws[..|ws| - 1], key) || (ws[|ws| - 1].key == key && ws[|ws| - 1].replace)
    ensures Writing(ws, key) <==> Writing(ws[..|ws| - 1], key) || ws[|ws| - 1].key == key
  {
    var n := |ws| - 1;
    if Rewriting(ws[..n], key) {
      var i :| 0 <= i < n && ws[..n][i].key == key && ws[..n][i].replace;
      assert ws[i] == ws[..n][i];
    }
    if Writing(ws[..n], key) {
      var i :| 0 <= i < n && ws[..n][i].key == key;
      assert ws[i] == ws[..n][i];
    }
    assert forall i :: 0 <= i < n ==> ws[..n][i] == ws[i];
  }

  /** Text already there stays in front unless one of the writes replaces it. */
  lemma {:induction false} OldTextStays(old_: string, ws: seq<Write>, key: string)
    requires Writing(ws, key)
    ensures var alone, after := ApplyAll(None, ws, key), ApplyAll(Some(Line(key, old_, false)), ws, key);
      alone.Some? && !alone.value.complete && alone.value.id == key
      && after == Some(Line(key, if Rewriting(ws, key) then alone.value.text else old_ + alone.value.text, false))
  {
    hide Writing, Rewriting;
    var n := |ws| - 1;
    assert ws != [] by { NothingWritten(ws, key); }
    RewritingMore(ws, key);
    if Writing(ws[..n], key) {
      OldTextStays(old_, ws[..n], key);
      if ws[n].key == key && !ws[n].replace {
        var alone := ApplyAll(None, ws[..n], key).value.text;
        assert old_ + alone + ws[n].text == old_ + (alone + ws[n].text);
      }
    } else {
      assert !Rewriting(ws[..n], key) by { RewritingIsWriting(ws[..n], key); }
      UnwrittenStays(None, ws[..n], key);
      UnwrittenStays(Some(Line(key, old_, false)), ws[..n], key);
    }
  }

  lemma NothingWritten(ws: seq<Write>, key: string)
    requires Writing(ws, key)
    ensures ws != []
  {
  }

  lemma RewritingIsWriting(ws: seq<Write>, key: string)
    ensures Rewriting(ws, key) ==> Writing(ws, key)
  {
  }

  predicate Rewritten(turn: string, attempt: Option<string>, es: seq<Event>, key: string) {
    exists i :: 0 <= i < |es| && es[i].Said? && LiveKey(turn, attempt, es[i].id) == key && es[i].replace
  }

  lemma {:induction false} RewritingMeans(turn: string, attempt: Option<string>, es: seq<Event>, key: string)
    ensures Rewriting(Writes(turn, attempt, es), key) <==> Rewritten(turn, attempt, es, key)
  {
    if es != [] {
      var n := |es| - 1;
      RewritingMeans(turn, attempt, es[..n], key);
      RewrittenMore(turn, attempt, es, key);
      var before := Writes(turn, attempt, es[..n]);
      if es[n].Said? {
        var w := WriteOf(turn, attempt, es[n]);
        RewritingMore(before + [w], key);
        assert (before + [w])[..|before|] == before;
      } else {
        assert Writes(turn, attempt, es) == before;
      }
    }
  }

  lemma RewrittenMore(turn: string, attempt: Option<string>, es: seq<Event>, key: string)
    requires es != []
    ensures var n := |es| - 1;
      Rewritten(turn, attempt, es, key) <==>
        || Rewritten(turn, attempt, es[..n], key)
        || (es[n].Said? && LiveKey(turn, attempt, es[n].id) == key && es[n].replace)
  {
    var n := |es| - 1;
    assert forall i :: 0 <= i < n ==> es[..n][i] == es[i];
    if Rewritten(turn, attempt, es[..n], key) {
      var i :| 0 <= i < n && es[..n][i].Said? && LiveKey(turn, attempt, es[..n][i].id) == key && es[..n][i].replace;
      assert es[i] == es[..n][i];
    }
  }

  /** The turn adds to text an earlier turn left in this message, and never replaces it. */
  predicate Continues(turn: string, attempt: Option<string>, base: seq<Line>, es: seq<Event>, key: string) {
    var l := Get(base, key);
    l.Some? && !l.value.complete && l.value.text != "" && !Rewritten(turn, attempt, es, key)
  }

  /** The guard: no event names a message that an earlier turn left open with text in it, unless some event of
      the turn replaces that text. On a retry it always holds, as the attempt's identity is new. */
  predicate NoneContinued(turn: string, attempt: Option<string>, base: seq<Line>, es: seq<Event>) {
    forall i :: 0 <= i < |es| && es[i].Said? ==> !Continues(turn, attempt, base, es, LiveKey(turn, attempt, es[i].id))
  }

  /** One message named by a clearly named log, whatever was shown of it before the replay. */
  lemma MessageExactly(turn: string, attempt: Option<string>, base: seq<Line>, log: seq<Event>, seen: seq<Write>, key: string)
    requires ClearlyNamed(turn, attempt, log) && Named(turn, attempt, log, key)
    ensures var rs := ReplayWrites(turn, attempt, CollectAll(log));
      (ApplyAll(Get(base, key), seen + rs, key) == ApplyAll(Get(base, key), Writes(turn, attempt, log), key))
        <==> !Continues(turn, attempt, base, log, key)
  {
    hide ClearlyNamed, Named, ApplyAll, Writes, CollectAll, Writing, Rewriting, Rewritten, Get, Replacing, LiveKey, ReplayWrites;
    var l := Get(base, key);
    var rs, live := ReplayWrites(turn, attempt, CollectAll(log)), Writes(turn, attempt, log);
    WritingMeans(turn, attempt, log, key);
    RewritingMeans(turn, attempt, log, key);
    ReplayAloneIsLive(turn, attempt, log);
    SameAlone(rs, live, [], key);
    WrittenIsThere(None, live, key);
    ReplaysReplace(turn, attempt, CollectAll(log));
    assert Writing(rs, key) by { if !Writing(rs, key) { UnwrittenStays(None, rs, key); } }
    ReplacedText(None, rs, key);
    ApplyTwo(l, seen, rs, key);
    CompleteStays(l, seen, key);
    CompleteStays(l, live, key);
    ReplacedText(ApplyAll(l, seen, key), rs, key);
    if l.Some? && !l.value.complete {
      OldTextStays(l.value.text, live, key);
      Longer(l.value.text, LastText(rs, key));
    }
  }

  lemma Longer(a: string, b: string)
    ensures a + b == b <==> a == ""
  {
    assert |a + b| == |a| + |b|;
  }

  // ---- any part of the turn shown before the replay ----

  /** Only messages of the log were shown. */
  predicate Among(turn: string, attempt: Option<string>, seen: seq<Event>, log: seq<Event>) {
    forall i :: 0 <= i < |seen| && seen[i].Said? ==> Named(turn, attempt, log, LiveKey(turn, attempt, seen[i].id))
  }

  /** The transcript after this part of the turn was shown and its log replayed. */
  function Recovered(turn: string, attempt: Option<string>, base: seq<Line>, seen: seq<Event>, log: seq<Event>): seq<Line> {
    ShowAll(turn, attempt, ShowAll(turn, attempt, base, seen), Replayed(log))
  }

  ghost predicate SameTexts(a: seq<Line>, b: seq<Line>) {
    forall key :: Get(a, key) == Get(b, key)
  }

  lemma RecoveredIs(turn: string, attempt: Option<string>, base: seq<Line>, seen: seq<Event>, log: seq<Event>)
    ensures Recovered(turn, attempt, base, seen, log)
      == PutAll(base, Writes(turn, attempt, seen) + ReplayWrites(turn, attempt, CollectAll(log)))
  {
    hide *;
    ReplayedWrites(turn, attempt, log);
    PutTwo(base, Writes(turn, attempt, seen), ReplayWrites(turn, attempt, CollectAll(log)));
    RecoveredShows(turn, attempt, base, seen, log);
  }

  lemma RecoveredShows(turn: string, attempt: Option<string>, base: seq<Line>, seen: seq<Event>, log: seq<Event>)
    ensures Recovered(turn, attempt, base, seen, log)
      == PutAll(PutAll(base, Writes(turn, attempt, seen)), Writes(turn, attempt, Replayed(log)))
  {
    hide PutAll, Writes, Replayed;
  }

  lemma OtherMessage(turn: string, attempt: Option<string>, base: seq<Line>, seen: seq<Event>, log: seq<Event>, key: string)
    requires Among(turn, attempt, seen, log) && !Named(turn, attempt, log, key)
    ensures ApplyAll(Get(base, key), Writes(turn, attempt, seen) + ReplayWrites(turn, attempt, CollectAll(log)), key) == Get(base, key)
    ensures ApplyAll(Get(base, key), Writes(turn, attempt, log), key) == Get(base, key)
  {
    var rs := ReplayWrites(turn, attempt, CollectAll(log));
    assert !Named(turn, attempt, seen, key);
    hide Writes, ApplyAll, CollectAll, Writing, Named, Among;
    WritingMeans(turn, attempt, log, key);
    WritingMeans(turn, attempt, seen, key);
    if Writing(rs, key) { ReplayNamesNoOthers(turn, attempt, log, key); }
    ApplyTwo(Get(base, key), Writes(turn, attempt, seen), rs, key);
    UnwrittenStays(Get(base, key), Writes(turn, attempt, seen), key);
    UnwrittenStays(Get(base, key), rs, key);
    UnwrittenStays(Get(base, key), Writes(turn, attempt, log), key);
  }

  /** The messages a turn continues are among those it names. */
  lemma ContinuedMeans(turn: string, attempt: Option<string>, base: seq<Line>, log: seq<Event>)
    ensures NoneContinued(turn, attempt, base, log) <==>
      forall key :: Named(turn, attempt, log, key) ==> !Continues(turn, attempt, base, log, key)
  {
    hide Continues;
    if NoneContinued(turn, attempt, base, log) {
      forall key | Named(turn, attempt, log, key) ensures !Continues(turn, attempt, base, log, key) {
        var i :| 0 <= i < |log| && log[i].Said? && LiveKey(turn, attempt, log[i].id) == key;
      }
    } else {
      var i :| 0 <= i < |log| && log[i].Said? && Continues(turn, attempt, base, log, LiveKey(turn, attempt, log[i].id));
      assert Named(turn, attempt, log, LiveKey(turn, attempt, log[i].id));
    }
  }

  lemma TextsExactly(turn: string, attempt: Option<string>, base: seq<Line>, seen: seq<Event>, log: seq<Event>)
    requires ClearlyNamed(turn, attempt, log) && Among(turn, attempt, seen, log)
    ensures NoneContinued(turn, attempt, base, log) <==>
      forall key :: ApplyAll(Get(base, key), Writes(turn, attempt, seen) + ReplayWrites(turn, attempt, CollectAll(log)), key)
                 == ApplyAll(Get(base, key), Writes(turn, attempt, log), key)
  {
    hide ClearlyNamed, Among, Named, Continues, NoneContinued, ApplyAll, Writes, CollectAll, Get;
    ContinuedMeans(turn, attempt, base, log);
    forall key ensures ApplyAll(Get(base, key), Writes(turn, attempt, seen) + ReplayWrites(turn, attempt, CollectAll(log)), key)
                        == ApplyAll(Get(base, key), Writes(turn, attempt, log), key)
      <==> !(Named(turn, attempt, log, key) && Continues(turn, attempt, base, log, key))
    {
      if Named(turn, attempt, log, key) {
        MessageExactly(turn, attempt, base, log, Writes(turn, attempt, seen), key);
      } else {
        OtherMessage(turn, attempt, base, seen, log, key);
      }
    }
  }

  /** Every text is restored, whatever part of the turn was shown before and in whatever order, exactly when the
      turn continues no message of an earlier one. */
  lemma TextsAreRestored(turn: string, attempt: Option<string>, base: seq<Line>, seen: seq<Event>, log: seq<Event>)
    requires ClearlyNamed(turn, attempt, log) && Among(turn, attempt, seen, log)
    ensures SameTexts(Recovered(turn, attempt, base, seen, log), ShowAll(turn, attempt, base, log))
      <==> NoneContinued(turn, attempt, base, log)
  {
    hide ClearlyNamed, Among, NoneContinued, ApplyAll, Writes, CollectAll, Get, PutAll, Recovered, ReplayWrites;
    RecoveredIs(turn, attempt, base, seen, log);
    TextsExactly(turn, attempt, base, seen, log);
    var all := Writes(turn, attempt, seen) + ReplayWrites(turn, attempt, CollectAll(log));
    forall key ensures Get(PutAll(base, all), key) == ApplyAll(Get(base, key), all, key)
      && Get(PutAll(base, Writes(turn, attempt, log)), key) == ApplyAll(Get(base, key), Writes(turn, attempt, log), key)
    {
      GetPutAll(base, all, key);
      GetPutAll(base, Writes(turn, attempt, log), key);
    }
  }

  /** The messages these events add to a transcript, in order of first appearance. */
  function Newcomers(turn: string, attempt: Option<string>, base: seq<Line>, es: seq<Event>): seq<string> {
    NewIds(Ids(base), Writes(turn, attempt, es))
  }

  /** The whole transcript is restored exactly when besides what was shown introduced its messages in the log's
      order and skipped none. */
  lemma TranscriptIsRestored(turn: string, attempt: Option<string>, base: seq<Line>, seen: seq<Event>, log: seq<Event>)
    requires ClearlyNamed(turn, attempt, log) && Among(turn, attempt, seen, log)
    ensures Recovered(turn, attempt, base, seen, log) == ShowAll(turn, attempt, base, log) <==>
      && NoneContinued(turn, attempt, base, log)
      && Newcomers(turn, attempt, base, seen) <= Newcomers(turn, attempt, base, log)
  {
    hide ClearlyNamed, Among, NoneContinued, ApplyAll, Writes, CollectAll, Get, PutAll, Recovered, ReplayWrites, NewIds;
    var rs, live := ReplayWrites(turn, attempt, CollectAll(log)), Writes(turn, attempt, log);
    RecoveredIs(turn, attempt, base, seen, log);
    SameTranscript(base, Writes(turn, attempt, seen) + rs, live);
    TextsExactly(turn, attempt, base, seen, log);
    ReplayAloneIsLive(turn, attempt, log);
    SameAlone(rs, live, Ids(base), "");
    OrderExactly(Ids(base), Writes(turn, attempt, seen), rs, live);
  }

  lemma PrefixIsAmong(turn: string, attempt: Option<string>, log: seq<Event>, k: nat)
    requires k <= |log|
    ensures Among(turn, attempt, log[..k], log)
  {
    forall i | 0 <= i < k && log[..k][i].Said? ensures Named(turn, attempt, log, LiveKey(turn, attempt, log[..k][i].id)) {
      assert log[i] == log[..k][i];
    }
  }

  /** Live and replay agree on a clearly named turn, at whichever event it was cut off, if and only if it
      continues no message of an earlier turn. */
  lemma ReplayEqualsLive(turn: string, attempt: Option<string>, base: seq<Line>, log: seq<Event>, k: nat)
    requires k <= |log| && ClearlyNamed(turn, attempt, log)
    ensures Restored(turn, attempt, base, log, k) <==> NoneContinued(turn, attempt, base, log)
  {
    hide ClearlyNamed, Among, NoneContinued, Writes, NewIds, ShowAll, Replayed;
    PrefixIsAmong(turn, attempt, log, k);
    PrefixOrder(turn, attempt, Ids(base), log, k);
    TranscriptIsRestored(turn, attempt, base, log[..k], log);
  }

  /** The condition for every log and every earlier transcript, the unclear names included. */
  predicate Agrees(turn: string, attempt: Option<string>, base: seq<Line>, log: seq<Event>) {
    if ClearlyNamed(turn, attempt, log) then NoneContinued(turn, attempt, base, log) else Coincides(turn, attempt, base, log)
  }

  lemma ReplayEqualsLiveExactly(turn: string, attempt: Option<string>, base: seq<Line>, log: seq<Event>)
    ensures (forall k :: 0 <= k <= |log| ==> Restored(turn, attempt, base, log, k)) <==> Agrees(turn, attempt, base, log)
  {
    hide ClearlyNamed, NoneContinued, Coincides, Restored;
    if ClearlyNamed(turn, attempt, log) {
      forall k | 0 <= k <= |log| ensures Restored(turn, attempt, base, log, k) <==> NoneContinued(turn, attempt, base, log) {
        ReplayEqualsLive(turn, attempt, base, log, k);
      }
      if forall k :: 0 <= k <= |log| ==> Restored(turn, attempt, base, log, k) {
        assert Restored(turn, attempt, base, log, 0);
      }
    } else {
      CoincidesExactly(turn, attempt, base, log);
    }
  }

  /** A retry's messages carry its attempt's identity; if no earlier message does, the retry continues none. */
  lemma RetriesContinueNothing(turn: string, attempt: string, base: seq<Line>, log: seq<Event>)
    requires forall i :: 0 <= i < |base| ==> !(attempt + ":" <= base[i].id)
    ensures ClearlyNamed(turn, Some(attempt), log) && NoneContinued(turn, Some(attempt), base, log)
  {
    forall i | 0 <= i < |log| && log[i].Said? ensures !Continues(turn, Some(attempt), base, log, LiveKey(turn, Some(attempt), log[i].id)) {
      var key := LiveKey(turn, Some(attempt), log[i].id);
      assert attempt + ":" <= key;
      var n := LineIndex(base, key);
      assert n == |base|;
    }
  }

  // ---- replaying again ----

  lemma {:induction false} NothingNew(known: seq<string>, ws: seq<Write>)
    requires forall key :: Writing(ws, key) ==> key in known
    ensures NewIds(known, ws) == []
  {
    if ws != [] {
      var n := |ws| - 1;
      assert Writing(ws, ws[n].key);
      forall key | Writing(ws[..n], key) ensures key in known {
        var i :| 0 <= i < n && ws[..n][i].key == key;
        assert ws[i].key == key;
      }
      NothingNew(known, ws[..n]);
    }
  }

  /** A second replay changes nothing. */
  lemma ReplayTwice(turn: string, attempt: Option<string>, lines: seq<Line>, log: seq<Event>)
    ensures var once := ShowAll(turn, attempt, lines, Replayed(log));
      ShowAll(turn, attempt, once, Replayed(log)) == once
  {
    var rs := ReplayWrites(turn, attempt, CollectAll(log));
    hide Writes, CollectAll, PutAll, ApplyAll, NewIds, Get, Replacing, ReplayWrites, Writing;
    ReplayedWrites(turn, attempt, log);
    ReplaysReplace(turn, attempt, CollectAll(log));
    PutTwo(lines, rs, rs);
    SameTranscript(lines, rs + rs, rs);
    forall key ensures ApplyAll(Get(lines, key), rs + rs, key) == ApplyAll(Get(lines, key), rs, key) {
      ApplyTwo(Get(lines, key), rs, rs, key);
      if Writing(rs, key) {
        ReplacedText(Get(lines, key), rs, key);
        ReplacedText(ApplyAll(Get(lines, key), rs, key), rs, key);
      } else {
        UnwrittenStays(Get(lines, key), rs, key);
      }
    }
    var known := Ids(lines);
    NewIdsTwo(known, rs, rs);
    NewIdsFresh(known, rs);
    NothingNew(known + NewIds(known, rs), rs);
  }

  // ---- the inputs on which they differ ----

  lemma OneWrite(turn: string, attempt: Option<string>, e: Event)
    requires e.Said?
    ensures Writes(turn, attempt, [e]) == [WriteOf(turn, attempt, e)]
  {
    assert [e][..0] == [];
    assert Writes(turn, attempt, []) == [];
  }

  lemma TwoWrites(turn: string, attempt: Option<string>, e: Event, f: Event)
    requires e.Said? && f.Said?
    ensures Writes(turn, attempt, [e, f]) == [WriteOf(turn, attempt, e), WriteOf(turn, attempt, f)]
  {
    OneWrite(turn, attempt, e);
    assert [e, f][..1] == [e];
  }

  lemma TwoPuts(lines: seq<Line>, v: Write, w: Write)
    ensures PutAll(lines, []) == lines
    ensures PutAll(lines, [v]) == Put(lines, v)
    ensures PutAll(lines, [v, w]) == Put(Put(lines, v), w)
  {
    assert [v][..0] == [] && [v, w][..1] == [v];
    assert PutAll(lines, [v][..0]) == lines;
    assert PutAll(lines, [v]) == Put(PutAll(lines, [v][..0]), v);
    assert PutAll(lines, [v, w]) == Put(PutAll(lines, [v, w][..1]), w);
  }

  lemma OneCollected(e: Event)
    requires e.Said?
    ensures CollectAll([e]) == [Entry(ReplayKey(e.id), e.id, e.text)]
  {
    assert [e][..0] == [];
    assert CollectAll([]) == [];
  }

  lemma TwoCollected(e: Event, f: Event)
    requires e.Said? && f.Said?
    ensures CollectAll([e, f]) == Collect(CollectAll([e]), f)
  {
    assert [e, f][..1] == [e];
  }

  /** The turn before left the message `x` open with text; the next first turn uses the name again. Live its
      text is added, the replay puts it in place of the old. */
  lemma ContinuedMessagesDiffer(turn: string)
    ensures var base, log := [Line("x", "old", false)], [Said(Some("x"), "a", false)];
      && ClearlyNamed(turn, None, log)
      && Continues(turn, None, base, log, "x")
      && ShowAll(turn, None, base, log) == [Line("x", "olda", false)]
      && Recovered(turn, None, base, [], log) == [Line("x", "a", false)]
  {
    var e := Said(Some("x"), "a", false);
    var base, w := [Line("x", "old", false)], Write("x", "a", false);
    OneWrite(turn, None, e);
    OneCollected(e);
    RecoveredIs(turn, None, base, [], [e]);
    var rs := ReplayWrites(turn, None, CollectAll([e]));
    assert [] + rs == [Write("x", "a", true)];
    TwoPuts(base, w, w);
    TwoPuts(base, Write("x", "a", true), w);
    assert Writes(turn, None, []) == [];
    assert "old" + "a" == "olda";
    IndexIs(base, "x", 0);
  }

  /** An unnamed event beside the id `answer`: the replay makes one message of them, live there are two. */
  lemma AnswerMergesInReplay(turn: string)
    ensures var log := [Said(None, "a", false), Said(Some("answer"), "b", false)];
      && ShowAll(turn, None, [], log) == [Line("answer-" + turn, "a", false), Line("answer", "b", false)]
      && Recovered(turn, None, [], [], log) == [Line("answer", "ab", false)]
  {
    var e, f := Said(None, "a", false), Said(Some("answer"), "b", false);
    assert |"answer-" + turn| > |"answer"|;
    TwoWrites(turn, None, e, f);
    TwoPuts([], WriteOf(turn, None, e), WriteOf(turn, None, f));
    OneCollected(e);
    TwoCollected(e, f);
    assert "a" + "b" == "ab";
    var entries := CollectAll([e, f]);
    assert entries == [Entry("answer", Some("answer"), "ab")];
    RecoveredIs(turn, None, [], [], [e, f]);
    assert Writes(turn, None, []) == [];
    assert [] + ReplayWrites(turn, None, entries) == [Write("answer", "ab", true)];
    TwoPuts([], Write("answer", "ab", true), Write("answer", "ab", true));
  }

  /** Beside the id `answer-<turn>` it is the other way round. */
  lemma AnswerMergesLive(turn: string)
    ensures var name := "answer-" + turn;
      var log := [Said(None, "a", false), Said(Some(name), "b", false)];
      && ShowAll(turn, None, [], log) == [Line(name, "ab", false)]
      && Recovered(turn, None, [], [], log) == [Line(name, "b", false)]
  {
    var name := "answer-" + turn;
    var e, f := Said(None, "a", false), Said(Some(name), "b", false);
    assert |name| > |"answer"|;
    TwoWrites(turn, None, e, f);
    TwoPuts([], WriteOf(turn, None, e), WriteOf(turn, None, f));
    assert "a" + "b" == "ab";
    OneCollected(e);
    TwoCollected(e, f);
    var entries := CollectAll([e, f]);
    assert entries == [Entry("answer", None, "a"), Entry(name, Some(name), "b")];
    RecoveredIs(turn, None, [], [], [e, f]);
    assert Writes(turn, None, []) == [];
    assert [] + ReplayWrites(turn, None, entries) == [Write(name, "a", true), Write(name, "b", true)];
    TwoPuts([], Write(name, "a", true), Write(name, "b", true));
  }

  // ---- the agent's own transcript, while texts fit their budgets ----

  /** How the agent's message identities are spelled, given the spelling of the identities in them. */
  function Spelled(names: Id -> string, id: MessageId): string {
    match id
    case OfInput(submission) => names(submission)
    case OfAttempt(attempt, name) => names(attempt) + ":" + name
    case OfTurn(turn) => "answer-" + names(turn)
    case OfName(name) => name
  }

  function Shown<K(!new)>(spell: K -> string, ms: seq<Transcript.Message<K>>): (ls: seq<Line>)
    ensures |ls| == |ms|
  {
    seq(|ms|, i requires 0 <= i < |ms| => Line(spell(ms[i].id), ms[i].text, ms[i].complete))
  }

  /** The event's text fits what the message and the transcript have left. */
  predicate Fits<K(==)>(ms: seq<Transcript.Message<K>>, u: Transcript.Update<K>) {
    var o := Transcript.Opened(ms, u);
    var text, used := o[Transcript.IndexOf(o, u.id)].text, Transcript.Used(o);
    if u.replace then
      ByteLength(u.text) <= Transcript.MESSAGE_LIMIT && used - ByteLength(text) + ByteLength(u.text) <= Transcript.TRANSCRIPT_LIMIT
    else
      ByteLength(text) + ByteLength(u.text) <= Transcript.MESSAGE_LIMIT && used + ByteLength(u.text) <= Transcript.TRANSCRIPT_LIMIT
  }

  /** No other message is spelled like this one. */
  ghost predicate Unmistakable<K(!new)>(spell: K -> string, ms: seq<Transcript.Message<K>>, id: K) {
    forall i :: 0 <= i < |ms| && spell(ms[i].id) == spell(id) ==> ms[i].id == id
  }

  lemma ShownIndex<K(!new)>(spell: K -> string, ms: seq<Transcript.Message<K>>, id: K)
    requires Unmistakable(spell, ms, id)
    ensures LineIndex(Shown(spell, ms), spell(id)) == Transcript.IndexOf(ms, id)
  {
    var n := Transcript.IndexOf(ms, id);
    assert forall i :: 0 <= i < |ms| ==> Shown(spell, ms)[i].id == spell(ms[i].id);
    if n < |ms| { IndexIs(Shown(spell, ms), spell(id), n); }
  }

  /** An update of the agent's transcript is a write to the lines shown, complete messages included. */
  lemma ApplyUpdateIsShow<K(!new)>(spell: K -> string, ms: seq<Transcript.Message<K>>, u: Transcript.Update<K>)
    requires Fits(ms, u) && Unmistakable(spell, ms, u.id)
    ensures Shown(spell, Transcript.ApplyUpdate(ms, u)) == Put(Shown(spell, ms), Write(spell(u.id), u.text, u.replace))
  {
    var o := Transcript.Opened(ms, u);
    var n := Transcript.IndexOf(o, u.id);
    ShownIndex(spell, ms, u.id);
    Transcript.UsedAtLeast(o, n);
    Transcript.WithinBudgetNothingIsCut(o[n].text, Transcript.Used(o), u.text, u.replace);
    assert "" + u.text == u.text;
    hide Transcript.Written, Transcript.Used, Unmistakable;
    assert forall i :: 0 <= i < |ms| ==> o[i] == ms[..][i];
  }

  /** What a harness event is to the agent is what it is to a replay: the same message, text and kind of write. */
  lemma TextEventIsWrite(names: Id -> string, a: AgentMachine.Active, id: Option<string>, text: string, replace: bool)
    ensures var u := AgentMachine.TextUpdate(a, id, text, replace);
      var attempt := if a.attempt.Some? then Some(names(a.attempt.value)) else None;
      && u.owner == a.turnId
      && Write(Spelled(names, u.id), u.text, u.replace) == WriteOf(names(a.turnId), attempt, Said(id, text, replace))
  {
  }

  /** So a text event the agent receives shows what the comparison with replay says it shows. */
  lemma ReceivedIsShown(names: Id -> string, m: AgentMachine.Machine, id: Option<string>, text: string, replace: bool)
    requires m.active.Some? && !m.active.value.summary && !m.active.value.turn.Starting?
    requires var u := AgentMachine.TextUpdate(m.active.value, id, text, replace);
      Fits(m.mem.messages, u) && Unmistakable(k => Spelled(names, k), m.mem.messages, u.id)
    ensures var a := m.active.value;
      var attempt := if a.attempt.Some? then Some(names(a.attempt.value)) else None;
      var spell := (k: MessageId) => Spelled(names, k);
      Shown(spell, AgentMachine.Receiving(m, id, text, replace).mem.messages)
        == ShowAll(names(a.turnId), attempt, Shown(spell, m.mem.messages), [Said(id, text, replace)])
  {
    var a := m.active.value;
    var attempt := if a.attempt.Some? then Some(names(a.attempt.value)) else None;
    var spell := (k: MessageId) => Spelled(names, k);
    var u := AgentMachine.TextUpdate(a, id, text, replace);
    TextEventIsWrite(names, a, id, text, replace);
    hide Fits, Unmistakable, Spelled, Transcript.ApplyUpdate, AgentMachine.TextUpdate, SettleReceipt, LiveKey;
    ApplyUpdateIsShow(spell, m.mem.messages, u);
    OneWrite(names(a.turnId), attempt, Said(id, text, replace));
    TwoPuts(Shown(spell, m.mem.messages), WriteOf(names(a.turnId), attempt, Said(id, text, replace)), Write(spell(u.id), u.text, u.replace));
  }
}
