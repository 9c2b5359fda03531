/**
 * Balanced text wrapping (packages/gateway/src/collaborator-join.ts, `packGreedy` and `wrapToWidth`): greedy
 * packing is optimal, for any words at all, and the binary search over it finds the narrowest block of the
 * fewest rows.
 */
module Wrap {
  import opened Common

  /** One more word on a row; a row that is still blank takes the word as it is. */
  function Append(row: string, word: string): string {
    if row == "" then word else row + " " + word
  }

  /** The text of a row made of these words. */
  function RowText(words: seq<string>): string {
    if words == [] then "" else Append(RowText(words[..|words| - 1]), words[|words| - 1])
  }

  /** Words dealt out to rows: those that are full, and the one being filled. */
  datatype Packing = Packing(full: seq<seq<string>>, open_: seq<string>)

  function Place(p: Packing, word: string, width: int): Packing {
    if RowText(p.open_) != "" && |Append(RowText(p.open_), word)| > width
    then Packing(p.full + [p.open_], [word])
    else Packing(p.full, p.open_ + [word])
  }

  function Pack(words: seq<string>, width: int): Packing {
    if words == [] then Packing([], []) else Place(Pack(words[..|words| - 1], width), words[|words| - 1], width)
  }

  function Flat(groups: seq<seq<string>>): seq<string> {
    if groups == [] then [] else Flat(groups[..|groups| - 1]) + groups[|groups| - 1]
  }

  /** The texts of the rows that are not blank. */
  function Texts(groups: seq<seq<string>>): seq<string> {
    if groups == [] then []
    else
      var last := RowText(groups[|groups| - 1]);
      Texts(groups[..|groups| - 1]) + if last == "" then [] else [last]
  }

  function Groups(p: Packing): seq<seq<string>> {
    p.full + [p.open_]
  }

  function Rows(words: seq<string>, width: int): seq<string> {
    Texts(Groups(Pack(words, width)))
  }

  /** packGreedy */
  method PackGreedy(words: seq<string>, width: int) returns (rows: seq<string>)
    ensures rows == Rows(words, width)
  {
    hide *;
    PackNone(words, width);
    rows := [];
    var current := "";
    var i := 0;
    while i < |words|
      invariant 0 <= i <= |words|
      invariant current == RowText(Pack(words[..i], width).open_)
      invariant rows == Texts(Pack(words[..i], width).full)
    {
      PackOne(words, width, i);
      var word := words[i];
      var candidate := if current == "" then word else current + " " + word;
      if current != "" && |candidate| > width {
        rows := rows + [current];
        current := word;
      } else {
        current := candidate;
      }
      i := i + 1;
    }
    assert words[..i] == words;
    RowsOf(words, width);
    if current != "" { rows := rows + [current]; }
  }

  lemma PackNone(words: seq<string>, width: int)
    ensures RowText(Pack(words[..0], width).open_) == "" && Texts(Pack(words[..0], width).full) == []
  {
  }

  lemma RowsOf(words: seq<string>, width: int)
    ensures var p := Pack(words, width);
      Rows(words, width) == Texts(p.full) + if RowText(p.open_) == "" then [] else [RowText(p.open_)]
  {
    TextsMore(Pack(words, width).full, Pack(words, width).open_);
  }

  lemma PackOne(words: seq<string>, width: int, i: nat)
    requires i < |words|
    ensures var p, q := Pack(words[..i], width), Pack(words[..i + 1], width);
      var row := RowText(p.open_);
      var candidate := if row == "" then words[i] else row + " " + words[i];
      if row != "" && |candidate| > width
      then RowText(q.open_) == words[i] && Texts(q.full) == Texts(p.full) + [row]
      else RowText(q.open_) == candidate && q.full == p.full
  {
    var p := Pack(words[..i], width);
    assert words[..i + 1][..i] == words[..i];
    assert (p.open_ + [words[i]])[..|p.open_|] == p.open_;
    assert (p.full + [p.open_])[..|p.full|] == p.full;
    assert RowText([words[i]]) == Append(RowText([]), words[i]);
  }

  // ---- a packing is legal ----

  /** A row fits, or is one word that no row could hold, after blanks that take no room. */
  predicate Legal(group: seq<string>, width: int) {
    |RowText(group)| <= width || group == [] || RowText(group[..|group| - 1]) == ""
  }

  predicate AllLegal(groups: seq<seq<string>>, width: int) {
    forall i :: 0 <= i < |groups| ==> Legal(groups[i], width)
  }

  lemma FlatMore(groups: seq<seq<string>>, group: seq<string>)
    ensures Flat(groups + [group]) == Flat(groups) + group
  {
    assert (groups + [group])[..|groups|] == groups;
  }

  lemma TextsMore(groups: seq<seq<string>>, group: seq<string>)
    ensures Texts(groups + [group]) == Texts(groups) + if RowText(group) == "" then [] else [RowText(group)]
  {
    assert (groups + [group])[..|groups|] == groups;
  }

  lemma PackMore(words: seq<string>, width: int)
    requires words != []
    ensures Pack(words, width) == Place(Pack(words[..|words| - 1], width), words[|words| - 1], width)
  {
  }

  lemma PlaceKeepsWords(p: Packing, word: string, width: int)
    ensures Flat(Groups(Place(p, word, width))) == Flat(Groups(p)) + [word]
  {
    FlatMore(p.full, p.open_);
    FlatMore(p.full, p.open_ + [word]);
    FlatMore(p.full + [p.open_], [word]);
  }

  lemma PlaceIsLegal(p: Packing, word: string, width: int)
    requires AllLegal(Groups(p), width)
    ensures AllLegal(Groups(Place(p, word, width)), width)
  {
    hide AllLegal, RowText;
    var q := Place(p, word, width);
    LegalGroups(p.full, p.open_, width);
    if q.full == p.full {
      assert q.open_[..|q.open_| - 1] == p.open_;
      RowTextMore(p.open_, word);
      LegalGroups(p.full, q.open_, width);
    } else {
      assert [word][..0] == [];
      NoText();
      LegalGroups(p.full, p.open_, width);
      LegalGroups(p.full + [p.open_], [word], width);
    }
  }

  lemma NoText()
    ensures RowText([]) == ""
  {
  }

  lemma LegalGroups(full: seq<seq<string>>, open_: seq<string>, width: int)
    ensures AllLegal(full + [open_], width) <==> AllLegal(full, width) && Legal(open_, width)
  {
    var all := full + [open_];
    assert forall i :: 0 <= i < |full| ==> all[i] == full[i];
    assert all[|full|] == open_;
  }

  lemma NothingPacked(width: int)
    ensures Flat(Groups(Pack([], width))) == [] && AllLegal(Groups(Pack([], width)), width)
    ensures Ahead(Pack([], width), [], []) && Flat([]) == []
  {
    FlatMore([], []);
  }

  /** Greedy packing keeps every word, in order, on legal rows. */
  lemma {:induction false} PackIsLegal(words: seq<string>, width: int)
    ensures Flat(Groups(Pack(words, width))) == words && AllLegal(Groups(Pack(words, width)), width)
  {
    hide *;
    if words == [] {
      NothingPacked(width);
    } else {
      var n := |words| - 1;
      PackIsLegal(words[..n], width);
      PackMore(words, width);
      PlaceKeepsWords(Pack(words[..n], width), words[n], width);
      PlaceIsLegal(Pack(words[..n], width), words[n], width);
      assert words == words[..n] + [words[n]];
    }
  }

  // ---- greedy is optimal ----

  /** Rows so far, counting the open one unless it is blank. */
  function Count(full: seq<seq<string>>, open_: seq<string>): nat {
    |Texts(full)| + if RowText(open_) == "" then 0 else 1
  }

  /** One packing of some words is at least as well placed as another: fewer rows, or as many with no less
      room on the open one. A blank open row has no room, for its first word will cost a row. */
  predicate Ahead(p: Packing, full: seq<seq<string>>, open_: seq<string>) {
    || Count(p.full, p.open_) < Count(full, open_)
    || (Count(p.full, p.open_) == Count(full, open_)
        && (RowText(open_) == "" || (RowText(p.open_) != "" && |RowText(p.open_)| <= |RowText(open_)|)))
  }

  lemma RowTextMore(group: seq<string>, word: string)
    ensures RowText(group + [word]) == Append(RowText(group), word)
  {
    assert (group + [word])[..|group|] == group;
  }

  lemma LegalBefore(group: seq<string>, width: int)
    requires group != [] && Legal(group, width)
    ensures Legal(group[..|group| - 1], width)
    ensures RowText(group[..|group| - 1]) != "" ==> |RowText(group)| <= width
  {
    var before := group[..|group| - 1];
    if RowText(before) != "" {
      assert |RowText(before)| < |RowText(group)|;
    } else if before != [] {
      assert RowText(before[..|before| - 1]) == "" || |RowText(before)| > 0;
    }
  }

  /** Placing the next word greedily stays ahead of continuing the other packing's row in any legal way. */
  lemma PlaceStaysAhead(p: Packing, full: seq<seq<string>>, open_: seq<string>, word: string, width: int)
    requires Ahead(p, full, open_)
    requires RowText(open_) != "" ==> |Append(RowText(open_), word)| <= width
    ensures Ahead(Place(p, word, width), full, open_ + [word])
  {
    RowTextMore(open_, word);
    RowTextMore(p.open_, word);
    RowTextMore([], word);
    assert [] + [word] == [word];
    TextsMore(p.full, p.open_);
  }

  lemma {:induction false} GreedyStaysAhead(full: seq<seq<string>>, open_: seq<string>, width: int)
    requires AllLegal(full, width) && Legal(open_, width)
    ensures Ahead(Pack(Flat(full) + open_, width), full, open_)
    decreases |full|, |open_|
  {
    if open_ != [] {
      LegalBefore(open_, width);
      hide *;
      var n := |open_| - 1;
      GreedyStaysAhead(full, open_[..n], width);
      OneMoreWord(full, open_, width);
    } else if full != [] {
      assert full == full[..|full| - 1] + [full[|full| - 1]];
      LegalGroups(full[..|full| - 1], full[|full| - 1], width);
      hide *;
      GreedyStaysAhead(full[..|full| - 1], full[|full| - 1], width);
      OneMoreRow(full, width);
    } else {
      hide *;
      NothingPacked(width);
      assert Flat(full) + open_ == [];
    }
  }

  lemma OneMoreWord(full: seq<seq<string>>, open_: seq<string>, width: int)
    requires open_ != [] && Legal(open_, width)
    requires Ahead(Pack(Flat(full) + open_[..|open_| - 1], width), full, open_[..|open_| - 1])
    ensures Ahead(Pack(Flat(full) + open_, width), full, open_)
  {
    hide *;
    var n := |open_| - 1;
    LegalBefore(open_, width);
    var words := Flat(full) + open_;
    assert words[..|words| - 1] == Flat(full) + open_[..n] && words[|words| - 1] == open_[n];
    assert open_ == open_[..n] + [open_[n]];
    RowTextMore(open_[..n], open_[n]);
    PackMore(words, width);
    PlaceStaysAhead(Pack(words[..|words| - 1], width), full, open_[..n], open_[n], width);
  }

  /** Closing a row gives the other packing nothing. */
  lemma OneMoreRow(full: seq<seq<string>>, width: int)
    requires full != []
    requires Ahead(Pack(Flat(full[..|full| - 1]) + full[|full| - 1], width), full[..|full| - 1], full[|full| - 1])
    ensures Ahead(Pack(Flat(full) + [], width), full, [])
  {
    hide Pack, RowText, Flat, Texts;
    var n := |full| - 1;
    assert full == full[..n] + [full[n]];
    FlatMore(full[..n], full[n]);
    TextsMore(full[..n], full[n]);
    assert Flat(full) + [] == Flat(full);
    NoText();
  }

  /** Greedy packing uses the fewest rows of any packing that keeps the words in order on legal rows, whatever
      the words, blank ones and ones wider than the width included. */
  lemma {:induction false} GreedyIsOptimal(groups: seq<seq<string>>, width: int)
    requires AllLegal(groups, width)
    ensures |Rows(Flat(groups), width)| <= |Texts(groups)|
  {
    GreedyStaysAhead(groups, [], width);
    assert Flat(groups) + [] == Flat(groups);
    var p := Pack(Flat(groups), width);
    TextsMore(p.full, p.open_);
  }

  /** More width never takes more rows. */
  lemma WiderIsNoLonger(words: seq<string>, narrow: int, wide: int)
    requires narrow <= wide
    ensures |Rows(words, wide)| <= |Rows(words, narrow)|
  {
    PackIsLegal(words, narrow);
    var groups := Groups(Pack(words, narrow));
    assert AllLegal(groups, wide) by {
      forall i | 0 <= i < |groups| ensures Legal(groups[i], wide) { assert Legal(groups[i], narrow); }
    }
    GreedyIsOptimal(groups, wide);
  }

  // ---- nothing but spaces moves ----

  function JoinRows(rows: seq<string>): string {
    if rows == [] then ""
    else if |rows| == 1 then rows[0]
    else JoinRows(rows[..|rows| - 1]) + " " + rows[|rows| - 1]
  }

  /** Words without blank ones come back out exactly as they went in. */
  lemma {:induction false} RowsSpellTheLine(words: seq<string>, width: int)
    requires "" !in words
    ensures JoinRows(Rows(words, width)) == JoinRows(words)
    ensures words != [] ==> RowText(Pack(words, width).open_) != ""
    ensures words == [] ==> Rows(words, width) == []
  {
    if words == [] {
      TextsMore([], []);
    } else {
      var n := |words| - 1;
      RowsSpellTheLine(words[..n], width);
      var p, q := Pack(words[..n], width), Pack(words, width);
      TextsMore(p.full, p.open_);
      TextsMore(q.full, q.open_);
      RowTextMore(p.open_, words[n]);
      RowTextMore([], words[n]);
      assert [] + [words[n]] == [words[n]];
      assert Groups(p) == p.full + [p.open_] && Groups(q) == q.full + [q.open_];
      if n == 0 {
        assert Rows(words, width) == [words[0]];
      } else {
        JoinGrows(Texts(p.full), RowText(p.open_), words[n]);
        assert JoinRows(words) == JoinRows(words[..n]) + " " + words[n];
      }
    }
  }

  lemma JoinGrows(rows: seq<string>, row: string, word: string)
    ensures JoinRows(rows + [row] + [word]) == JoinRows(rows + [row]) + " " + word
    ensures JoinRows(rows + [row + " " + word]) == JoinRows(rows + [row]) + " " + word
  {
    assert (rows + [row] + [word])[..|rows| + 1] == rows + [row];
    assert (rows + [row])[..|rows|] == rows && (rows + [row + " " + word])[..|rows|] == rows;
    assert rows != [] ==> JoinRows(rows) + " " + (row + " " + word) == JoinRows(rows) + " " + row + " " + word;
  }

  // ---- the balanced wrap ----

  function Widest(words: seq<string>): nat {
    if words == [] then 0
    else
      var rest := Widest(words[..|words| - 1]);
      if |words[|words| - 1]| > rest then |words[|words| - 1]| else rest
  }

  /** line.split(" ") */
  function Words(line: string): (words: seq<string>)
    ensures words != []
  {
    if line == "" then [""]
    else
      var rest := Words(line[1..]);
      if line[0] == ' ' then [""] + rest else [[line[0]] + rest[0]] + rest[1..]
  }

  /** Math.max over the words' lengths */
  method WidestWord(words: seq<string>) returns (widest: nat)
    ensures widest == Widest(words)
  {
    widest := 0;
    var i := 0;
    while i < |words|
      invariant 0 <= i <= |words|
      invariant widest == Widest(words[..i])
    {
      assert words[..i + 1][..i] == words[..i];
      if |words[i]| > widest { widest := |words[i]|; }
      i := i + 1;
    }
    assert words[..i] == words;
  }

  /** The width the search settles on: the least one, between the widest word and the limit, that takes no
      more rows than the limit does; the limit itself if a word is wider than that. */
  ghost predicate Settled(words: seq<string>, width: int, best: int) {
    if Widest(words) > width then best == width
    else
      && Widest(words) <= best <= width
      && |Rows(words, best)| <= |Rows(words, width)|
      && forall v :: Widest(words) <= v < best ==> |Rows(words, v)| > |Rows(words, width)|
  }

  /** The binary search, over a row count that never rises with the width. */
  method Tighten(words: seq<string>, width: int) returns (best: int)
    ensures Settled(words, width, best)
  {
    var all := PackGreedy(words, width);
    var minRows := |all|;
    var low: int := WidestWord(words);
    var high := width;
    best := width;
    ghost var widest := low;
    while low <= high
      invariant widest <= low
      invariant high <= best <= width && (high < best ==> high == best - 1)
      invariant widest <= width ==> widest <= best && low <= best
      invariant high < best || best == width == high
      invariant best < width ==> |Rows(words, best)| <= minRows
      invariant widest > width ==> best == width
      invariant forall v :: widest <= v < low ==> |Rows(words, v)| > minRows
      decreases high - low + 1
    {
      hide Rows;
      var mid := (low + high) / 2;
      var rows := PackGreedy(words, mid);
      if |rows| <= minRows {
        best := mid;
        high := mid - 1;
      } else {
        forall v | widest <= v <= mid ensures |Rows(words, v)| > minRows { WiderIsNoLonger(words, v, mid); }
        low := mid + 1;
      }
    }
  }

  /** wrapToWidth */
  method WrapToWidth(line: string, width: int) returns (rows: seq<string>, ghost best: int)
    ensures |line| <= width ==> rows == [line]
    ensures |line| > width ==> Settled(Words(line), width, best) && rows == Rows(Words(line), best)
    ensures "" !in Words(line) ==> JoinRows(rows) == line
    ensures Widest(Words(line)) <= width ==> forall i :: 0 <= i < |rows| ==> |rows[i]| <= width
  {
    hide Rows, Words, JoinRows, Widest;
    WordsSpellTheLine(line);
    OneRow(line);
    if |line| <= width {
      best := width;
      return [line], best;
    }
    var words := Words(line);
    var settled := Tighten(words, width);
    rows := PackGreedy(words, settled);
    best := settled;
    if "" !in words { RowsSpellTheLine(words, settled); }
    if Widest(words) <= width { RowsFit(words, settled); }
  }

  lemma OneRow(line: string)
    ensures JoinRows([line]) == line
  {
  }

  lemma {:induction false} JoinFront(word: string, rest: seq<string>)
    requires rest != []
    ensures JoinRows([word] + rest) == word + " " + JoinRows(rest)
  {
    var n := |rest| - 1;
    assert ([word] + rest)[..n + 1] == [word] + rest[..n];
    if n == 0 {
      assert [word] + [] == [word];
    } else {
      JoinFront(word, rest[..n]);
    }
  }

  /** Splitting at spaces and joining with spaces are inverse. */
  lemma {:induction false} WordsSpellTheLine(line: string)
    ensures JoinRows(Words(line)) == line
  {
    if line != "" {
      WordsSpellTheLine(line[1..]);
      var rest := Words(line[1..]);
      if line[0] == ' ' {
        JoinFront("", rest);
      } else if |rest| == 1 {
        assert Words(line) == [[line[0]] + rest[0]];
      } else {
        assert rest == [rest[0]] + rest[1..];
        JoinFront(rest[0], rest[1..]);
        JoinFront([line[0]] + rest[0], rest[1..]);
      }
    }
  }

  lemma {:induction false} WidestIsThere(words: seq<string>, i: nat)
    requires i < |words|
    ensures |words[i]| <= Widest(words)
  {
    var n := |words| - 1;
    if i < n {
      assert words[..n][i] == words[i];
      WidestIsThere(words[..n], i);
    }
  }

  lemma {:induction false} RowHoldsItsWords(group: seq<string>, i: nat)
    requires i < |group|
    ensures |group[i]| <= |RowText(group)|
  {
    var n := |group| - 1;
    if i < n {
      assert group[..n][i] == group[i];
      RowHoldsItsWords(group[..n], i);
    }
  }

  lemma {:induction false} WidestIsOnARow(groups: seq<seq<string>>, v: int)
    requires 0 <= v && forall i :: 0 <= i < |groups| ==> |RowText(groups[i])| <= v
    ensures Widest(Flat(groups)) <= v
  {
    if groups != [] {
      var n := |groups| - 1;
      WidestIsOnARow(groups[..n], v);
      WidestOfBoth(Flat(groups[..n]), groups[n], v);
    }
  }

  lemma {:induction false} WidestOfBoth(a: seq<string>, group: seq<string>, v: int)
    requires Widest(a) <= v && |RowText(group)| <= v
    ensures Widest(a + group) <= v
  {
    if group == [] {
      assert a + group == a;
    } else {
      var n := |group| - 1;
      RowHoldsItsWords(group, n);
      assert |RowText(group[..n])| <= |RowText(group)|;
      WidestOfBoth(a, group[..n], v);
      assert (a + group)[..|a + group| - 1] == a + group[..n];
    }
  }

  /** The block is as short as the width allows and, among the blocks that short, as narrow as can be: any way
      of putting the words in order on that few rows needs a row at least as wide. */
  lemma NarrowestOfTheShortest(words: seq<string>, width: int, best: int, groups: seq<seq<string>>, v: int)
    requires Settled(words, width, best) && Widest(words) <= width
    requires Flat(groups) == words && |Texts(groups)| <= |Rows(words, width)|
    requires 0 <= v && forall i :: 0 <= i < |groups| ==> |RowText(groups[i])| <= v
    ensures |Rows(words, best)| == |Rows(words, width)| && best <= v
  {
    WiderIsNoLonger(words, best, width);
    WidestIsOnARow(groups, v);
    GreedyIsOptimal(groups, v);
  }

  /** No row of the block is wider than the width settled on. */
  lemma {:induction false} RowsFit(words: seq<string>, width: int)
    requires Widest(words) <= width
    ensures forall i :: 0 <= i < |Rows(words, width)| ==> |Rows(words, width)[i]| <= width
  {
    PackIsLegal(words, width);
    var groups := Groups(Pack(words, width));
    forall i | 0 <= i < |groups| ensures |RowText(groups[i])| <= width {
      OverlongIsOneWord(groups, width, i);
    }
    TextsFit(groups, width);
  }

  lemma OverlongIsOneWord(groups: seq<seq<string>>, width: int, i: nat)
    requires i < |groups| && AllLegal(groups, width) && Widest(Flat(groups)) <= width && 0 <= width
    ensures |RowText(groups[i])| <= width
  {
    var g := groups[i];
    assert Legal(g, width);
    if g != [] && RowText(g[..|g| - 1]) == "" {
      var k := WordIsInFlat(groups, i, |g| - 1);
      WidestIsThere(Flat(groups), k);
    }
  }

  lemma {:induction false} WordIsInFlat(groups: seq<seq<string>>, i: nat, j: nat) returns (k: nat)
    requires i < |groups| && j < |groups[i]|
    ensures k < |Flat(groups)| && Flat(groups)[k] == groups[i][j]
    decreases |groups|
  {
    var n := |groups| - 1;
    if i == n {
      k := |Flat(groups[..n])| + j;
    } else {
      k := WordIsInFlat(groups[..n], i, j);
    }
  }

  lemma {:induction false} TextsFit(groups: seq<seq<string>>, width: int)
    requires forall i :: 0 <= i < |groups| ==> |RowText(groups[i])| <= width
    ensures forall i :: 0 <= i < |Texts(groups)| ==> |Texts(groups)[i]| <= width
  {
    if groups != [] { TextsFit(groups[..|groups| - 1], width); }
  }
}
