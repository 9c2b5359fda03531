/**
 * Crash refinement of the append-log store: at every point of every run, what a restart finds is what a
 * plain map holds, the interrupted operation having happened entirely or not at all; and the one crash
 * point for which this is false.
 */
module LogCrash {
  import opened Common
  import opened LogText
  import opened LogStore

  // ---- one file changes ----

  /** Replacing one log, when no other log holds a thread of that name. */
  lemma OneFile(c: Codec, disk: Disk, p: Path, text: string)
    requires DiskOk(c, disk)
    requires FileOk(c, disk[p := text], p)
    requires forall q :: Readable(c, disk, q) && q.id == p.id ==> q == p
    ensures DiskOk(c, disk[p := text])
    ensures Read(c, text).Some? ==> Found(c, disk[p := text]) == Found(c, disk)[p.id := Read(c, text).value.record]
  {
    hide Read, Tidy, Found;
    var now := disk[p := text];
    forall q | q in now ensures FileOk(c, now, q) {
      if q != p { assert FileOk(c, disk, q); }
    }
    forall q, r | Readable(c, now, q) && Readable(c, now, r) && q.id == r.id ensures q == r {
      if q != p { assert Readable(c, disk, q); }
      if r != p { assert Readable(c, disk, r); }
    }
    if Read(c, text).Some? {
      var f, g := Found(c, now), Found(c, disk)[p.id := Read(c, text).value.record];
      assert Readable(c, now, p);
      forall id ensures id in f <==> id in g {
        if id in f {
          var q :| Readable(c, now, q) && q.id == id;
          if q != p { assert Readable(c, disk, q); }
        }
        if id in g && id != p.id {
          var q :| Readable(c, disk, q) && q.id == id;
          assert Readable(c, now, q);
        }
      }
      forall id | id in f ensures f[id] == g[id] {
        if id != p.id {
          var q :| Readable(c, disk, q) && q.id == id;
          assert Readable(c, now, q);
        }
      }
    }
  }

  /** The store's own log of a thread, if it has one, is the only one. */
  lemma OnlyFile(c: Codec, s: Store, r: Record, q: Path)
    requires StoreOk(c, s) && Readable(c, s.disk, q) && q.id == r.id
    ensures FileOf(s, r) == q
  {
    hide Read, Tidy;
    assert Known(c, s, q);
  }

  lemma FileIsNamed(c: Codec, s: Store, r: Record)
    requires StoreOk(c, s)
    ensures FileOf(s, r).id == r.id
    ensures r.id in s.files ==> Readable(c, s.disk, FileOf(s, r)) && Known(c, s, FileOf(s, r)) && FileOk(c, s.disk, FileOf(s, r))
  {
    hide Read, Tidy;
    if r.id in s.files { assert Backed(c, s, r.id); }
  }

  function Install(s: Store, r: Record, text: string, lines: nat): Store {
    var p := FileOf(s, r);
    Store(s.disk[p := text], s.sessions[r.id := r], s.files[r.id := p], s.counts[r.id := lines])
  }

  lemma InstalledDisk(c: Codec, s: Store, r: Record, text: string, lines: nat)
    requires StoreOk(c, s) && Tidy(text) && lines <= COMPACT_THRESHOLD
    requires Read(c, text) == Some(Reading(WithHistory(r), lines, false))
    ensures DiskOk(c, Install(s, r, text, lines).disk)
    ensures forall q :: Readable(c, s.disk, q) && q.id == r.id ==> q == FileOf(s, r)
  {
    hide Read, Tidy, Found;
    var p := FileOf(s, r);
    FileIsNamed(c, s, r);
    forall q | Readable(c, s.disk, q) && q.id == r.id ensures q == p { OnlyFile(c, s, r, q); }
    assert FileOk(c, s.disk[p := text], p);
    OneFile(c, s.disk, p, text);
  }

  /** Installing a whole, current log for one thread keeps the store in order. */
  lemma Installed(c: Codec, s: Store, r: Record, text: string, lines: nat)
    requires StoreOk(c, s) && Tidy(text) && lines <= COMPACT_THRESHOLD
    requires Read(c, text) == Some(Reading(WithHistory(r), lines, false))
    ensures StoreOk(c, Install(s, r, text, lines))
  {
    hide Read, Tidy, Found, DiskOk;
    InstalledDisk(c, s, r, text, lines);
    InstalledIsKnown(c, s, r, text, lines);
    hide Known;
    var p := FileOf(s, r);
    var t := Install(s, r, text, lines);
    FileIsNamed(c, s, r);
    forall id | id in t.sessions ensures Backed(c, t, id) {
      if id != r.id { assert Backed(c, s, id) && s.files[id] != p; }
    }
  }

  lemma InstalledIsKnown(c: Codec, s: Store, r: Record, text: string, lines: nat)
    requires StoreOk(c, s)
    requires Read(c, text) == Some(Reading(WithHistory(r), lines, false))
    requires forall q :: Readable(c, s.disk, q) && q.id == r.id ==> q == FileOf(s, r)
    ensures forall q :: q in Install(s, r, text, lines).disk ==> Known(c, Install(s, r, text, lines), q)
  {
    hide Read, Tidy, Found, DiskOk, Backed;
    var p := FileOf(s, r);
    var t := Install(s, r, text, lines);
    FileIsNamed(c, s, r);
    forall q | q in t.disk ensures Known(c, t, q) {
      if q != p { assert Known(c, s, q); }
    }
  }

  lemma WholeReads(c: Codec, r: Record)
    requires Lawful(c)
    ensures Read(c, c.enc(r) + "\n") == Some(Reading(WithHistory(r), 1, false)) && Tidy(c.enc(r) + "\n")
  {
    var line := c.enc(r) + "\n";
    CutLines(c, r, |line|);
    AppendReads(c, "", r, |line|);
    assert "" + Cut(c, r, |line|) == line;
    NoLine();
    assert Terminated(line);
  }

  // ---- upsert ----

  /** An append would fuse with a log whose last newline is missing. A caller can look at the file. */
  predicate Fuses(s: Store, r: Record) {
    !Compacts(s, r) && !Terminated(TextOf(s.disk, s.files[r.id]))
  }

  /** What the store knows of a log it can append to. */
  lemma TheFile(c: Codec, s: Store, id: string)
    requires StoreOk(c, s) && id in s.files
    ensures id in s.sessions && id in s.counts && s.counts[id] <= COMPACT_THRESHOLD
    ensures var p := s.files[id];
      p.id == id && p in s.disk && Tidy(s.disk[p])
      && Read(c, s.disk[p]) == Some(Reading(WithHistory(s.sessions[id]), s.counts[id], false))
      && WithHistory(s.sessions[id]).id == id
  {
    hide Read, Tidy;
    assert Backed(c, s, id);
    assert FileOk(c, s.disk, s.files[id]);
  }

  lemma WholeIsOk(c: Codec, s: Store, r: Record)
    requires Lawful(c) && StoreOk(c, s) && Compacts(s, r)
    ensures StoreOk(c, Upsert(c, s, r))
  {
    WholeReads(c, r);
    Installed(c, s, r, c.enc(r) + "\n", 1);
  }

  lemma AppendIsOk(c: Codec, s: Store, r: Record)
    requires Lawful(c) && StoreOk(c, s) && !Compacts(s, r) && !Fuses(s, r)
    ensures StoreOk(c, Upsert(c, s, r))
  {
    hide Read, Tidy, Lawful, StoreOk;
    TheFile(c, s, r.id);
    var text := s.disk[s.files[r.id]];
    AppendIsReadExactly(c, text, r);
    assert text + (c.enc(r) + "\n") == text + c.enc(r) + "\n";
    EndedIsTidy(text + c.enc(r), c);
    Installed(c, s, r, text + (c.enc(r) + "\n"), s.counts[r.id] + 1);
    assert s.files[r.id := FileOf(s, r)] == s.files;
  }

  lemma FusedIsNotOk(c: Codec, s: Store, r: Record)
    requires Lawful(c) && StoreOk(c, s) && Fuses(s, r)
    ensures !StoreOk(c, Upsert(c, s, r))
  {
    hide Read, Tidy, Lawful, StoreOk;
    TheFile(c, s, r.id);
    var p := s.files[r.id];
    var text := s.disk[p];
    AppendIsReadExactly(c, text, r);
    assert text + (c.enc(r) + "\n") == text + c.enc(r) + "\n";
    var t := Upsert(c, s, r);
    if StoreOk(c, t) {
      TheFile(c, t, r.id);
    }
  }

  /** Exactly the fusing upsert breaks the store; any other leaves memory and disk agreeing on the record. */
  lemma UpsertExactly(c: Codec, s: Store, r: Record)
    requires Lawful(c) && StoreOk(c, s)
    ensures StoreOk(c, Upsert(c, s, r)) <==> !Fuses(s, r)
    ensures Upsert(c, s, r).sessions == s.sessions[r.id := r]
  {
    hide Lawful, StoreOk;
    if Compacts(s, r) {
      WholeIsOk(c, s, r);
    } else if Fuses(s, r) {
      FusedIsNotOk(c, s, r);
    } else {
      AppendIsOk(c, s, r);
    }
  }

  lemma EndedIsTidy(text: string, c: Codec)
    ensures Terminated(text + "\n") && Tidy(text + "\n")
  {
  }

  /** What fusion costs: the next restart reads neither the appended record nor the one before it. */
  lemma {:induction false} FusionLosesBoth(c: Codec, s: Store, r: Record)
    requires Lawful(c) && StoreOk(c, s) && Fuses(s, r)
    ensures var p := s.files[r.id];
      var before := ReadLines(c, Lines(Head(s.disk[p])));
      && Read(c, s.disk[p]) == Some(Reading(WithHistory(s.sessions[r.id]), |Lines(Head(s.disk[p]))| + 1, false))
      && Read(c, Upsert(c, s, r).disk[p]) ==
           if before.Some? then Some(Reading(before.value.record, |Lines(Head(s.disk[p]))| + 1, true)) else None
  {
    FileIsNamed(c, s, r);
    var p := s.files[r.id];
    var text := s.disk[p];
    UntornTail(c, text);
    FusedAppendReads(c, text, r, |c.enc(r)| + 1);
    CutLines(c, r, |c.enc(r)| + 1);
    ReadOneMore(c, Lines(Head(text)), Tail(text));
  }

  // ---- delete ----

  lemma DiskWithout(c: Codec, disk: Disk, p: Path)
    requires DiskOk(c, disk)
    ensures DiskOk(c, disk - {p})
  {
    hide Read, Tidy;
    var now := disk - {p};
    forall q | q in now ensures FileOk(c, now, q) { assert FileOk(c, disk, q); }
    forall q, r | Readable(c, now, q) && Readable(c, now, r) && q.id == r.id ensures q == r {
      assert Readable(c, disk, q) && Readable(c, disk, r);
    }
  }

  lemma {:induction false} DeleteIsOk(c: Codec, s: Store, id: string)
    requires StoreOk(c, s)
    ensures StoreOk(c, Delete(s, id)) && Delete(s, id).sessions == s.sessions - {id}
  {
    hide Read, Tidy;
    if id in s.sessions {
      assert Backed(c, s, id);
      DiskWithout(c, s.disk, s.files[id]);
      DeletedIsKnown(c, s, id);
      hide DiskOk, Known;
      forall k | k in Delete(s, id).sessions ensures Backed(c, Delete(s, id), k) {
        assert Backed(c, s, k) && s.files[k] != s.files[id];
      }
    } else {
      assert s.sessions - {id} == s.sessions;
    }
  }

  lemma DeletedIsKnown(c: Codec, s: Store, id: string)
    requires StoreOk(c, s) && id in s.sessions
    ensures forall p :: p in Delete(s, id).disk ==> Known(c, Delete(s, id), p)
  {
    hide Read, Tidy, DiskOk;
    assert Backed(c, s, id);
    forall p | p in Delete(s, id).disk ensures Known(c, Delete(s, id), p) {
      assert Known(c, s, p);
    }
  }

  // ---- crashes ----

  function Applied(m: map<string, Record>, op: Op): map<string, Record> {
    match op
    case Put(r) => m[r.id := r]
    case Remove(id) => m - {id}
  }

  predicate FusesWith(s: Store, op: Op) {
    op.Put? && Fuses(s, op.record)
  }

  lemma DoIsOk(c: Codec, s: Store, op: Op)
    requires Lawful(c) && StoreOk(c, s)
    ensures StoreOk(c, Do(c, s, op)) <==> !FusesWith(s, op)
    ensures Do(c, s, op).sessions == Applied(s.sessions, op)
  {
    match op
    case Put(r) => UpsertExactly(c, s, r);
    case Remove(id) => DeleteIsOk(c, s, id);
  }

  lemma HistoriesPut(m: map<string, Record>, r: Record)
    ensures Histories(m[r.id := r]) == Histories(m)[r.id := WithHistory(r)]
  {
  }

  lemma SameDisk(c: Codec, s: Store)
    requires StoreOk(c, s)
    ensures DiskOk(c, s.disk) && Found(c, s.disk) == Histories(s.sessions)
  {
    MemoryIsDisk(c, s);
  }

  /** A cut append: all of the record or none of it. */
  lemma CutAppend(c: Codec, s: Store, r: Record, k: nat)
    requires Lawful(c) && StoreOk(c, s) && !Compacts(s, r) && !Fuses(s, r)
    ensures var d := Appended(c, s.disk, s.files[r.id], r, k);
      && DiskOk(c, d)
      && Found(c, d) == Histories(if k >= |c.enc(r)| then s.sessions[r.id := r] else s.sessions)
  {
    hide Read, Tidy, Found, Lawful, Cut, StoreOk, DiskOk, Histories, WithHistory;
    TheFile(c, s, r.id);
    var text := s.disk[s.files[r.id]];
    var now := text + Cut(c, r, k);
    CutAppendReads(c, text, r, k, s.counts[r.id]);
    CutIsTidy(c, text, r, k);
    CutFile(c, s, r.id, now);
    MemoryIsDisk(c, s);
    HistoriesPut(s.sessions, r);
    HistoryOf(s.sessions, r.id);
    var known := Histories(s.sessions);
    assert known[r.id := WithHistory(s.sessions[r.id])] == known;
    assert Appended(c, s.disk, s.files[r.id], r, k) == s.disk[s.files[r.id] := now];
  }

  lemma CutAppendReads(c: Codec, text: string, r: Record, k: nat, lines: nat)
    requires Lawful(c) && Terminated(text) && Read(c, text).Some? && Read(c, text).value.lines == lines < COMPACT_THRESHOLD
    ensures var now := Read(c, text + Cut(c, r, k));
      && now.Some? && now.value.lines <= COMPACT_THRESHOLD
      && now.value.record == if k >= |c.enc(r)| then WithHistory(r) else Read(c, text).value.record
    ensures WithHistory(r).id == r.id
  {
    hide Lines, Cut, Lawful;
    LawfulRecord(c, r);
    AppendReads(c, text, r, k);
  }

  lemma HistoryOf(m: map<string, Record>, id: string)
    requires id in m
    ensures id in Histories(m) && Histories(m)[id] == WithHistory(m[id])
  {
  }

  /** Another text with a readable record of the same thread. */
  lemma CutFile(c: Codec, s: Store, id: string, now: string)
    requires StoreOk(c, s) && id in s.files && Tidy(now) && Read(c, now).Some?
    requires Read(c, now).value.record.id == id && Read(c, now).value.lines <= COMPACT_THRESHOLD
    ensures var d := s.disk[s.files[id] := now];
      DiskOk(c, d) && Found(c, d) == Found(c, s.disk)[id := Read(c, now).value.record]
  {
    hide Read, Tidy;
    var p := s.files[id];
    assert Backed(c, s, id);
    assert FileOk(c, s.disk[p := now], p);
    forall q | Readable(c, s.disk, q) && q.id == p.id ensures q == p { assert Known(c, s, q); }
    OneFile(c, s.disk, p, now);
  }

  lemma CutIsTidy(c: Codec, text: string, r: Record, k: nat)
    requires Lawful(c) && Terminated(text)
    ensures Tidy(text + Cut(c, r, k))
    ensures k > |c.enc(r)| ==> Terminated(text + Cut(c, r, k))
  {
    CutLines(c, r, k);
    var now := text + Cut(c, r, k);
    if 0 < k <= |c.enc(r)| {
      var x := c.enc(r)[..k];
      assert c.enc(r)[..|c.enc(r)|] == c.enc(r);
      LawfulRecord(c, r);
      assert x[0] == c.enc(r)[0];
      TailAfterNewline(text, x);
    } else if k == 0 {
      assert now == text;
    }
  }

  lemma {:induction false} LineStartAfter(text: string, x: string, n: nat)
    requires Terminated(text) && '\n' !in x && |text| <= n <= |text + x|
    ensures LineStart(text + x, n) == |text|
  {
    if n > |text| {
      assert (text + x)[n - 1] == x[n - 1 - |text|];
      LineStartAfter(text, x, n - 1);
    }
  }

  lemma TailAfterNewline(text: string, x: string)
    requires Terminated(text) && '\n' !in x
    ensures Tail(text + x) == x
  {
    LineStartAfter(text, x, |text + x|);
  }

  /** Whatever a crash interrupts, wherever it falls: the operation has happened, or it has not. */
  lemma {:induction false} CrashRefines(c: Codec, s: Store, op: Op, k: nat)
    requires Lawful(c) && StoreOk(c, s) && !FusesWith(s, op)
    ensures var d := CrashDisk(c, s, op, k);
      && DiskOk(c, d)
      && Found(c, d) == Histories(if Landed(c, s, op, k) then Applied(s.sessions, op) else s.sessions)
  {
    hide Found, Lawful, Cut, Histories, StoreOk, DiskOk;
    SameDisk(c, s);
    DoIsOk(c, s, op);
    SameDisk(c, Do(c, s, op));
    match op
    case Put(r) =>
      if !Compacts(s, r) { CutAppend(c, s, r, k); }
    case Remove(id) =>
  }
}
