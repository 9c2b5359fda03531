/**
 * What a write leaves in the log file (packages/daemon/src/store.ts): when a log is rewritten to its newest record,
 * when it only grows by one line, and what happens to every other file.
 */
module LogDisk {
  import opened Common
  import opened LogText
  import opened LogStore
  import opened LogCrash

  /** Forty lines with a record among them, as far as reading goes. */
  predicate Full(c: Codec, text: string) {
    Read(c, text).Some? && Read(c, text).value.lines >= COMPACT_THRESHOLD
  }

  /** An upsert of a known thread rewrites its log to the one new line exactly when the log has reached forty lines,
      the thread is resolved or message operations are pending, and else adds one line at the end; a new thread's log
      is made in its bucket; no other file changes. */
  lemma LogAfterUpsert(c: Codec, s: Store, r: Record)
    requires StoreOk(c, s)
    ensures var t := Upsert(c, s, r);
      && r.id in t.files
      && var p := t.files[r.id];
      && p in t.disk
      && (if r.id in s.sessions then
            && p == s.files[r.id] && p in s.disk
            && t.disk[p] == (if r.resolved || r.operations || Full(c, s.disk[p]) then "" else s.disk[p]) + c.enc(r) + "\n"
          else p == Path(r.bucket, r.id) && t.disk[p] == c.enc(r) + "\n")
      && t.disk.Keys == s.disk.Keys + {p}
      && forall q :: q in s.disk && q != p ==> t.disk[q] == s.disk[q]
  {
    hide Read, Tidy, DiskOk;
    if r.id in s.sessions {
      assert Backed(c, s, r.id);
      assert Known(c, s, s.files[r.id]);
      var text := s.disk[s.files[r.id]];
      assert "" + c.enc(r) + "\n" == c.enc(r) + "\n";
      assert text + c.enc(r) + "\n" == text + (c.enc(r) + "\n");
    }
  }

  /** A delete removes the thread's log and no other file; of a thread that is not there, it does nothing. */
  lemma LogAfterDelete(c: Codec, s: Store, id: string)
    requires StoreOk(c, s)
    ensures var t := Delete(s, id);
      if id in s.sessions then
        && id in s.files && t.disk == s.disk - {s.files[id]}
        && t.sessions == s.sessions - {id} && id !in t.files && id !in t.counts
      else t == s
  {
    hide Read, Tidy, DiskOk;
    if id in s.sessions { assert Backed(c, s, id); }
  }

  /** What a record is read as: a record of a Thread that has revisions and no history gets one, and nothing else
      about it changes. */
  lemma HistoryExactly(r: Record)
    ensures var h := WithHistory(r);
      && (h == r <==> r.history.Some? || r.revisions == [])
      && (r.history.None? && r.revisions != [] ==> h.history == Some(r.revisions))
      && h == r.(history := h.history)
  {
  }
}
