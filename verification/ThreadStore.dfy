/**
 * `ThreadStore` and `MemoryThreadStore` (packages/daemon/src/store.ts) as the objects they are: maps, and
 * for the first also log files, updated in place.
 */
module ThreadStores {
  import opened Common
  import opened LogText
  import opened LogStore
  import LogCrash

  class ThreadStore {
    const codec: Codec

    /** The log files of the home directory. */
    var disk: Disk

    var sessions: map<string, Record>
    var files: map<string, Path>
    var lineCounts: map<string, nat>

    ghost function View(): Store
      reads this
    {
      Store(disk, sessions, files, lineCounts)
    }

    /** A process that starts: whatever is on disk, nothing in memory. */
    constructor (codec: Codec, disk: Disk)
      ensures this.codec == codec && View() == Fresh(disk)
    {
      this.codec := codec;
      this.disk := disk;
      sessions, files, lineCounts := map[], map[], map[];
    }

    method Get(id: string) returns (session: Option<Record>)
      ensures session == if id in sessions then Some(sessions[id]) else None
    {
      session := if id in sessions then Some(sessions[id]) else None;
    }

    /** writeWhole: a temporary file renamed over the log */
    method RewriteLog(session: Record)
      modifies this`disk, this`files, this`lineCounts
      ensures View() == WriteWhole(codec, old(View()), session)
    {
      var path := if session.id in files then files[session.id] else Path(session.bucket, session.id);
      disk := disk[path := codec.enc(session) + "\n"];
      files := files[session.id := path];
      lineCounts := lineCounts[session.id := 1];
    }

    method Put(session: Record)
      modifies this
      ensures View() == Upsert(codec, old(View()), session)
      ensures sessions == old(sessions)[session.id := session]
    {
      var lines := if session.id in lineCounts then lineCounts[session.id] else 0;
      if session.id !in files || lines >= COMPACT_THRESHOLD || session.resolved || session.operations {
        RewriteLog(session);
        sessions := sessions[session.id := session];
        return;
      }
      var path := files[session.id];
      disk := disk[path := (if path in disk then disk[path] else "") + (codec.enc(session) + "\n")];
      lineCounts := lineCounts[session.id := lines + 1];
      sessions := sessions[session.id := session];
    }

    method Remove(id: string) returns (removed: bool)
      modifies this
      ensures View() == Delete(old(View()), id)
      ensures removed <==> id in old(sessions)
      ensures sessions == old(sessions) - {id}
    {
      if id !in sessions {
        assert sessions - {id} == sessions;
        return false;
      }
      sessions := sessions - {id};
      if id in files { disk := disk - {files[id]}; }
      files := files - {id};
      lineCounts := lineCounts - {id};
      removed := true;
    }

    /** recover, over the files in the order the directories list them */
    method Recover(order: seq<Path>) returns (recovered: seq<string>, skipped: seq<Path>)
      modifies this
      ensures View() == RecoverAll(codec, old(View()), order)
      ensures |recovered| + |skipped| == |order|
    {
      ghost var before := View();
      recovered, skipped := [], [];
      var i := 0;
      while i < |order|
        invariant 0 <= i <= |order|
        invariant View() == RecoverAll(codec, before, order[..i])
        invariant |recovered| + |skipped| == i
      {
        hide *;
        RecoverMore(codec, before, order, i);
        var found := RecoverOne(order[i]);
        if found.Some? { recovered := recovered + [found.value]; } else { skipped := skipped + [order[i]]; }
        i := i + 1;
      }
      assert order[..i] == order;
    }

    method RecoverOne(path: Path) returns (found: Option<string>)
      modifies this
      ensures View() == RecoverFile(codec, old(View()), path)
      ensures var reading := Read(codec, TextOf(old(disk), path));
        found == if reading.Some? then Some(reading.value.record.id) else None
    {
      var reading := ReadThread(codec, if path in disk then disk[path] else "");
      if reading.None? { return None; }
      var session := reading.value.record;
      sessions := sessions[session.id := session];
      files := files[session.id := path];
      lineCounts := lineCounts[session.id := reading.value.lines];
      if reading.value.torn { RewriteLog(session); }
      found := Some(session.id);
    }
  }

  /** The same contract with nothing on disk. */
  class MemoryThreadStore {
    var sessions: map<string, Record>

    constructor ()
      ensures sessions == map[]
    {
      sessions := map[];
    }

    method Put(session: Record)
      modifies this
      ensures sessions == old(sessions)[session.id := session]
    {
      sessions := sessions[session.id := session];
    }

    method Remove(id: string) returns (removed: bool)
      modifies this
      ensures removed <==> id in old(sessions)
      ensures sessions == old(sessions) - {id}
    {
      removed := id in sessions;
      sessions := sessions - {id};
    }
  }

  lemma RecoverMore(c: Codec, s: Store, order: seq<Path>, i: nat)
    requires i < |order|
    ensures RecoverAll(c, s, order[..i + 1]) == RecoverFile(c, RecoverAll(c, s, order[..i]), order[i])
  {
    assert order[..i + 1][..i] == order[..i] && order[..i + 1][i] == order[i];
  }

  /** Both stores, given the same operations without a crash, answer alike throughout, and at any moment a
      restart of the file store would find the same threads. */
  method Compare(files: ThreadStore, memory: MemoryThreadStore, ops: seq<Op>)
    requires Lawful(files.codec) && StoreOk(files.codec, files.View()) && files.sessions == memory.sessions
    requires forall p :: p in files.disk ==> Terminated(files.disk[p])
    modifies files, memory
    ensures files.sessions == memory.sessions
    ensures DiskOk(files.codec, files.disk) && Found(files.codec, files.disk) == Histories(memory.sessions)
  {
    var i := 0;
    while i < |ops|
      invariant 0 <= i <= |ops|
      invariant Lawful(files.codec) && StoreOk(files.codec, files.View()) && files.sessions == memory.sessions
      invariant forall p :: p in files.disk ==> Terminated(files.disk[p])
    {
      hide Lawful, StoreOk, Terminated;
      ghost var before := files.View();
      LogCrash.DoIsOk(files.codec, before, ops[i]);
      TerminatedKept(files.codec, before, ops[i]);
      match ops[i] {
        case Put(session) =>
          files.Put(session);
          memory.Put(session);
        case Remove(id) =>
          var gone := files.Remove(id);
          var also := memory.Remove(id);
          assert gone == also;
      }
      i := i + 1;
    }
    MemoryIsDisk(files.codec, files.View());
  }

  lemma TerminatedKept(c: Codec, s: Store, op: Op)
    requires StoreOk(c, s) && forall p :: p in s.disk ==> Terminated(s.disk[p])
    ensures !LogCrash.FusesWith(s, op)
    ensures forall p :: p in Do(c, s, op).disk ==> Terminated(Do(c, s, op).disk[p])
  {
    if op.Put? && !Compacts(s, op.record) {
      hide Read, Tidy, Found;
      LogCrash.TheFile(c, s, op.record.id);
    }
  }
}
