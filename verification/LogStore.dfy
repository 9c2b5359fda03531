/**
 * The append-log store as a state machine (packages/daemon/src/store.ts): its maps and its log files, with
 * a crash possible inside every append, on either side of every rename and removal, and inside recovery.
 */
module LogStore {
  import opened Common
  import opened LogText

  const COMPACT_THRESHOLD := 40

  /** A log file: its bucket and, as its name, a thread identity. */
  datatype Path = Path(bucket: string, id: string)

  type Disk = map<Path, string>

  datatype Store = Store(disk: Disk, sessions: map<string, Record>, files: map<string, Path>, counts: map<string, nat>)

  function Fresh(disk: Disk): Store {
    Store(disk, map[], map[], map[])
  }

  // ---- upsert and delete ----

  function FileOf(s: Store, r: Record): Path {
    if r.id in s.files then s.files[r.id] else Path(r.bucket, r.id)
  }

  function CountOf(s: Store, id: string): nat {
    if id in s.counts then s.counts[id] else 0
  }

  /** The first write, an over-long log, a resolved thread and pending message operations rewrite the log. */
  predicate Compacts(s: Store, r: Record) {
    r.id !in s.files || CountOf(s, r.id) >= COMPACT_THRESHOLD || r.resolved || r.operations
  }

  function WriteWhole(c: Codec, s: Store, r: Record): Store {
    var p := FileOf(s, r);
    s.(disk := s.disk[p := c.enc(r) + "\n"], files := s.files[r.id := p], counts := s.counts[r.id := 1])
  }

  function TextOf(disk: Disk, p: Path): string {
    if p in disk then disk[p] else ""
  }

  function Appended(c: Codec, disk: Disk, p: Path, r: Record, k: nat): Disk {
    disk[p := TextOf(disk, p) + Cut(c, r, k)]
  }

  function Upsert(c: Codec, s: Store, r: Record): Store {
    if Compacts(s, r) then
      var t := WriteWhole(c, s, r);
      t.(sessions := t.sessions[r.id := r])
    else
      var p := s.files[r.id];
      s.(disk := s.disk[p := TextOf(s.disk, p) + (c.enc(r) + "\n")],
         counts := s.counts[r.id := CountOf(s, r.id) + 1], sessions := s.sessions[r.id := r])
  }

  function Delete(s: Store, id: string): Store {
    if id !in s.sessions then s
    else
      s.(sessions := s.sessions - {id}, files := s.files - {id}, counts := s.counts - {id},
         disk := if id in s.files then s.disk - {s.files[id]} else s.disk)
  }

  // ---- crashes ----

  datatype Op = Put(record: Record) | Remove(id: string)

  function Do(c: Codec, s: Store, op: Op): Store {
    match op
    case Put(r) => Upsert(c, s, r)
    case Remove(id) => Delete(s, id)
  }

  /** What a crash leaves on disk: k characters of an append; for a rename or a removal, nothing done if k
      is 0 and all of it otherwise. */
  function CrashDisk(c: Codec, s: Store, op: Op, k: nat): Disk {
    match op
    case Put(r) =>
      if Compacts(s, r) then (if k == 0 then s.disk else WriteWhole(c, s, r).disk)
      else Appended(c, s.disk, s.files[r.id], r, k)
    case Remove(id) => if k == 0 then s.disk else Delete(s, id).disk
  }

  /** Whether the interrupted operation will have happened: an append has from its last character on. */
  predicate Landed(c: Codec, s: Store, op: Op, k: nat) {
    match op
    case Put(r) => if Compacts(s, r) then k > 0 else k >= |c.enc(r)|
    case Remove(_) => k > 0
  }

  // ---- recovery ----

  /** One file of the scan: take its last valid record, and rewrite the log if its tail was torn. */
  function RecoverFile(c: Codec, s: Store, p: Path): Store {
    var reading := Read(c, TextOf(s.disk, p));
    if reading.None? then s
    else
      var r := reading.value.record;
      var t := s.(sessions := s.sessions[r.id := r], files := s.files[r.id := p], counts := s.counts[r.id := reading.value.lines]);
      if reading.value.torn then WriteWhole(c, t, r) else t
  }

  /** The scan in the order the directory lists the files. */
  function RecoverAll(c: Codec, s: Store, order: seq<Path>): Store {
    if order == [] then s else RecoverFile(c, RecoverAll(c, s, order[..|order| - 1]), order[|order| - 1])
  }

  ghost predicate Lists(order: seq<Path>, disk: Disk) {
    && (forall p :: p in disk <==> p in order)
    && forall i, j :: 0 <= i < j < |order| ==> order[i] != order[j]
  }

  // ---- what holds on disk and in memory ----

  predicate Readable(c: Codec, disk: Disk, p: Path) {
    p in disk && Read(c, disk[p]).Some?
  }

  ghost predicate FileOk(c: Codec, disk: Disk, p: Path) {
    Readable(c, disk, p) ==>
      && Read(c, disk[p]).value.record.id == p.id
      && Read(c, disk[p]).value.lines <= COMPACT_THRESHOLD
      && Tidy(disk[p])
  }

  /** Any time, crashed or not: a log never passes 40 lines, holds the thread it is named after, and no
      two hold the same thread. Files that hold no record at all may lie about. */
  ghost predicate DiskOk(c: Codec, disk: Disk) {
    && (forall p :: p in disk ==> FileOk(c, disk, p))
    && (forall p, q :: Readable(c, disk, p) && Readable(c, disk, q) && p.id == q.id ==> p == q)
  }

  /** The store knows this log as it is, and it is whole. */
  predicate Known(c: Codec, s: Store, p: Path) {
    Readable(c, s.disk, p) ==>
      && p.id in s.sessions && p.id in s.files && s.files[p.id] == p
      && p.id in s.counts && s.counts[p.id] == Read(c, s.disk[p]).value.lines
      && !Read(c, s.disk[p]).value.torn
      && WithHistory(s.sessions[p.id]) == Read(c, s.disk[p]).value.record
  }

  predicate Backed(c: Codec, s: Store, id: string) {
    id in s.sessions ==> id in s.files && s.files[id].id == id && Readable(c, s.disk, s.files[id]) && Known(c, s, s.files[id])
  }

  ghost predicate StoreOk(c: Codec, s: Store) {
    && DiskOk(c, s.disk)
    && (forall p :: p in s.disk ==> Known(c, s, p))
    && (forall id :: id in s.sessions ==> Backed(c, s, id))
    && s.files.Keys == s.sessions.Keys
  }

  /** What recovery will find: thread by thread, the last valid record. */
  ghost function Found(c: Codec, disk: Disk): (m: map<string, Record>)
    requires DiskOk(c, disk)
    ensures forall p :: Readable(c, disk, p) ==> p.id in m && m[p.id] == Read(c, disk[p]).value.record
    ensures forall id :: id in m ==> exists p :: Readable(c, disk, p) && p.id == id
  {
    map p | p in disk && Readable(c, disk, p) :: p.id := Read(c, disk[p]).value.record
  }

  function Histories(m: map<string, Record>): map<string, Record> {
    map id | id in m :: WithHistory(m[id])
  }

  /** In memory is what recovery would find. */
  lemma MemoryIsDisk(c: Codec, s: Store)
    requires StoreOk(c, s)
    ensures Found(c, s.disk) == Histories(s.sessions)
  {
    hide Read, Tidy, Found;
    var f, h := Found(c, s.disk), Histories(s.sessions);
    forall id ensures id in f <==> id in h {
      if id in f {
        var p :| Readable(c, s.disk, p) && p.id == id;
        assert Known(c, s, p);
      }
      if id in h { assert Backed(c, s, id); }
    }
    forall id | id in f ensures f[id] == h[id] {
      assert Backed(c, s, id);
    }
  }
}
