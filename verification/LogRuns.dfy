/**
 * Recovery, and whole runs of the append-log store: operations, crashes anywhere, restarts, and crashes
 * during restarts.
 */
module LogRuns {
  import opened Common
  import opened LogText
  import opened LogStore
  import opened LogCrash

  // ---- recovery ----

  /** The scan has dealt with these files and has not touched the others; every record is still there. */
  ghost predicate Scanned(c: Codec, before: Disk, s: Store, done: seq<Path>) {
    && s.disk.Keys == before.Keys
    && DiskOk(c, s.disk)
    && RecordsKept(c, before, s.disk, done)
    && AllKnown(c, s, done)
    && AllBacked(c, s, done)
    && s.files.Keys == s.sessions.Keys
  }

  ghost predicate RecordsKept(c: Codec, before: Disk, disk: Disk, done: seq<Path>)
    requires disk.Keys == before.Keys
  {
    forall p :: p in before ==> SameRecord(c, before, disk, p) && (p !in done ==> disk[p] == before[p])
  }

  ghost predicate AllKnown(c: Codec, s: Store, done: seq<Path>) {
    forall p :: p in done && p in s.disk ==> Known(c, s, p)
  }

  ghost predicate AllBacked(c: Codec, s: Store, done: seq<Path>) {
    forall id :: id in s.sessions ==> Backed(c, s, id) && s.files[id] in done && WithHistory(s.sessions[id]) == s.sessions[id]
  }

  predicate SameRecord(c: Codec, a: Disk, b: Disk, p: Path) {
    && Readable(c, a, p) == Readable(c, b, p)
    && (Readable(c, a, p) ==> Read(c, a[p]).value.record == Read(c, b[p]).value.record)
  }

  lemma FoundTheSame(c: Codec, a: Disk, b: Disk)
    requires DiskOk(c, a) && DiskOk(c, b) && a.Keys == b.Keys && forall p :: p in a ==> SameRecord(c, a, b, p)
    ensures Found(c, a) == Found(c, b)
  {
    hide Read, Found, DiskOk;
    forall id ensures id in Found(c, a) <==> id in Found(c, b) {
      if id in Found(c, a) {
        var p :| Readable(c, a, p) && p.id == id;
        assert SameRecord(c, a, b, p);
      }
      if id in Found(c, b) {
        var p :| Readable(c, b, p) && p.id == id;
        assert SameRecord(c, a, b, p);
      }
    }
    forall id | id in Found(c, a) ensures Found(c, a)[id] == Found(c, b)[id] {
      var p :| Readable(c, a, p) && p.id == id;
      assert SameRecord(c, a, b, p);
    }
  }

  function Taken(s: Store, p: Path, r: Record, text: string, lines: nat): Store {
    Store(s.disk[p := text], s.sessions[p.id := r], s.files[p.id := p], s.counts[p.id := lines])
  }

  /** Taking one file in, as it is or rewritten. */
  lemma TakeFile(c: Codec, before: Disk, s: Store, done: seq<Path>, p: Path, r: Record, text: string, lines: nat)
    requires Scanned(c, before, s, done) && p in before && p !in done
    requires Readable(c, before, p) && Read(c, before[p]).value.record == r == WithHistory(r)
    requires Read(c, text) == Some(Reading(r, lines, false)) && lines <= COMPACT_THRESHOLD && Tidy(text)
    ensures r.id == p.id
    ensures Scanned(c, before, Taken(s, p, r, text, lines), done + [p])
  {
    hide Read, Tidy, Found, WithHistory, DiskOk, RecordsKept, AllKnown, AllBacked;
    ScannedFile(c, before, s, done, p);
    TakenDisk(c, s.disk, p, text);
    TakenRecords(c, before, s, done, p, r, text, lines);
    NewToTheScan(c, before, s, done, p);
    TakenIsKnown(c, s, done, p, r, text, lines);
    TakenIsBacked(c, s, done, p, r, text, lines);
  }

  /** A file not scanned yet holds a thread not met yet. */
  lemma NewToTheScan(c: Codec, before: Disk, s: Store, done: seq<Path>, p: Path)
    requires Scanned(c, before, s, done) && p in before && p !in done && Readable(c, before, p)
    ensures p.id !in s.sessions
  {
    hide Read, Tidy, WithHistory;
    assert SameRecord(c, before, s.disk, p);
    forall id | id in s.sessions ensures id != p.id { assert Backed(c, s, id); }
  }

  lemma TakenDisk(c: Codec, disk: Disk, p: Path, text: string)
    requires DiskOk(c, disk) && Readable(c, disk, p)
    requires FileOk(c, disk[p := text], p)
    ensures DiskOk(c, disk[p := text])
  {
    hide Read, Tidy, Found;
    OneFile(c, disk, p, text);
  }

  lemma TakenRecords(c: Codec, before: Disk, s: Store, done: seq<Path>, p: Path, r: Record, text: string, lines: nat)
    requires s.disk.Keys == before.Keys && RecordsKept(c, before, s.disk, done) && p in before
    requires Readable(c, before, p) && Read(c, before[p]).value.record == r
    requires Read(c, text) == Some(Reading(r, lines, false))
    ensures RecordsKept(c, before, s.disk[p := text], done + [p])
  {
    hide Read;
    forall q | q in before ensures SameRecord(c, before, s.disk[p := text], q) {
      assert SameRecord(c, before, s.disk, q);
    }
  }

  lemma TakenIsKnown(c: Codec, s: Store, done: seq<Path>, p: Path, r: Record, text: string, lines: nat)
    requires AllKnown(c, s, done) && p !in done && p.id !in s.sessions && WithHistory(r) == r
    requires Read(c, text) == Some(Reading(r, lines, false))
    ensures AllKnown(c, Taken(s, p, r, text, lines), done + [p])
  {
    hide Read, WithHistory;
    var t := Taken(s, p, r, text, lines);
    forall q | q in done + [p] && q in t.disk ensures Known(c, t, q) {
      if q != p { assert Known(c, s, q); }
    }
  }

  lemma TakenIsBacked(c: Codec, s: Store, done: seq<Path>, p: Path, r: Record, text: string, lines: nat)
    requires AllBacked(c, s, done) && p !in done && p.id !in s.sessions && WithHistory(r) == r
    requires Read(c, text) == Some(Reading(r, lines, false))
    ensures AllBacked(c, Taken(s, p, r, text, lines), done + [p])
  {
    hide Read, WithHistory;
    var t := Taken(s, p, r, text, lines);
    forall id | id in t.sessions
      ensures Backed(c, t, id) && t.files[id] in done + [p] && WithHistory(t.sessions[id]) == t.sessions[id]
    {
      if id != p.id { assert Backed(c, s, id) && s.files[id] != p; }
    }
  }

  lemma ReadHasHistory(c: Codec, text: string)
    ensures Read(c, text).Some? ==> WithHistory(Read(c, text).value.record) == Read(c, text).value.record
  {
  }

  lemma RecoverFileScans(c: Codec, before: Disk, s: Store, done: seq<Path>, p: Path)
    requires Lawful(c) && Scanned(c, before, s, done) && p in before && p !in done
    ensures Scanned(c, before, RecoverFile(c, s, p), done + [p])
  {
    hide Read, Tidy, Lawful, Scanned, WithHistory;
    ScannedFile(c, before, s, done, p);
    var reading := Read(c, before[p]);
    if reading.None? {
      SkipFile(c, before, s, done, p);
    } else {
      var r := reading.value.record;
      ReadHasHistory(c, before[p]);
      if reading.value.torn {
        WholeReads(c, r);
        TakeFile(c, before, s, done, p, r, c.enc(r) + "\n", 1);
        assert s.counts[p.id := reading.value.lines][p.id := 1] == s.counts[p.id := 1];
        assert s.files[p.id := p][p.id := p] == s.files[p.id := p];
      } else {
        TakeFile(c, before, s, done, p, r, before[p], reading.value.lines);
        assert s.disk[p := before[p]] == s.disk;
      }
    }
  }

  lemma ScannedFile(c: Codec, before: Disk, s: Store, done: seq<Path>, p: Path)
    requires Scanned(c, before, s, done) && p in before && p !in done
    ensures p in s.disk && s.disk[p] == before[p] == TextOf(s.disk, p)
    ensures Readable(c, before, p) <==> Read(c, before[p]).Some?
    ensures Readable(c, before, p) ==>
      Read(c, before[p]).value.record.id == p.id && Read(c, before[p]).value.lines <= COMPACT_THRESHOLD && Tidy(before[p])
  {
    hide Read, Tidy;
    assert SameRecord(c, before, s.disk, p);
    assert FileOk(c, s.disk, p);
  }

  lemma SkipFile(c: Codec, before: Disk, s: Store, done: seq<Path>, p: Path)
    requires Scanned(c, before, s, done) && p in before && p !in done && Read(c, before[p]).None?
    ensures Scanned(c, before, s, done + [p])
  {
    hide Read, Tidy, DiskOk;
    assert SameRecord(c, before, s.disk, p) && Known(c, s, p);
  }

  lemma {:induction false} ScanIsOk(c: Codec, disk: Disk, order: seq<Path>)
    requires Lawful(c) && DiskOk(c, disk)
    requires (forall i :: 0 <= i < |order| ==> order[i] in disk) && Distinct(order)
    ensures Scanned(c, disk, RecoverAll(c, Fresh(disk), order), order)
  {
    hide Lawful, Scanned, RecoverFile, DiskOk;
    if order == [] {
      NothingScanned(c, disk);
    } else {
      var n := |order| - 1;
      ScanIsOk(c, disk, order[..n]);
      RecoverFileScans(c, disk, RecoverAll(c, Fresh(disk), order[..n]), order[..n], order[n]);
      assert order == order[..n] + [order[n]];
    }
  }

  lemma NothingScanned(c: Codec, disk: Disk)
    requires DiskOk(c, disk)
    ensures Scanned(c, disk, Fresh(disk), [])
  {
    hide DiskOk, Read;
  }

  lemma ScannedIsOk(c: Codec, disk: Disk, s: Store, order: seq<Path>)
    requires Scanned(c, disk, s, order) && Lists(order, disk)
    ensures StoreOk(c, s) && Histories(s.sessions) == s.sessions
  {
    hide Read, Tidy, DiskOk, Known, Backed, SameRecord, WithHistory;
  }

  lemma ScannedFinds(c: Codec, disk: Disk, s: Store, order: seq<Path>)
    requires Scanned(c, disk, s, order) && DiskOk(c, disk)
    ensures DiskOk(c, s.disk) && Found(c, s.disk) == Found(c, disk)
  {
    hide Read, Tidy, DiskOk, AllKnown, AllBacked, SameRecord, Found;
    FoundTheSame(c, disk, s.disk);
  }

  /** A restart finds every thread's last valid record and leaves a store in order. */
  lemma {:induction false} RecoveryFinds(c: Codec, disk: Disk, order: seq<Path>)
    requires Lawful(c) && DiskOk(c, disk) && Lists(order, disk)
    ensures var s := RecoverAll(c, Fresh(disk), order);
      && StoreOk(c, s) && s.sessions == Found(c, disk) && Histories(s.sessions) == s.sessions
  {
    ScanIsOk(c, disk, order);
    hide Found, Lawful, DiskOk, RecoverAll, Scanned, StoreOk, Lists, Histories;
    var s := RecoverAll(c, Fresh(disk), order);
    ScannedIsOk(c, disk, s, order);
    ScannedFinds(c, disk, s, order);
    SameDisk(c, s);
  }

  /** A crash in the middle of a restart costs nothing. */
  lemma {:induction false} RecoveryCanCrash(c: Codec, disk: Disk, order: seq<Path>, n: nat)
    requires Lawful(c) && DiskOk(c, disk) && Lists(order, disk) && n <= |order|
    ensures var d := RecoverAll(c, Fresh(disk), order[..n]).disk;
      DiskOk(c, d) && Found(c, d) == Found(c, disk)
  {
    ScanIsOk(c, disk, order[..n]);
    ScannedFinds(c, disk, RecoverAll(c, Fresh(disk), order[..n]), order[..n]);
  }

  // ---- runs ----

  datatype Node = Up(store: Store) | Down(disk: Disk)

  /** A crash between two operations is `Halt`; one during recovery falls after n files, on whichever side
      of a rewrite's rename. */
  datatype Event =
    | Perform(op: Op)
    | CrashIn(op: Op, k: nat)
    | Halt
    | Boot(order: seq<Path>)
    | CrashBooting(order: seq<Path>, n: nat)

  ghost function Step(c: Codec, n: Node, e: Event): Node {
    match n
    case Up(s) =>
      (match e
       case Perform(op) => Up(Do(c, s, op))
       case CrashIn(op, k) => Down(CrashDisk(c, s, op, k))
       case Halt => Down(s.disk)
       case _ => n)
    case Down(disk) =>
      (match e
       case Boot(order) => if Lists(order, disk) then Up(RecoverAll(c, Fresh(disk), order)) else n
       case CrashBooting(order, k) =>
         if Lists(order, disk) && k <= |order| then Down(RecoverAll(c, Fresh(disk), order[..k]).disk) else n
       case _ => n)
  }

  ghost function Steps(c: Codec, n: Node, es: seq<Event>): Node
    decreases es
  {
    if es == [] then n else Steps(c, Step(c, n, es[0]), es[1..])
  }

  /** The plain map: an operation applies; a crash keeps the interrupted one or drops it; a restart changes
      nothing but gives records that lack one a history. */
  function Ideal(c: Codec, n: Node, e: Event, m: map<string, Record>): map<string, Record> {
    if n.Down? then m
    else
      match e
      case Perform(op) => Applied(m, op)
      case CrashIn(op, k) => Histories(if Landed(c, n.store, op, k) then Applied(m, op) else m)
      case Halt => Histories(m)
      case _ => m
  }

  ghost function IdealRun(c: Codec, n: Node, es: seq<Event>, m: map<string, Record>): map<string, Record>
    decreases es
  {
    if es == [] then m else IdealRun(c, Step(c, n, es[0]), es[1..], Ideal(c, n, es[0], m))
  }

  /** Serving, the store holds exactly the map; down, a restart will find exactly it. */
  ghost predicate Refines(c: Codec, n: Node, m: map<string, Record>) {
    match n
    case Up(s) => StoreOk(c, s) && s.sessions == m
    case Down(disk) => DiskOk(c, disk) && Found(c, disk) == m && Histories(m) == m
  }

  /** This step appends to a log whose last newline is missing. */
  predicate FusesNow(n: Node, e: Event) {
    n.Up? && ((e.Perform? && FusesWith(n.store, e.op)) || (e.CrashIn? && FusesWith(n.store, e.op)))
  }

  ghost predicate NeverFuses(c: Codec, n: Node, es: seq<Event>)
    decreases es
  {
    es == [] || (!FusesNow(n, es[0]) && NeverFuses(c, Step(c, n, es[0]), es[1..]))
  }

  lemma HistoriesTwice(m: map<string, Record>)
    ensures Histories(Histories(m)) == Histories(m)
  {
  }

  lemma StepRefines(c: Codec, n: Node, e: Event, m: map<string, Record>)
    requires Lawful(c) && Refines(c, n, m) && !FusesNow(n, e)
    ensures Refines(c, Step(c, n, e), Ideal(c, n, e, m))
  {
    hide Lawful, StoreOk, DiskOk, Found, Histories, RecoverAll, Lists, CrashDisk, Do, Landed;
    match n
    case Up(s) =>
      HistoriesTwice(m);
      match e {
        case Perform(op) => DoIsOk(c, s, op);
        case CrashIn(op, k) =>
          CrashRefines(c, s, op, k);
          HistoriesTwice(Applied(m, op));
        case Halt => SameDisk(c, s);
        case _ =>
      }
    case Down(disk) =>
      match e {
        case Boot(order) => if Lists(order, disk) { RecoveryFinds(c, disk, order); }
        case CrashBooting(order, k) => if Lists(order, disk) && k <= |order| { RecoveryCanCrash(c, disk, order, k); }
        case _ =>
      }
  }

  /** Crash refinement over every run that never fuses: whatever is read is the last completed operation or
      the one in flight at a crash, and no log is ever longer than 40 lines. */
  lemma {:induction false} RunsRefine(c: Codec, n: Node, es: seq<Event>, m: map<string, Record>)
    requires Lawful(c) && Refines(c, n, m) && NeverFuses(c, n, es)
    ensures Refines(c, Steps(c, n, es), IdealRun(c, n, es, m))
    ensures ShortLogs(c, Steps(c, n, es))
    decreases es
  {
    if es == [] {
      RefinedLogsAreShort(c, n, m);
    } else {
      hide Lawful, Refines, Step, Ideal, ShortLogs;
      StepRefines(c, n, es[0], m);
      RunsRefine(c, Step(c, n, es[0]), es[1..], Ideal(c, n, es[0], m));
    }
  }

  function DiskOf(n: Node): Disk {
    if n.Up? then n.store.disk else n.disk
  }

  ghost predicate ShortLogs(c: Codec, n: Node) {
    forall p :: Readable(c, DiskOf(n), p) ==> |Lines(DiskOf(n)[p])| <= COMPACT_THRESHOLD
  }

  lemma RefinedLogsAreShort(c: Codec, n: Node, m: map<string, Record>)
    requires Refines(c, n, m)
    ensures ShortLogs(c, n)
  {
    hide Lines, Tidy, Found;
    forall p | Readable(c, DiskOf(n), p) ensures |Lines(DiskOf(n)[p])| <= COMPACT_THRESHOLD {
      assert FileOk(c, DiskOf(n), p);
    }
  }

  // ---- only the lost newline fuses ----

  /** The crash that leaves a complete record without its newline. */
  predicate LosesOnlyTheNewline(c: Codec, n: Node, e: Event) {
    n.Up? && e.CrashIn? && e.op.Put? && !Compacts(n.store, e.op.record) && e.k == |c.enc(e.op.record)|
  }

  ghost predicate KeepsNewlines(c: Codec, n: Node, es: seq<Event>)
    decreases es
  {
    es == [] || (!LosesOnlyTheNewline(c, n, es[0]) && KeepsNewlines(c, Step(c, n, es[0]), es[1..]))
  }

  /** Every log that is not torn ends with a newline. */
  ghost predicate Ended(c: Codec, disk: Disk) {
    forall p :: Readable(c, disk, p) ==> Terminated(disk[p]) || Read(c, disk[p]).value.torn
  }

  lemma EndedLogsDoNotFuse(c: Codec, s: Store, r: Record)
    requires StoreOk(c, s) && Ended(c, s.disk)
    ensures !Fuses(s, r)
  {
    hide Read, Tidy;
    if r.id in s.files { TheFile(c, s, r.id); }
  }

  lemma EndedWith(c: Codec, disk: Disk, p: Path, text: string)
    requires Ended(c, disk) && (Read(c, text).Some? ==> Terminated(text) || Read(c, text).value.torn)
    ensures Ended(c, disk[p := text])
  {
    hide Read;
    var now := disk[p := text];
    forall q | Readable(c, now, q) ensures Terminated(now[q]) || Read(c, now[q]).value.torn {
      if q != p { assert Readable(c, disk, q); }
    }
  }

  lemma EndedCut(c: Codec, text: string, r: Record, k: nat)
    requires Lawful(c) && Terminated(text) && k != |c.enc(r)|
    ensures var now := text + Cut(c, r, k); Read(c, now).Some? ==> Terminated(now) || Read(c, now).value.torn
  {
    hide Lawful, Lines;
    CutLines(c, r, k);
    AppendReads(c, text, r, k);
    CutIsTidy(c, text, r, k);
    if k == 0 { assert text + "" == text; }
  }

  lemma EndedStep(c: Codec, s: Store, op: Op, k: nat)
    requires Lawful(c) && StoreOk(c, s) && Ended(c, s.disk)
    ensures Ended(c, Do(c, s, op).disk)
    ensures !LosesOnlyTheNewline(c, Up(s), CrashIn(op, k)) ==> Ended(c, CrashDisk(c, s, op, k))
  {
    hide Read, Lawful, Tidy, Cut;
    match op
    case Put(r) =>
      EndedIsTidy(c.enc(r), c);
      EndedWith(c, s.disk, FileOf(s, r), c.enc(r) + "\n");
      if !Compacts(s, r) {
        TheFile(c, s, r.id);
        EndedLogsDoNotFuse(c, s, r);
        var text := s.disk[s.files[r.id]];
        assert text + (c.enc(r) + "\n") == text + c.enc(r) + "\n";
        EndedIsTidy(text + c.enc(r), c);
        EndedWith(c, s.disk, s.files[r.id], text + (c.enc(r) + "\n"));
        if k != |c.enc(r)| {
          EndedCut(c, text, r, k);
          EndedWith(c, s.disk, s.files[r.id], text + Cut(c, r, k));
        }
      }
    case Remove(id) =>
  }

  lemma {:induction false} EndedScan(c: Codec, disk: Disk, order: seq<Path>)
    requires Ended(c, disk)
    ensures Ended(c, RecoverAll(c, Fresh(disk), order).disk)
  {
    if order != [] {
      var n := |order| - 1;
      EndedScan(c, disk, order[..n]);
      var s := RecoverAll(c, Fresh(disk), order[..n]);
      var text := TextOf(s.disk, order[n]);
      if Read(c, text).Some? && Read(c, text).value.torn {
        hide Read, RecoverAll;
        var r := Read(c, text).value.record;
        var t := s.(sessions := s.sessions[r.id := r], files := s.files[r.id := order[n]], counts := s.counts[r.id := Read(c, text).value.lines]);
        EndedIsTidy(c.enc(r), c);
        EndedWith(c, s.disk, FileOf(t, r), c.enc(r) + "\n");
      }
    }
  }

  lemma EndedNode(c: Codec, n: Node, e: Event, m: map<string, Record>)
    requires Lawful(c) && Refines(c, n, m) && Ended(c, DiskOf(n)) && !LosesOnlyTheNewline(c, n, e)
    ensures Ended(c, DiskOf(Step(c, n, e))) && !FusesNow(n, e)
  {
    hide Lawful, StoreOk, DiskOk, Found, Histories, RecoverAll, Lists, CrashDisk, Do, Landed, Ended, Fuses;
    match n
    case Up(s) =>
      if e.Perform? || e.CrashIn? {
        EndedStep(c, s, e.op, if e.CrashIn? then e.k else 0);
        if e.op.Put? { EndedLogsDoNotFuse(c, s, e.op.record); }
      }
    case Down(disk) =>
      match e {
        case Boot(order) => EndedScan(c, disk, order);
        case CrashBooting(order, k) => if k <= |order| { EndedScan(c, disk, order[..k]); }
        case _ =>
      }
  }

  /** Crash refinement with the condition on crashes instead: unless a crash takes exactly the newline and
      nothing else, no run ever fuses, so every run refines the map. */
  lemma {:induction false} OnlyTheLostNewlineFuses(c: Codec, n: Node, es: seq<Event>, m: map<string, Record>)
    requires Lawful(c) && Refines(c, n, m) && Ended(c, DiskOf(n)) && KeepsNewlines(c, n, es)
    ensures NeverFuses(c, n, es)
    ensures Refines(c, Steps(c, n, es), IdealRun(c, n, es, m))
    decreases es
  {
    if es != [] {
      hide Lawful, Refines, Step, Ideal, Ended;
      EndedNode(c, n, es[0], m);
      StepRefines(c, n, es[0], m);
      OnlyTheLostNewlineFuses(c, Step(c, n, es[0]), es[1..], Ideal(c, n, es[0], m));
    }
  }

  /** The store of a new home refines the empty map. */
  lemma EmptyRefines(c: Codec)
    ensures Refines(c, Up(Fresh(map[])), map[]) && Ended(c, map[])
  {
  }
}
