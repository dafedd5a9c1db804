/**
  The whole witness: every record at once, each with its real files and memory, under every interleaving
  of enrollments, pushes through any object the process ever made, the sweep, deletions, crashes and
  starts. Registry says who may write where, Record says what is written, and here the two run together.
*/
module Interleaved {
  import opened Options
  import opened SnocLists
  import opened PushRules
  import opened KeyLists
  import opened Keyring
  import opened Record
  import RecordRuns
  import Registry
  import RegistryRuns

  /** One countersignature: the record directory it was issued from, and what it names. */
  datatype Issue = Issue(key: Key, made: nat, coordinate: Coordinate)

  /** memories[i] is what the object numbered i keeps; issued is every countersignature so far. */
  datatype Witness = Witness(s: Registry.State, memories: seq<Memory>, ring: Keyring, startedAt: int, issued: List<Issue>)

  function RecOf(e: Registry.Enrollment): Enrolled {
    Enrolled(e.name, e.enrolledAt, e.expires)
  }

  /** The coordinates countersigned from one directory, in order. */
  function Of(issued: List<Issue>, key: Key, made: nat): List<Coordinate> {
    match issued
    case End => End
    case More(front, x) =>
      if x.key == key && x.made == made then More(Of(front, key, made), x.coordinate) else Of(front, key, made)
  }

  // ---------------------------------------------------------------------------------------------
  // Steps
  // ---------------------------------------------------------------------------------------------

  /** The process is gone, and with it everything in memory. */
  function Down(w: Witness): Witness {
    w.(s := w.s.(up := false, objects := [], installs := map[], sweep := Registry.Resting), memories := [])
  }

  /** What an object that has just been written through leaves, or what its death does. */
  function Written(w: Witness, s: Registry.State, i: nat, memory: Option<Memory>, issued: List<Issue>): Witness
    requires i < |w.memories|
  {
    if memory.Some? then w.(s := s, memories := w.memories[i := memory.value], issued := issued)
    else Down(w.(s := s, issued := issued))
  }

  /** A push through object i, which may have been looked up at any time since the process started. */
  function Push(w: Witness, i: nat, p: PushRules.Push, allowed: bool, fates: Fates): Witness
    requires i < |w.s.objects| == |w.memories|
  {
    var o := w.s.objects[i];
    if o.gone || o.key !in w.s.live then w
    else
      var dir := w.s.live[o.key];
      var out := Hold(RecOf(o.rec), w.ring, dir.disk, w.memories[i], p, w.s.clock, allowed, fates);
      Written(w, Registry.Push(w.s, i, p.installID, out.disk), i, out.memory,
              if out.reply.Countersigned? then More(w.issued, Issue(o.key, dir.made, out.reply.coordinate)) else w.issued)
  }

  /** The sweep's silence note of the install it is at. */
  function Note(w: Witness, fate: Fate): Witness
    requires Registry.Indexed(w.s) && w.s.sweep.Noting? && w.s.sweep.todo.More? && |w.s.objects| == |w.memories|
  {
    var i := w.s.sweep.todo.last;
    var o := w.s.objects[i];
    if o.key !in w.s.live then w
    else
      var out := Record.Sweep(w.s.live[o.key].disk, w.memories[i], w.startedAt, w.s.sweep.now, fate);
      Written(w, Registry.Note(w.s, out.disk), i, out.memory, w.issued)
  }

  /** What a start reads of one object's record. */
  function Reread(s: Registry.State, ring: Keyring, i: nat): Option<Memory>
    requires i < |s.objects|
  {
    var o := s.objects[i];
    if o.key in s.live then Record.Load(RecOf(o.rec), ring, s.live[o.key].disk) else None
  }

  /** Every record loads under the keyring. */
  predicate AllLoad(s: Registry.State, ring: Keyring) {
    forall i :: 0 <= i < |s.objects| ==> Reread(s, ring, i).Some?
  }

  function Reloaded(s: Registry.State, ring: Keyring): seq<Memory>
    requires AllLoad(s, ring)
  {
    seq(|s.objects|, i requires 0 <= i < |s.objects| => Reread(s, ring, i).value)
  }

  /** A start under the keyring the witness then has. Any record that does not load stops it, with nothing live changed. */
  function Start(w: Witness, order: seq<Key>, left: set<Key>, ring: Keyring): Witness
    requires Registry.Lists(order, w.s.live)
  {
    var s := Registry.Start(w.s, order, left);
    if s.up && AllLoad(s, ring) then Witness(s, Reloaded(s, ring), ring, w.s.clock, w.issued) else Down(w)
  }

  function FreshMemory(now: int): Memory {
    Memory(None, {}, 0, 0, now, ZERO_TIME, NO_LINE, false)
  }

  datatype Event =
    | OnRegistry(e: Registry.Event)
    | Pushing(i: nat, p: PushRules.Push, allowed: bool, fates: Fates)
    | Noting(fate: Fate)
    | Dying
    | Starting(order: seq<Key>, left: set<Key>, ring: Keyring)

  ghost predicate Enabled(w: Witness, e: Event) {
    match e
    case OnRegistry(r) =>
      !r.Pushing? && !r.SweepNote? && !r.Starting? && !r.Crash? && (r.Tick? ==> r.to > 0) && Registry.Enabled(w.s, r)
    case Pushing(i, _, _, _) => w.s.up && i < |w.s.objects|
    case Noting(_) => w.s.up && w.s.sweep.Noting? && w.s.sweep.todo.More?
    case Dying => true
    case Starting(order, _, _) => !w.s.up && Registry.Lists(order, w.s.live)
  }

  /** The memories beside the objects: one more for a record just admitted. */
  function Beside(memories: seq<Memory>, s: Registry.State): seq<Memory> {
    if |s.objects| == |memories| + 1 then memories + [FreshMemory(s.clock)] else memories
  }

  ghost function Step(c: Registry.Config, w: Witness, e: Event): Witness
    requires Registry.Indexed(w.s) && |w.s.objects| == |w.memories| && Enabled(w, e)
  {
    match e
    case OnRegistry(r) => var s := Registry.Step(c, w.s, r); w.(s := s, memories := Beside(w.memories, s))
    case Pushing(i, p, allowed, fates) => Push(w, i, p, allowed, fates)
    case Noting(fate) => Note(w, fate)
    case Dying => Down(w)
    case Starting(order, left, ring) => Start(w, order, left, ring)
  }

  // ---------------------------------------------------------------------------------------------
  // The invariant
  // ---------------------------------------------------------------------------------------------

  /** One record's files, and all that was countersigned from them. */
  ghost predicate RecordOk(rec: Enrolled, d: Disk, issued: List<Coordinate>) {
    && RecordRuns.DiskGood(rec, d) && RecordRuns.OneHistory(issued)
    && (issued.More? ==> d.checkpoint.Some? && RecordRuns.AllBelow(issued, CoordinateOf(d.checkpoint.value)))
  }

  ghost predicate MemoryOk(ring: Keyring, m: Memory, d: Disk) {
    RecordRuns.Agrees(m, d) && MemoryReads(ring, d.checkpoint)
  }

  ghost predicate DirOk(dir: Registry.Dir, issued: List<Coordinate>) {
    match dir.enrollment
    case Some(rec) => RecordOk(RecOf(rec), dir.disk, issued)
    case None => issued == End
  }

  ghost predicate OnDisk(live: map<Key, Registry.Dir>, makes: nat, issued: List<Issue>) {
    && (forall n :: n in live ==> DirOk(live[n], Of(issued, n, live[n].made)))
    && (forall n, made :: RecordRuns.OneHistory(Of(issued, n, made)))
    && (forall n, made :: made >= makes ==> Of(issued, n, made) == End)
  }

  ghost predicate InMemory(s: Registry.State, memories: seq<Memory>, ring: Keyring) {
    && |memories| == |s.objects|
    && forall i :: 0 <= i < |s.objects| && !s.objects[i].gone ==>
         s.objects[i].key in s.live && MemoryOk(ring, memories[i], s.live[s.objects[i].key].disk)
  }

  ghost predicate Inv(c: Registry.Config, w: Witness) {
    && RegistryRuns.Inv(c, w.s) && w.s.clock > 0
    && OnDisk(w.s.live, w.s.makes, w.issued) && InMemory(w.s, w.memories, w.ring)
  }

  // ---------------------------------------------------------------------------------------------
  // One record
  // ---------------------------------------------------------------------------------------------

  lemma {:induction false} BeginsAppend<T(!new)>(log: List<T>, added: List<T>)
    ensures Begins(log, Append(log, added))
  {
    if added.More? { BeginsAppend(log, added.front); }
  }

  lemma WriteFindingsAdds(d: Disk, m: Memory, found: seq<Finding>, now: int, fate: Fate)
    ensures var s := WriteFindings(d, m, found, now, fate); Adds(d, if s.Go? then s.disk else s.outcome.disk)
  {
    BeginsAppend(d.findings, Classify(FreshOf(m.delta, found, |found|), now));
  }

  lemma WriteHeadAdds(d: Disk, m: Memory, line: HeadLine, fate: Fate)
    ensures var s := WriteHead(d, m, line, fate); Adds(d, if s.Go? then s.disk else s.outcome.disk)
  {
  }

  lemma AdoptAdds(d: Disk, m: Memory, ring: Keyring, p: PushRules.Push, next: Checkpoint, found: seq<Finding>, now: int, fates: Fates)
    ensures Adds(d, Adopt(d, m, ring, p, next, found, now, fates).disk)
  {
    var line := HeadLine(now, Pushed(p));
    WriteHeadAdds(d, m, line, fates.heads);
    var s := WriteHead(d, m, line, fates.heads);
    if s.Go? {
      WriteFindingsAdds(s.disk, s.memory, found, now, fates.findings);
      var f := WriteFindings(s.disk, s.memory, found, now, fates.findings);
      AddsTransitive(d, s.disk, if f.Go? then f.disk else f.outcome.disk);
    }
  }

  lemma RefuseAdds(d: Disk, m: Memory, found: seq<Finding>, now: int, fates: Fates)
    ensures Adds(d, Refuse(d, m, found, now, fates).disk)
  {
    WriteFindingsAdds(d, m, found, now, fates.findings);
  }

  /** However a push ends, the logs still hold what they held. */
  lemma HoldAdds(rec: Enrolled, ring: Keyring, d: Disk, m: Memory, p: PushRules.Push, now: int, allowed: bool, fates: Fates)
    ensures Adds(d, Hold(rec, ring, d, m, p, now, allowed, fates).disk)
  {
    var r := CheckPush(d.checkpoint, rec.name, p, now);
    if r.Judged? {
      RefuseAdds(d, m, r.found, now, fates);
      AdoptAdds(d, m, ring, p, r.next, r.found, now, fates);
    }
  }

  lemma AddsTransitive(a: Disk, b: Disk, d: Disk)
    requires Adds(a, b) && Adds(b, d)
    ensures Adds(a, d)
  {
    BeginsTransitive(a.heads, b.heads, d.heads);
    BeginsTransitive(a.findings, b.findings, d.findings);
  }

  function Longer(issued: List<Coordinate>, reply: Reply): List<Coordinate> {
    if reply.Countersigned? then More(issued, reply.coordinate) else issued
  }

  /** A push keeps its record in order, and everything ever countersigned from it one history. */
  lemma HoldOk(rec: Enrolled, ring: Keyring, d: Disk, m: Memory, p: PushRules.Push, now: int, allowed: bool, fates: Fates, issued: List<Coordinate>)
    requires RecordOk(rec, d, issued) && MemoryOk(ring, m, d) && now > 0
    ensures var o := Hold(rec, ring, d, m, p, now, allowed, fates);
            RecordOk(rec, o.disk, Longer(issued, o.reply)) && (o.memory.Some? ==> MemoryOk(ring, o.memory.value, o.disk))
    ensures Hold(rec, ring, d, m, p, now, allowed, fates).reply.Countersigned? ==>
              var o := Hold(rec, ring, d, m, p, now, allowed, fates);
              o.disk.checkpoint.Some? && o.reply.coordinate == CoordinateOf(o.disk.checkpoint.value) && RecordRuns.Logged(o.disk.heads, o.reply.coordinate)
  {
    var s := RecordRuns.Service(d, Some(m), ring, 0, 1, issued, End);
    RecordRuns.ArrivesKeeps(rec, s, RecordRuns.Arrives(p, now, allowed, fates));
    RecordRuns.HoldGood(rec, ring, d, m, p, now, allowed, fates);
  }

  /** A push the registry would not let write leaves the files alone. */
  lemma HoldRefusedLeaves(rec: Enrolled, ring: Keyring, d: Disk, m: Memory, p: PushRules.Push, now: int, allowed: bool, fates: Fates)
    requires p.installID != rec.name || Lapsed(rec, now)
    ensures Hold(rec, ring, d, m, p, now, allowed, fates).disk == d
  {
  }

  lemma SweepOk(rec: Enrolled, ring: Keyring, d: Disk, m: Memory, startedAt: int, now: int, fate: Fate, issued: List<Coordinate>)
    requires RecordOk(rec, d, issued) && MemoryOk(ring, m, d)
    ensures var o := Record.Sweep(d, m, startedAt, now, fate);
            RecordOk(rec, o.disk, issued) && (o.memory.Some? ==> MemoryOk(ring, o.memory.value, o.disk)) && Adds(d, o.disk)
  {
  }

  // ---------------------------------------------------------------------------------------------
  // Writing one directory among many
  // ---------------------------------------------------------------------------------------------

  /** One directory rewritten in order leaves all of them in order. */
  lemma OnDiskWritten(live: map<Key, Registry.Dir>, makes: nat, issued: List<Issue>, key: Key, dir: Registry.Dir, reply: Reply)
    requires OnDisk(live, makes, issued) && key in live && dir.made == live[key].made < makes
    requires dir.enrollment.Some? && RecordOk(RecOf(dir.enrollment.value), dir.disk, Longer(Of(issued, key, dir.made), reply))
    ensures OnDisk(live[key := dir], makes,
                   if reply.Countersigned? then More(issued, Issue(key, dir.made, reply.coordinate)) else issued)
  {
    var more := if reply.Countersigned? then More(issued, Issue(key, dir.made, reply.coordinate)) else issued;
    forall n, made
      ensures Of(more, n, made) == if n == key && made == dir.made then Longer(Of(issued, key, dir.made), reply) else Of(issued, n, made)
    {
    }
  }

  lemma DownKeeps(c: Registry.Config, w: Witness)
    requires RegistryRuns.Inv(c, w.s) && w.s.clock > 0 && OnDisk(w.s.live, w.s.makes, w.issued)
    ensures Inv(c, Down(w))
  {
    RegistryRuns.InvIndexed(c, w.s);
    RegistryRuns.StepKeeps(c, w.s, Registry.Crash);
  }

  /** The object written through is the only living one over its directory, so no other memory is touched. */
  lemma InMemoryWritten(s: Registry.State, t: Registry.State, memories: seq<Memory>, ring: Keyring, i: nat, m: Memory, d: Disk)
    requires InMemory(s, memories, ring) && RegistryRuns.Mapped(s) && i < |s.objects| && !s.objects[i].gone && s.objects[i].key in s.live
    requires t.objects == s.objects && t.live == s.live[s.objects[i].key := s.live[s.objects[i].key].(disk := d)] && MemoryOk(ring, m, d)
    ensures InMemory(t, memories[i := m], ring)
  {
  }

  lemma PushKeeps(c: Registry.Config, w: Witness, i: nat, p: PushRules.Push, allowed: bool, fates: Fates)
    requires Inv(c, w) && Registry.Indexed(w.s) && w.s.up && i < |w.s.objects|
    ensures Inv(c, Push(w, i, p, allowed, fates))
  {
    var o := w.s.objects[i];
    if !o.gone {
      Living(c, w, i);
      var dir := w.s.live[o.key];
      var out := Hold(RecOf(o.rec), w.ring, dir.disk, w.memories[i], p, w.s.clock, allowed, fates);
      HoldOk(RecOf(o.rec), w.ring, dir.disk, w.memories[i], p, w.s.clock, allowed, fates, Of(w.issued, o.key, dir.made));
      HoldAdds(RecOf(o.rec), w.ring, dir.disk, w.memories[i], p, w.s.clock, allowed, fates);
      if p.installID != o.rec.name || Lapsed(RecOf(o.rec), w.s.clock) {
        HoldRefusedLeaves(RecOf(o.rec), w.ring, dir.disk, w.memories[i], p, w.s.clock, allowed, fates);
      }
      RegistryRuns.StepKeeps(c, w.s, Registry.Pushing(i, p.installID, out.disk));
      PushLeaves(w.s, i, p.installID, out.disk);
      WrittenKeeps(c, w, Registry.Push(w.s, i, p.installID, out.disk), i, out);
    }
  }

  /** A living object stands over a live directory that holds its enrollment, in order. */
  lemma Living(c: Registry.Config, w: Witness, i: nat)
    requires Inv(c, w) && i < |w.s.objects| && !w.s.objects[i].gone
    ensures var o := w.s.objects[i];
            && o.key in w.s.live && w.s.live[o.key].enrollment == Some(o.rec) && w.s.live[o.key].made < w.s.makes
            && RecordOk(RecOf(o.rec), w.s.live[o.key].disk, Of(w.issued, o.key, w.s.live[o.key].made))
            && MemoryOk(w.ring, w.memories[i], w.s.live[o.key].disk)
  {
    assert RegistryRuns.Keeps(w.s.live, w.s.objects[w.s.installs[w.s.objects[i].key]]);
    assert DirOk(w.s.live[w.s.objects[i].key], Of(w.issued, w.s.objects[i].key, w.s.live[w.s.objects[i].key].made));
  }

  /** The registry leaves in the directory exactly what the record wrote. */
  lemma PushLeaves(s: Registry.State, i: nat, name: string, disk: Disk)
    requires i < |s.objects| && !s.objects[i].gone && s.objects[i].key in s.live
    requires name != s.objects[i].rec.name || Lapsed(RecOf(s.objects[i].rec), s.clock) ==> disk == s.live[s.objects[i].key].disk
    ensures var t, key := Registry.Push(s, i, name, disk), s.objects[i].key;
            t == s.(live := s.live[key := s.live[key].(disk := disk)])
  {
    var key := s.objects[i].key;
    assert s.live[key := s.live[key].(disk := s.live[key].disk)] == s.live;
  }

  lemma WrittenKeeps(c: Registry.Config, w: Witness, t: Registry.State, i: nat, out: Outcome)
    requires Inv(c, w) && i < |w.s.objects| && !w.s.objects[i].gone && w.s.objects[i].key in w.s.live
    requires RegistryRuns.Inv(c, t) && t.objects == w.s.objects && t.makes == w.s.makes && t.clock == w.s.clock
    requires var key := w.s.objects[i].key; t.live == w.s.live[key := w.s.live[key].(disk := out.disk)]
    requires var key := w.s.objects[i].key;
             && w.s.live[key].enrollment == Some(w.s.objects[i].rec) && w.s.live[key].made < w.s.makes
             && RecordOk(RecOf(w.s.objects[i].rec), out.disk, Longer(Of(w.issued, key, w.s.live[key].made), out.reply))
    requires out.memory.Some? ==> MemoryOk(w.ring, out.memory.value, out.disk)
    ensures var key := w.s.objects[i].key;
            Inv(c, Written(w, t, i, out.memory,
                           if out.reply.Countersigned? then More(w.issued, Issue(key, w.s.live[key].made, out.reply.coordinate)) else w.issued))
  {
    var key := w.s.objects[i].key;
    var issued := if out.reply.Countersigned? then More(w.issued, Issue(key, w.s.live[key].made, out.reply.coordinate)) else w.issued;
    OnDiskWritten(w.s.live, w.s.makes, w.issued, key, w.s.live[key].(disk := out.disk), out.reply);
    if out.memory.Some? {
      InMemoryWritten(w.s, t, w.memories, w.ring, i, out.memory.value, out.disk);
    } else {
      DownKeeps(c, w.(s := t, issued := issued));
    }
  }

  lemma NoteKeeps(c: Registry.Config, w: Witness, fate: Fate)
    requires Inv(c, w) && Registry.Indexed(w.s) && Enabled(w, Noting(fate))
    ensures Inv(c, Note(w, fate))
  {
    var i := w.s.sweep.todo.last;
    var o := w.s.objects[i];
    Living(c, w, i);
    var dir := w.s.live[o.key];
    var out := Record.Sweep(dir.disk, w.memories[i], w.startedAt, w.s.sweep.now, fate);
    SweepOk(RecOf(o.rec), w.ring, dir.disk, w.memories[i], w.startedAt, w.s.sweep.now, fate, Of(w.issued, o.key, dir.made));
    RegistryRuns.StepKeeps(c, w.s, Registry.SweepNote(out.disk));
    WrittenKeeps(c, w, Registry.Note(w.s, out.disk), i, out);
  }

  // ---------------------------------------------------------------------------------------------
  // Steps that write no record
  // ---------------------------------------------------------------------------------------------

  /** Each directory is as it was but for its license and term, or is new and empty of any record. */
  ghost predicate SameFiles(s: Registry.State, t: Registry.State) {
    && s.makes <= t.makes
    && forall n :: n in t.live ==>
         || (t.live[n].enrollment.None? && t.live[n].made >= s.makes)
         || (n in s.live && SameFile(s.live[n], t.live[n]))
  }

  ghost predicate SameFile(a: Registry.Dir, b: Registry.Dir) {
    && a.made == b.made && a.disk == b.disk && a.enrollment.Some? == b.enrollment.Some?
    && (a.enrollment.Some? ==> a.enrollment.value.name == b.enrollment.value.name)
  }

  /** No object is new, and whatever lives lived before. */
  ghost predicate SameObjects(s: Registry.State, t: Registry.State) {
    && |t.objects| == |s.objects|
    && forall i :: 0 <= i < |t.objects| && !t.objects[i].gone ==> !s.objects[i].gone && t.objects[i].key == s.objects[i].key
  }

  lemma OnDiskSame(s: Registry.State, t: Registry.State, issued: List<Issue>)
    requires OnDisk(s.live, s.makes, issued) && SameFiles(s, t)
    ensures OnDisk(t.live, t.makes, issued)
  {
    forall n | n in t.live ensures DirOk(t.live[n], Of(issued, n, t.live[n].made)) {
      if n in s.live && SameFile(s.live[n], t.live[n]) {
        assert DirOk(s.live[n], Of(issued, n, s.live[n].made));
      }
    }
  }

  /** A living object's directory is never a new one, so its memory still agrees with it. */
  lemma InMemorySame(c: Registry.Config, s: Registry.State, t: Registry.State, memories: seq<Memory>, ring: Keyring)
    requires InMemory(s, memories, ring) && SameFiles(s, t) && SameObjects(s, t) && RegistryRuns.Inv(c, t)
    ensures InMemory(t, memories, ring)
  {
    forall i | 0 <= i < |t.objects| && !t.objects[i].gone
      ensures t.objects[i].key in t.live && MemoryOk(ring, memories[i], t.live[t.objects[i].key].disk)
    {
      assert RegistryRuns.Keeps(t.live, t.objects[t.installs[t.objects[i].key]]);
    }
  }

  lemma RenewSame(c: Registry.Config, s: Registry.State, r: Registry.Request, f: Registry.EnrollFates)
    requires RegistryRuns.Tied(s) && Registry.Indexed(s) && r.key in s.installs
    ensures var t := Registry.Renew(c, s, r, f).state; SameFiles(s, t) && SameObjects(s, t) && t.clock == s.clock
  {
    assert RegistryRuns.Keeps(s.live, s.objects[s.installs[r.key]]);
  }

  lemma NotAdmittedSame(c: Registry.Config, s: Registry.State, r: Registry.Request, f: Registry.EnrollFates)
    requires Registry.Indexed(s) && !Registry.Admit(c, s, r, f).answer.Enrolled?
    ensures var t := Registry.Admit(c, s, r, f).state; SameFiles(s, t) && SameObjects(s, t) && t.clock == s.clock
  {
  }

  lemma RetireSame(c: Registry.Config, s: Registry.State, f: Registry.RetireFates)
    requires Registry.Indexed(s) && s.sweep.Due? && s.sweep.todo.More?
    ensures var t := Registry.Retire(c, s, f); SameFiles(s, t) && SameObjects(s, t) && t.clock == s.clock
  {
    DeleteSame(s, s.sweep.todo.last, f);
  }

  lemma DeleteSame(s: Registry.State, i: nat, f: Registry.RetireFates)
    requires i < |s.objects|
    ensures var t := Registry.Delete(s, i, f); t.Some? ==> SameFiles(s, t.value) && SameObjects(s, t.value) && t.value.clock == s.clock
  {
  }

  lemma AdmittedAnswers(c: Registry.Config, s: Registry.State, r: Registry.Request, f: Registry.EnrollFates)
    requires Registry.Indexed(s)
    ensures Registry.Admit(c, s, r, f).answer.Enrolled? <==> !Registry.AtCap(c, s, r.license, None) && f.mkdir && f.write
  {
  }

  /** A new record starts from an empty directory nothing was ever countersigned from. */
  lemma AdmittedFresh(c: Registry.Config, s: Registry.State, r: Registry.Request, f: Registry.EnrollFates, issued: List<Issue>)
    requires Registry.Indexed(s) && RegistryRuns.Filed(s.live, s.makes) && Registry.Admit(c, s, r, f).answer.Enrolled?
    requires r.key in s.live ==> s.live[r.key].enrollment.None?
    requires OnDisk(s.live, s.makes, issued)
    ensures var t := Registry.Admit(c, s, r, f).state;
            r.key in t.live && t.live[r.key].disk == EMPTY && Of(issued, r.key, t.live[r.key].made) == End && s.makes <= t.makes
  {
    if r.key in s.live {
      assert DirOk(s.live[r.key], Of(issued, r.key, s.live[r.key].made));
    }
  }

  lemma AdmittedOnDisk(c: Registry.Config, w: Witness, r: Registry.Request, f: Registry.EnrollFates)
    requires Inv(c, w) && Registry.Indexed(w.s) && w.s.up && r.key !in w.s.installs && Registry.Admit(c, w.s, r, f).answer.Enrolled?
    ensures var t := Registry.Admit(c, w.s, r, f).state;
            OnDisk(t.live, t.makes, w.issued) && InMemory(t, w.memories + [FreshMemory(w.s.clock)], w.ring) && t.clock == w.s.clock
  {
    var t := Registry.Admit(c, w.s, r, f).state;
    AdmittedAnswers(c, w.s, r, f);
    RegistryRuns.AdmittedShape(c, w.s, r, f);
    assert r.key in w.s.live ==> w.s.live[r.key].enrollment.None?;
    AdmittedFresh(c, w.s, r, f, w.issued);
    AdmittedParts(w.s, t, w.memories, w.ring, w.issued, r.key);
  }

  lemma AdmittedParts(s: Registry.State, t: Registry.State, memories: seq<Memory>, ring: Keyring, issued: List<Issue>, key: Key)
    requires OnDisk(s.live, s.makes, issued) && InMemory(s, memories, ring) && RegistryRuns.Mapped(s) && key !in s.installs
    requires key in t.live && t.live == s.live[key := t.live[key]] && s.makes <= t.makes && t.clock == s.clock
    requires t.live[key].disk == EMPTY && t.live[key].enrollment.Some? && Of(issued, key, t.live[key].made) == End
    requires |t.objects| == |s.objects| + 1 && t.objects[..|s.objects|] == s.objects && t.objects[|s.objects|].key == key
    ensures OnDisk(t.live, t.makes, issued) && InMemory(t, memories + [FreshMemory(s.clock)], ring)
  {
    forall i | 0 <= i < |s.objects| ensures t.objects[i] == s.objects[i] {
      assert t.objects[..|s.objects|][i] == s.objects[i];
    }
  }

  lemma RegistryKeeps(c: Registry.Config, w: Witness, r: Registry.Event)
    requires Inv(c, w) && Registry.Indexed(w.s) && Enabled(w, OnRegistry(r))
    ensures Inv(c, Step(c, w, OnRegistry(r)))
  {
    RegistryRuns.StepKeeps(c, w.s, r);
    if r.Enrolling? {
      EnrollKeeps(c, w, r.r, r.ef);
    } else {
      var t := Registry.Step(c, w.s, r);
      if r.SweepRetire? { RetireSame(c, w.s, r.rf); }
      OnDiskSame(w.s, t, w.issued);
      InMemorySame(c, w.s, t, w.memories, w.ring);
    }
  }

  lemma EnrollKeeps(c: Registry.Config, w: Witness, r: Registry.Request, f: Registry.EnrollFates)
    requires Inv(c, w) && Registry.Indexed(w.s) && w.s.up
    requires RegistryRuns.Inv(c, Registry.Enroll(c, w.s, r, f).state)
    ensures var t := Registry.Enroll(c, w.s, r, f).state;
            Inv(c, w.(s := t, memories := Beside(w.memories, t)))
  {
    var t := Registry.Enroll(c, w.s, r, f).state;
    if r.key !in w.s.installs && Registry.Enroll(c, w.s, r, f).answer.Enrolled? {
      AdmittedOnDisk(c, w, r, f);
    } else if t != w.s {
      NotNewSame(c, w.s, r, f);
      OnDiskSame(w.s, t, w.issued);
      InMemorySame(c, w.s, t, w.memories, w.ring);
    }
  }

  /** An enrollment that admits no new key adds no object and writes no record. */
  lemma NotNewSame(c: Registry.Config, s: Registry.State, r: Registry.Request, f: Registry.EnrollFates)
    requires RegistryRuns.Tied(s) && Registry.Indexed(s) && Registry.Enroll(c, s, r, f).state != s
    requires r.key in s.installs || !Registry.Enroll(c, s, r, f).answer.Enrolled?
    ensures var t := Registry.Enroll(c, s, r, f).state; SameFiles(s, t) && SameObjects(s, t) && t.clock == s.clock
  {
    if r.key in s.installs {
      RenewSame(c, s, r, f);
    } else {
      NotAdmittedSame(c, s, r, f);
    }
  }

  // ---------------------------------------------------------------------------------------------
  // Starting, and every run
  // ---------------------------------------------------------------------------------------------

  lemma LoadOk(rec: Enrolled, ring: Keyring, d: Disk)
    requires Record.Load(rec, ring, d).Some?
    ensures MemoryOk(ring, Record.Load(rec, ring, d).value, d)
  {
  }

  lemma ReloadedOk(s: Registry.State, ring: Keyring)
    requires AllLoad(s, ring)
    ensures InMemory(s, Reloaded(s, ring), ring)
  {
    forall i | 0 <= i < |s.objects|
      ensures s.objects[i].key in s.live && MemoryOk(ring, Reloaded(s, ring)[i], s.live[s.objects[i].key].disk)
    {
      assert Reread(s, ring, i).Some?;
      LoadOk(RecOf(s.objects[i].rec), ring, s.live[s.objects[i].key].disk);
    }
  }

  lemma StartSame(s: Registry.State, order: seq<Key>, left: set<Key>)
    requires Registry.Lists(order, s.live)
    ensures var t := Registry.Start(s, order, left); t.live == s.live && t.makes == s.makes && t.clock == s.clock
  {
  }

  lemma StartKeeps(c: Registry.Config, w: Witness, order: seq<Key>, left: set<Key>, ring: Keyring)
    requires Inv(c, w) && Registry.Indexed(w.s) && !w.s.up && Registry.Lists(order, w.s.live)
    ensures Inv(c, Start(w, order, left, ring))
  {
    var t := Registry.Start(w.s, order, left);
    if t.up && AllLoad(t, ring) {
      RegistryRuns.StepKeeps(c, w.s, Registry.Starting(order, left));
      StartSame(w.s, order, left);
      ReloadedOk(t, ring);
    } else {
      DownKeeps(c, w);
    }
  }

  lemma StepKeeps(c: Registry.Config, w: Witness, e: Event)
    requires Inv(c, w) && Registry.Indexed(w.s) && Enabled(w, e)
    ensures Inv(c, Step(c, w, e))
  {
    match e
    case OnRegistry(r) => RegistryKeeps(c, w, r);
    case Pushing(i, p, allowed, fates) => PushKeeps(c, w, i, p, allowed, fates);
    case Noting(fate) => NoteKeeps(c, w, fate);
    case Dying => DownKeeps(c, w);
    case Starting(order, left, ring) => StartKeeps(c, w, order, left, ring);
  }

  /** The events, in this order, lead from w to v. */
  ghost predicate Leads(c: Registry.Config, w: Witness, events: List<Event>, v: Witness) {
    match events
    case End => w == v
    case More(front, e) =>
      exists m :: Leads(c, w, front, m) && Registry.Indexed(m.s) && |m.s.objects| == |m.memories| && Enabled(m, e) && v == Step(c, m, e)
  }

  lemma {:induction false} RunKeeps(c: Registry.Config, w: Witness, events: List<Event>, v: Witness)
    requires Inv(c, w) && Leads(c, w, events, v)
    ensures Inv(c, v)
  {
    if events.More? {
      var m :| Leads(c, w, events.front, m) && Registry.Indexed(m.s) && |m.s.objects| == |m.memories| && Enabled(m, events.last)
        && v == Step(c, m, events.last);
      RunKeeps(c, w, events.front, m);
      StepKeeps(c, m, events.last);
    }
  }

  /** A witness that never started, over an empty state directory. */
  function Empty(clock: int, ring: Keyring): Witness {
    Witness(RegistryRuns.Empty(clock), [], ring, 0, End)
  }

  lemma EmptyKeeps(c: Registry.Config, clock: int, ring: Keyring)
    requires clock > 0
    ensures Inv(c, Empty(clock, ring))
  {
    RegistryRuns.EmptyKeeps(c, clock);
  }

  /**
    One append-only history per record, over every interleaving. Whatever enrolls, pushes, sweeps,
    deletes, dies and starts in between, and through whichever object a push comes, of any two
    coordinates countersigned from one record directory the later tree extends the earlier, sizes and
    beats never fall, and no beat names two trees. This holds of deleted directories too.
  */
  lemma OneHistoryPerRecord(c: Registry.Config, clock: int, ring: Keyring, events: List<Event>, w: Witness, key: Key, made: nat, i: nat, j: nat)
    requires clock > 0 && Leads(c, Empty(clock, ring), events, w)
    requires i < j < |RecordRuns.AsSeq(Of(w.issued, key, made))|
    ensures var issued := RecordRuns.AsSeq(Of(w.issued, key, made)); RecordRuns.Below(issued[i], issued[j])
  {
    EmptyKeeps(c, clock, ring);
    RunKeeps(c, Empty(clock, ring), events, w);
    RecordRuns.OneHistoryAt(Of(w.issued, key, made), i, j);
  }

  /**
    Memory before testimony, under every interleaving: a step that issues a countersignature leaves a
    live directory whose checkpoint holds exactly that coordinate, listed in its head log.
  */
  lemma IssuedIsHeld(c: Registry.Config, clock: int, ring: Keyring, events: List<Event>, w: Witness, e: Event)
    requires clock > 0 && Leads(c, Empty(clock, ring), events, w)
    requires Registry.Indexed(w.s) && |w.s.objects| == |w.memories| && Enabled(w, e)
    ensures Step(c, w, e).issued == w.issued || JustIssued(w, Step(c, w, e))
  {
    EmptyKeeps(c, clock, ring);
    RunKeeps(c, Empty(clock, ring), events, w);
    if e.Pushing? {
      PushIssues(c, w, e.i, e.p, e.allowed, e.fates);
    }
  }

  /** One countersignature more, of what its live directory's checkpoint and head log hold. */
  ghost predicate JustIssued(w: Witness, v: Witness) {
    && v.issued.More? && v.issued.front == w.issued
    && var x := v.issued.last;
       && x.key in v.s.live && v.s.live[x.key].made == x.made
       && v.s.live[x.key].disk.checkpoint.Some? && CoordinateOf(v.s.live[x.key].disk.checkpoint.value) == x.coordinate
       && RecordRuns.Logged(v.s.live[x.key].disk.heads, x.coordinate)
  }

  lemma PushIssues(c: Registry.Config, w: Witness, i: nat, p: PushRules.Push, allowed: bool, fates: Fates)
    requires Inv(c, w) && i < |w.s.objects|
    ensures Push(w, i, p, allowed, fates).issued == w.issued || JustIssued(w, Push(w, i, p, allowed, fates))
  {
    var o := w.s.objects[i];
    if !o.gone {
      Living(c, w, i);
      var dir := w.s.live[o.key];
      HoldOk(RecOf(o.rec), w.ring, dir.disk, w.memories[i], p, w.s.clock, allowed, fates, Of(w.issued, o.key, dir.made));
      if Hold(RecOf(o.rec), w.ring, dir.disk, w.memories[i], p, w.s.clock, allowed, fates).reply.Countersigned? {
        PushLeaves(w.s, i, p.installID, Hold(RecOf(o.rec), w.ring, dir.disk, w.memories[i], p, w.s.clock, allowed, fates).disk);
      }
    }
  }

  /** In every reachable state each living object's memory agrees with its own directory, which loads. */
  lemma MemoriesAgree(c: Registry.Config, clock: int, ring: Keyring, events: List<Event>, w: Witness, i: nat)
    requires clock > 0 && Leads(c, Empty(clock, ring), events, w) && i < |w.s.objects| && !w.s.objects[i].gone
    ensures |w.memories| == |w.s.objects|
    ensures var o := w.s.objects[i];
            && o.key in w.s.live
            && RecordRuns.Good(RecOf(o.rec), w.s.live[o.key].disk, Some(w.memories[i]))
            && Record.Load(RecOf(o.rec), w.ring, w.s.live[o.key].disk).Some?
  {
    EmptyKeeps(c, clock, ring);
    RunKeeps(c, Empty(clock, ring), events, w);
    Living(c, w, i);
  }
}
