/**
  One record over every run: pushes, retries, failed writes, deaths at any write, sweeps, restore
  notes and restarts under whatever keyring the witness then has. Only a rewind of the record's own
  files is left out of a run.
*/
module RecordRuns {
  import opened Options
  import opened SnocLists
  import opened Merkle
  import opened PushRules
  import opened PushLaws
  import opened Keyring
  import KeyringRuns
  import opened KeyringWord
  import opened Record

  /** What the record's history remembers of the witness's attention. */
  datatype Mark = PushJudged(at: int) | SilenceNoted(at: int)

  /** issued are the coordinates countersigned so far, and marks the judged pushes and noted silences. */
  datatype Service = Service(disk: Disk, memory: Option<Memory>, ring: Keyring, startedAt: int, clock: int,
                             issued: List<Coordinate>, marks: List<Mark>)

  datatype Event =
    | Arrives(p: Push, now: int, allowed: bool, fates: Fates)
    | Sweeps(now: int, fate: Fate)
    | NotesRestore(now: int, fate: Fate)
    | Dies(now: int)
    | Starts(ring: Keyring, now: int)

  /** A record just enrolled, in the process that enrolled it. */
  function Enroll(rec: Enrolled, ring: Keyring, startedAt: int): Service {
    Service(Disk(None, End, End), Some(Memory(None, {}, 0, 0, rec.at, ZERO_TIME, NO_LINE, false)),
            ring, startedAt, rec.at, End, End)
  }

  /** Whether hold holds the push against the memory and it is not a retry. */
  predicate IsJudged(rec: Enrolled, ring: Keyring, d: Disk, p: Push, now: int, allowed: bool) {
    && p.installID == rec.name && allowed && !Lapsed(rec, now) && MemoryReads(ring, d.checkpoint)
    && CheckPush(d.checkpoint, rec.name, p, now).Judged? && !HoldsPush(d.checkpoint, p)
  }

  /** Whether a write with this fate is on disk. */
  predicate Durable(fate: Fate) {
    fate.Works? || (fate.Dies? && fate.written)
  }

  function Step(rec: Enrolled, s: Service, e: Event): Service {
    match e
    case Starts(ring, now) => s.(memory := Record.Load(rec, ring, s.disk), ring := ring, startedAt := now, clock := now)
    case Dies(now) => s.(memory := None, clock := now)
    case Arrives(p, now, allowed, fates) =>
      if s.memory.None? then s.(clock := now)
      else
        var o := Hold(rec, s.ring, s.disk, s.memory.value, p, now, allowed, fates);
        s.(disk := o.disk, memory := o.memory, clock := now,
           issued := if o.reply.Countersigned? then More(s.issued, o.reply.coordinate) else s.issued,
           marks := if IsJudged(rec, s.ring, s.disk, p, now, allowed) then More(s.marks, PushJudged(now)) else s.marks)
    case Sweeps(now, fate) =>
      if s.memory.None? then s.(clock := now)
      else
        var o := Sweep(s.disk, s.memory.value, s.startedAt, now, fate);
        s.(disk := o.disk, memory := o.memory, clock := now,
           marks := if FallsSilent(s.memory.value, s.startedAt, now) && Durable(fate) then More(s.marks, SilenceNoted(now)) else s.marks)
    case NotesRestore(now, fate) =>
      if s.memory.None? then s.(clock := now)
      else
        var o := WriteNote(s.disk, s.memory.value, Memory_Restored, now, fate);
        s.(disk := o.disk, memory := o.memory, clock := now)
  }

  function Run(rec: Enrolled, s: Service, events: List<Event>): Service {
    match events
    case End => s
    case More(front, last) => Step(rec, Run(rec, s, front), last)
  }

  /** Every time read is a real one. The clock may step either way. */
  ghost predicate Dated(rec: Enrolled, events: List<Event>) {
    match events
    case End => rec.at > 0
    case More(front, last) => Dated(rec, front) && last.now > 0
  }

  // ---------------------------------------------------------------------------------------------
  // Disk and memory
  // ---------------------------------------------------------------------------------------------

  /** No two neighbouring lines name one coordinate, and every line is a real one. */
  ghost predicate LogInOrder(heads: List<HeadLine>) {
    match heads
    case End => true
    case More(front, last) => LogInOrder(front) && last.coordinate != LastLine(front).coordinate && last.at > 0 && last.coordinate.beat >= 1
  }

  ghost predicate Logged(heads: List<HeadLine>, c: Coordinate) {
    match heads
    case End => false
    case More(front, last) => last.coordinate == c || Logged(front, c)
  }

  /** A checkpoint as a push leaves it. */
  ghost predicate Saved(rec: Enrolled, c: Checkpoint) {
    && c.root.Hex? && c.lastHead.Hex? && c.size >= 1 && c.lastBeat >= 1 && c.lastSeq >= 1
    && c.installID == rec.name && c.server == NormalizeServer(rec.name) && c.observedAt > 0
  }

  ghost predicate DiskGood(rec: Enrolled, d: Disk) {
    && LogInOrder(d.heads)
    && (d.checkpoint.Some? ==> Saved(rec, d.checkpoint.value) && Logged(d.heads, CoordinateOf(d.checkpoint.value)))
  }

  /** Memory is what a start would rebuild, but for when the install was last heard from. */
  ghost predicate Agrees(m: Memory, d: Disk) {
    && m.checkpoint == d.checkpoint && m.refusals == Refusals(d.findings) && m.notes == Notes(d.findings)
    && m.memorySince == Since(d.heads) && m.lastHead == LastLine(d.heads)
  }

  ghost predicate Good(rec: Enrolled, d: Disk, m: Option<Memory>) {
    DiskGood(rec, d) && (m.Some? ==> Agrees(m.value, d))
  }

  /** A record stops the start exactly when its checkpoint is another label's, or unsigned, or by a key that was not the witness's word then. */
  lemma RecordLoadsExactly(rec: Enrolled, ring: Keyring, d: Disk)
    ensures Record.Load(rec, ring, d).Some? <==>
              d.checkpoint.None?
              || (d.checkpoint.value.installID == rec.name && d.checkpoint.value.signer.Some?
                  && MemoryLoads(ring, d.checkpoint.value.signer.value, d.checkpoint.value.observedAt))
  {
  }

  /** Which of the recorded findings are refusals, and which are notes. */
  function Which(log: seq<Recorded>, notes: bool): set<int> {
    set i | 0 <= i < |log| && IsNote(log[i].kind) == notes
  }

  /** The totals count each recorded finding once, under its class. */
  lemma {:induction false} TotalsExactly(log: List<Recorded>)
    ensures Refusals(log) == |Which(AsSeq(log), false)| && Notes(log) == |Which(AsSeq(log), true)|
    ensures Refusals(log) + Notes(log) == Count(log)
  {
    if log.More? {
      TotalsExactly(log.front);
      OneMoreWhich(AsSeq(log.front), log.last, false);
      OneMoreWhich(AsSeq(log.front), log.last, true);
    }
  }

  lemma OneMoreWhich(log: seq<Recorded>, r: Recorded, notes: bool)
    ensures |Which(log + [r], notes)| == |Which(log, notes)| + if IsNote(r.kind) == notes then 1 else 0
  {
    assert Which(log + [r], notes) == Which(log, notes) + if IsNote(r.kind) == notes then {|log|} else {};
  }

  lemma {:induction false} CountsAdd(log: List<Recorded>, added: List<Recorded>)
    ensures Refusals(Append(log, added)) == Refusals(log) + Refusals(added)
    ensures Notes(Append(log, added)) == Notes(log) + Notes(added)
  {
    if added.More? {
      CountsAdd(log, added.front);
    }
  }

  lemma {:induction false} SinceZero(heads: List<HeadLine>)
    requires LogInOrder(heads)
    ensures Since(heads) == ZERO_TIME <==> heads.End?
  {
    if heads.More? {
      SinceZero(heads.front);
    }
  }

  lemma WriteHeadGood(rec: Enrolled, d: Disk, m: Memory, line: HeadLine, fate: Fate)
    requires Good(rec, d, Some(m)) && line.at > 0 && line.coordinate.beat >= 1
    ensures var s := WriteHead(d, m, line, fate);
            if s.Go? then Good(rec, s.disk, Some(s.memory)) && Logged(s.disk.heads, line.coordinate) && s.disk.checkpoint == d.checkpoint
            else Good(rec, s.outcome.disk, s.outcome.memory) && s.outcome.disk.checkpoint == d.checkpoint && !s.outcome.reply.Countersigned?
  {
    SinceZero(d.heads);
  }

  lemma WriteFindingsGood(rec: Enrolled, d: Disk, m: Memory, found: seq<Finding>, now: int, fate: Fate)
    requires Good(rec, d, Some(m))
    ensures var s := WriteFindings(d, m, found, now, fate);
            if s.Go? then Good(rec, s.disk, Some(s.memory)) && s.disk.heads == d.heads && s.disk.checkpoint == d.checkpoint
            else Good(rec, s.outcome.disk, s.outcome.memory) && s.outcome.disk.checkpoint == d.checkpoint && !s.outcome.reply.Countersigned?
  {
    var added := Classify(FreshOf(m.delta, found, |found|), now);
    CountsAdd(d.findings, added);
  }

  /** A countersignature is of what the checkpoint on disk holds, and the head log lists it. */
  ghost predicate Remembered(o: Outcome) {
    o.reply.Countersigned? ==>
      && o.disk.checkpoint.Some? && o.reply.coordinate == CoordinateOf(o.disk.checkpoint.value)
      && Logged(o.disk.heads, o.reply.coordinate)
      && o.reply.claim.subject == Claim(o.reply.coordinate.head)
      && o.reply.head.subject == Head(o.reply.coordinate.size, o.reply.coordinate.root)
  }

  lemma WritesTellNothing(d: Disk, m: Memory, ring: Keyring, p: Push, next: Checkpoint, found: seq<Finding>, now: int, fates: Fates)
    ensures !Refuse(d, m, found, now, fates).reply.ProveFrom? && !Adopt(d, m, ring, p, next, found, now, fates).reply.ProveFrom?
  {
  }

  /** An answer to prove again names the size and beat the saved checkpoint holds, none being zero and zero, and leaves all as it was. */
  ghost predicate Told(d: Disk, m: Memory, o: Outcome) {
    o.reply.ProveFrom? ==>
      && o.disk == d && o.memory == Some(m)
      && o.reply.size == (if d.checkpoint.None? then 0 else d.checkpoint.value.size)
      && o.reply.beat == (if d.checkpoint.None? then 0 else d.checkpoint.value.lastBeat)
  }

  lemma ToldExactly(rec: Enrolled, ring: Keyring, d: Disk, m: Memory, p: Push, now: int, allowed: bool, fates: Fates)
    requires DiskGood(rec, d)
    ensures var o := Judge(rec, ring, d, m, p, now, allowed, fates);
            && Told(d, m, o)
            && (o.reply.ProveFrom? <==>
                  && p.installID == rec.name && allowed && !Lapsed(rec, now) && MemoryReads(ring, d.checkpoint)
                  && var r := CheckPush(d.checkpoint, rec.name, p, now); r.Failed? && (r.error.ProofBase? || r.error.Stale?))
  {
    var r := CheckPush(d.checkpoint, rec.name, p, now);
    if r.Judged? {
      WritesTellNothing(d, m, ring, p, r.next, r.found, now, fates);
    }
  }

  /** The checkpoint stayed, or moved to next under the current key. */
  ghost predicate Moved(d: Disk, o: Outcome, ring: Keyring, next: Checkpoint) {
    o.disk.checkpoint == d.checkpoint || o.disk.checkpoint == Some(next.(signer := Some(ring.current)))
  }

  lemma AdoptGood(rec: Enrolled, d: Disk, m: Memory, ring: Keyring, p: Push, next: Checkpoint, found: seq<Finding>, now: int, fates: Fates)
    requires Good(rec, d, Some(m)) && now > 0 && Saved(rec, next) && HoldsPush(Some(next), p)
    ensures var o := Adopt(d, m, ring, p, next, found, now, fates);
            Good(rec, o.disk, o.memory) && Remembered(o) && Moved(d, o, ring, next)
  {
    var line := HeadLine(now, Pushed(p));
    WriteHeadGood(rec, d, m, line, fates.heads);
    var s := WriteHead(d, m, line, fates.heads);
    if s.Go? {
      WriteFindingsGood(rec, s.disk, s.memory, found, now, fates.findings);
    }
  }

  /** What CheckPush adopts for a record is a checkpoint in form, observed now. */
  lemma AdoptedSaved(rec: Enrolled, d: Disk, p: Push, now: int)
    requires DiskGood(rec, d) && now > 0
    requires CheckPush(d.checkpoint, rec.name, p, now).Judged?
    requires IsAdoption(d.checkpoint, p, CheckPush(d.checkpoint, rec.name, p, now).next)
    ensures Saved(rec, CheckPush(d.checkpoint, rec.name, p, now).next)
    ensures CheckPush(d.checkpoint, rec.name, p, now).next.observedAt == now
  {
    ThreeWaySplit(d.checkpoint, rec.name, p, now);
  }

  /** Memory before testimony: every way a push can end keeps disk and memory in agreement, and answers only for what is saved. */
  lemma HoldGood(rec: Enrolled, ring: Keyring, d: Disk, m: Memory, p: Push, now: int, allowed: bool, fates: Fates)
    requires Good(rec, d, Some(m)) && now > 0
    ensures var o := Hold(rec, ring, d, m, p, now, allowed, fates); Good(rec, o.disk, o.memory) && Remembered(o)
  {
    if IsJudged(rec, ring, d, p, now, allowed) {
      var r := CheckPush(d.checkpoint, rec.name, p, now);
      ThreeWaySplit(d.checkpoint, rec.name, p, now);
      if HoldsPush(Some(r.next), p) {
        AdoptedSaved(rec, d, p, now);
        AdoptGood(rec, d, m, ring, p, r.next, r.found, now, fates);
      } else {
        WriteFindingsGood(rec, d, m, r.found, now, fates.findings);
      }
    }
  }

  // ---------------------------------------------------------------------------------------------
  // One append-only history
  // ---------------------------------------------------------------------------------------------

  /** k's tree extends c's, neither its beat nor its chain position is before c's, and one beat names one coordinate. */
  ghost predicate Below(c: Coordinate, k: Coordinate) {
    && c.root.Hex? && k.root.Hex?
    && c.beat <= k.beat && c.seq_ <= k.seq_ && c.size <= k.size
    && Extends(k.size, k.root.hash, c.size, c.root.hash)
    && (c.beat == k.beat ==> c == k)
  }

  lemma BelowTransitive(a: Coordinate, b: Coordinate, c: Coordinate)
    requires Below(a, b) && Below(b, c)
    ensures Below(a, c)
  {
    ExtendsTransitive(c.root.hash, c.size, b.size, a.size);
  }

  ghost predicate AllBelow(issued: List<Coordinate>, k: Coordinate) {
    match issued
    case End => true
    case More(front, last) => AllBelow(front, k) && Below(last, k)
  }

  ghost predicate OneHistory(issued: List<Coordinate>) {
    match issued
    case End => true
    case More(front, last) => OneHistory(front) && AllBelow(front, last)
  }

  lemma {:induction false} AllBelowMoves(issued: List<Coordinate>, k: Coordinate, later: Coordinate)
    requires AllBelow(issued, k) && Below(k, later)
    ensures AllBelow(issued, later)
  {
    if issued.More? {
      AllBelowMoves(issued.front, k, later);
      BelowTransitive(issued.last, k, later);
    }
  }

  ghost predicate Forward(a: Option<Checkpoint>, b: Option<Checkpoint>) {
    b.Some? ==> b.value.root.Hex? && b.value.size >= 1 && (a.Some? ==> Below(CoordinateOf(a.value), CoordinateOf(b.value)))
  }

  lemma HoldForward(rec: Enrolled, ring: Keyring, d: Disk, m: Memory, p: Push, now: int, allowed: bool, fates: Fates)
    requires Good(rec, d, Some(m)) && now > 0
    ensures var o := Hold(rec, ring, d, m, p, now, allowed, fates);
            Forward(d.checkpoint, o.disk.checkpoint) && (d.checkpoint.Some? ==> o.disk.checkpoint.Some?)
            && (MemoryReads(ring, d.checkpoint) ==> MemoryReads(ring, o.disk.checkpoint))
  {
    if IsJudged(rec, ring, d, p, now, allowed) {
      var r := CheckPush(d.checkpoint, rec.name, p, now);
      ThreeWaySplit(d.checkpoint, rec.name, p, now);
      if HoldsPush(Some(r.next), p) {
        AdoptedSaved(rec, d, p, now);
        AdoptGood(rec, d, m, ring, p, r.next, r.found, now, fates);
      } else {
        WriteFindingsGood(rec, d, m, r.found, now, fates.findings);
      }
    }
  }

  /** The record's state and everything it ever answered, at every moment of a run. */
  ghost predicate Inv(rec: Enrolled, s: Service) {
    && Good(rec, s.disk, s.memory)
    && (s.memory.Some? ==> MemoryReads(s.ring, s.disk.checkpoint))
    && OneHistory(s.issued)
    && (s.issued.More? ==> s.disk.checkpoint.Some? && AllBelow(s.issued, CoordinateOf(s.disk.checkpoint.value)))
  }

  lemma ArrivesKeeps(rec: Enrolled, s: Service, e: Event)
    requires Inv(rec, s) && e.Arrives? && s.memory.Some? && e.now > 0
    ensures Inv(rec, Step(rec, s, e))
  {
    var m := s.memory.value;
    HoldGood(rec, s.ring, s.disk, m, e.p, e.now, e.allowed, e.fates);
    HoldForward(rec, s.ring, s.disk, m, e.p, e.now, e.allowed, e.fates);
    var o := Hold(rec, s.ring, s.disk, m, e.p, e.now, e.allowed, e.fates);
    if s.issued.More? {
      AllBelowMoves(s.issued, CoordinateOf(s.disk.checkpoint.value), CoordinateOf(o.disk.checkpoint.value));
    }
  }

  lemma NoteKeeps(rec: Enrolled, s: Service, e: Event)
    requires Inv(rec, s) && (e.Sweeps? || e.NotesRestore?) && e.now > 0
    ensures Inv(rec, Step(rec, s, e))
  {
  }

  lemma StepKeeps(rec: Enrolled, s: Service, e: Event)
    requires Inv(rec, s) && e.now > 0
    ensures Inv(rec, Step(rec, s, e))
  {
    if e.Arrives? && s.memory.Some? {
      ArrivesKeeps(rec, s, e);
    } else if e.Sweeps? || e.NotesRestore? {
      NoteKeeps(rec, s, e);
    }
  }

  lemma {:induction false} RunKeeps(rec: Enrolled, s: Service, events: List<Event>)
    requires Inv(rec, s) && Dated(rec, events)
    ensures Inv(rec, Run(rec, s, events))
  {
    if events.More? {
      RunKeeps(rec, s, events.front);
      StepKeeps(rec, Run(rec, s, events.front), events.last);
    }
  }

  function AsSeq<T>(l: List<T>): seq<T> {
    match l
    case End => []
    case More(front, last) => AsSeq(front) + [last]
  }

  lemma {:induction false} AllBelowAt(issued: List<Coordinate>, k: Coordinate, i: nat)
    requires AllBelow(issued, k) && i < |AsSeq(issued)|
    ensures Below(AsSeq(issued)[i], k)
  {
    if i < |AsSeq(issued.front)| {
      AllBelowAt(issued.front, k, i);
    }
  }

  lemma {:induction false} OneHistoryAt(issued: List<Coordinate>, i: nat, j: nat)
    requires OneHistory(issued) && i < j < |AsSeq(issued)|
    ensures Below(AsSeq(issued)[i], AsSeq(issued)[j])
  {
    if j < |AsSeq(issued.front)| {
      OneHistoryAt(issued.front, i, j);
    } else {
      AllBelowAt(issued.front, issued.last, i);
    }
  }

  /**
    One append-only history. Over every run, of any two coordinates the witness ever countersigned
    for a record the later one's tree extends the earlier one's, sizes, beats and chain positions never
    fall, and no beat is ever countersigned over two different trees.
  */
  lemma OneAppendOnlyHistory(rec: Enrolled, ring: Keyring, startedAt: int, events: List<Event>, i: nat, j: nat)
    requires Dated(rec, events)
    requires i < j < |AsSeq(Run(rec, Enroll(rec, ring, startedAt), events).issued)|
    ensures var issued := AsSeq(Run(rec, Enroll(rec, ring, startedAt), events).issued); Below(issued[i], issued[j])
  {
    var s := Enroll(rec, ring, startedAt);
    RunKeeps(rec, s, events);
    OneHistoryAt(Run(rec, s, events).issued, i, j);
  }

  /** If the later root is that of a real tree over leaves, every earlier one is that of its first leaves. */
  lemma EarlierRootsArePrefixes(c: Coordinate, k: Coordinate, leaves: seq<Hash>)
    requires Below(c, k) && k.size <= |leaves| && k.root == Hex(TreeRoot(leaves, k.size))
    ensures c.root == Hex(TreeRoot(leaves, c.size))
  {
    HonestProofVerifies(leaves, c.size, k.size);
  }

  /**
    Memory before testimony, at every moment of every run: a countersignature is issued only for the
    coordinate the checkpoint on disk then holds, that coordinate is in the head log, and no two
    neighbouring head-log lines name one coordinate.
  */
  lemma MemoryBeforeTestimony(rec: Enrolled, ring: Keyring, startedAt: int, events: List<Event>, e: Event)
    requires Dated(rec, More(events, e))
    ensures var before := Run(rec, Enroll(rec, ring, startedAt), events);
            var after := Step(rec, before, e);
            && LogInOrder(after.disk.heads)
            && (after.disk.checkpoint.Some? ==> Logged(after.disk.heads, CoordinateOf(after.disk.checkpoint.value)))
            && (after.issued != before.issued ==>
                  after.disk.checkpoint.Some? && after.issued == More(before.issued, CoordinateOf(after.disk.checkpoint.value)))
  {
    var s := Enroll(rec, ring, startedAt);
    RunKeeps(rec, s, events);
    var before := Run(rec, s, events);
    StepKeeps(rec, before, e);
    if e.Arrives? && before.memory.Some? {
      HoldGood(rec, before.ring, before.disk, before.memory.value, e.p, e.now, e.allowed, e.fates);
    }
  }

  /**
    Memory agrees with disk. Whenever the process runs, a restart under its keyring succeeds and
    rebuilds the same checkpoint, memory-since, newest head line and totals of refusals and notes,
    after failed writes and rollbacks too.
  */
  lemma RestartRebuilds(rec: Enrolled, ring: Keyring, startedAt: int, events: List<Event>)
    requires Dated(rec, events)
    requires Run(rec, Enroll(rec, ring, startedAt), events).memory.Some?
    ensures var s := Run(rec, Enroll(rec, ring, startedAt), events);
            var m, rebuilt := s.memory.value, Record.Load(rec, s.ring, s.disk);
            rebuilt.Some?
            && rebuilt.value.(delta := m.delta, lastSeen := m.lastSeen, silent := m.silent) == m
  {
    var s := Enroll(rec, ring, startedAt);
    RunKeeps(rec, s, events);
  }

  // ---------------------------------------------------------------------------------------------
  // A retry across rotations
  // ---------------------------------------------------------------------------------------------

  /** Held against memory that holds it, a push in form is a retry that raises nothing. */
  lemma RetryRecognized(rec: Enrolled, c: Checkpoint, p: Push, now: int)
    requires Saved(rec, c) && HoldsPush(Some(c), p) && WellFormed(p) && p.installID == rec.name != ""
    ensures CheckPush(Some(c), rec.name, p, now) == Judged(c, [])
  {
    NormalizeTwice(rec.name);
  }

  lemma RetryJudged(rec: Enrolled, ring: Keyring, d: Disk, m: Memory, p: Push, now: int, fates: Fates)
    requires d.checkpoint.Some? && Saved(rec, d.checkpoint.value) && HoldsPush(d.checkpoint, p) && WellFormed(p)
    requires p.installID == rec.name != "" && !Lapsed(rec, now) && MemoryReads(ring, d.checkpoint)
    ensures Judge(rec, ring, d, m, p, now, true, fates) == Outcome(d, Some(m), Countersign(d.checkpoint.value, ring, [], now))
  {
    RetryRecognized(rec, d.checkpoint.value, p, now);
  }

  /** Two rings that mint a checkpoint's answer with one key at one time give the same attestations. */
  lemma MintedAlike(rec: Enrolled, c: Checkpoint, a: Keyring, b: Keyring, raised: seq<Finding>, now: int, later: int)
    requires Saved(rec, c) && MintingKey(a, c.observedAt, now) == MintingKey(b, c.observedAt, later)
    requires MintingKey(a, c.observedAt, now).at == c.observedAt
    ensures var first := Countersign(c, a, raised, now);
            first.Countersigned? && Countersign(c, b, [], later) == first.(raised := [])
  {
  }

  /**
    A retry answers what the first attempt did. A push adopted at t under one keyring and pushed again
    after any run of rotations that come after t is countersigned with the same two attestations,
    while the witness can sign with the adopting key and that key's listed start is not after t.
  */
  lemma RetryAnswersAlike(rec: Enrolled, dir: KeyDir, keyEvents: seq<KeyringRuns.Event>, d: Disk, m: Memory, p: Push,
                          raised: seq<Finding>, now: int, fates: Fates)
    requires KeyringRuns.Sound(dir) && KeyringRuns.Clocked(keyEvents)
    requires Good(rec, d, Some(m)) && d.checkpoint.Some? && HoldsPush(d.checkpoint, p) && WellFormed(p) && p.installID == rec.name != ""
    requires d.checkpoint.value.signer == Some(KeyringRuns.Ring(dir).current)
    requires RotatesAfter(keyEvents, d.checkpoint.value.observedAt) && !Lapsed(rec, now)
    requires var keys := KeyringRuns.Ring(dir).history; keys[|keys| - 1].validFrom.time <= d.checkpoint.value.observedAt
    ensures KeyringRuns.Sound(KeyringRuns.Run(dir, keyEvents))
    ensures var then_, after := KeyringRuns.Ring(dir), KeyringRuns.Ring(KeyringRuns.Run(dir, keyEvents));
            var c := d.checkpoint.value;
            var first := Countersign(c, then_, raised, c.observedAt);
            CanSign(after, then_.current) ==>
              first.Countersigned?
              && Judge(rec, after, d, m, p, now, true, fates) == Outcome(d, Some(m), first.(raised := []))
  {
    var c, then_ := d.checkpoint.value, KeyringRuns.Ring(dir);
    RetryMintsAlike(dir, [], c.observedAt, c.observedAt);
    RetryMintsAlike(dir, keyEvents, c.observedAt, now);
    MemoryStillLoads(dir, keyEvents, then_.current, c.observedAt);
    var after := KeyringRuns.Ring(KeyringRuns.Run(dir, keyEvents));
    RetryJudged(rec, after, d, m, p, now, fates);
    if CanSign(after, then_.current) {
      CanSignNow(then_);
      MintedAlike(rec, c, then_, after, raised, c.observedAt, now);
    }
  }

  lemma CanSignNow(ring: Keyring)
    ensures CanSign(ring, ring.current)
  {
  }
}
