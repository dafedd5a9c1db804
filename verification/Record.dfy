/**
  One enrolled install's record: what the witness keeps on disk and in memory, and how a push, a sweep
  and a start change both, one write at a time. Every write may succeed, fail leaving nothing, or be
  where the process dies.
*/
module Record {
  import opened Options
  import opened SnocLists
  import opened PushRules
  import opened KeyLists
  import opened Keyring
  import opened KeyringWord

  // ---------------------------------------------------------------------------------------------
  // Data
  // ---------------------------------------------------------------------------------------------

  /** 30 days, in seconds. */
  const LAPSE_GRACE := 30 * 24 * 3600

  datatype Coordinate = Coordinate(beat: int, seq_: int, head: Text, size: int, root: Text)

  datatype HeadLine = HeadLine(at: int, coordinate: Coordinate)

  const NO_LINE := HeadLine(ZERO_TIME, Coordinate(0, 0, BLANK, 0, BLANK))

  datatype Recorded = Recorded(at: int, kind: Kind)

  /** What an enrollment fixes for the pushes under it: the label, when it began, and its term. */
  datatype Enrolled = Enrolled(name: string, at: int, expires: int)

  datatype Disk = Disk(checkpoint: Option<Checkpoint>, heads: List<HeadLine>, findings: List<Recorded>)

  /** A record nothing was written to. */
  const EMPTY := Disk(None, End, End)

  /** b is a with more in its logs. */
  ghost predicate Adds(a: Disk, b: Disk) {
    Begins(a.heads, b.heads) && Begins(a.findings, b.findings) && (a.checkpoint.Some? ==> b.checkpoint.Some?)
  }

  datatype Memory = Memory(checkpoint: Option<Checkpoint>, delta: set<Finding>, refusals: nat, notes: nat,
                           lastSeen: int, memorySince: int, lastHead: HeadLine, silent: bool)

  /** How one write goes. A process that dies at a write may or may not have made it durable. */
  datatype Fate = Works | Fails | Dies(written: bool)

  datatype Fates = Fates(heads: Fate, findings: Fate, save: Fate, answer: bool)

  datatype Subject = Claim(link: Text) | Head(size: int, root: Text)

  datatype Attestation = Attestation(signer: Key, at: int, subject: Subject)

  datatype Reply =
    | Countersigned(coordinate: Coordinate, claim: Attestation, head: Attestation, raised: seq<Finding>)
    | Refused(findings: seq<Finding>)
    | ProveFrom(size: int, beat: int, error: Error)
    | NotHeld
    | NoReply

  /** The state a push leaves. memory is none when the process died. */
  datatype Outcome = Outcome(disk: Disk, memory: Option<Memory>, reply: Reply)

  function CoordinateOf(c: Checkpoint): Coordinate {
    Coordinate(c.lastBeat, c.lastSeq, c.lastHead, c.size, c.root)
  }

  function Pushed(p: Push): Coordinate {
    Coordinate(p.beat, p.seq_, p.head, p.size, p.root)
  }

  // ---------------------------------------------------------------------------------------------
  // Deduplication
  // ---------------------------------------------------------------------------------------------

  /** Those of the first n findings whose identity the previous poll did not raise. */
  function FreshOf(prev: set<Finding>, found: seq<Finding>, n: nat): List<Finding>
    requires n <= |found|
  {
    if n == 0 then End
    else
      var before := FreshOf(prev, found, n - 1);
      if Identity(found[n - 1]) in prev then before else More(before, found[n - 1])
  }

  function Identities(found: seq<Finding>): set<Finding> {
    set f | f in found :: Identity(f)
  }

  class Delta {
    var prev: set<Finding>

    constructor ()
      ensures prev == {}
    {
      prev := {};
    }

    /** Answers with what is new since the last call, and starts over from this call's set. */
    method Fresh(found: seq<Finding>) returns (out: List<Finding>)
      modifies this
      ensures out == FreshOf(old(prev), found, |found|) && prev == Identities(found)
    {
      var next: set<Finding> := {};
      out := End;
      for i := 0 to |found|
        invariant out == FreshOf(prev, found, i) && prev == old(prev)
        invariant next == set j | 0 <= j < i :: Identity(found[j])
      {
        next := next + {Identity(found[i])};
        if Identity(found[i]) !in prev {
          out := More(out, found[i]);
        }
      }
      prev := next;
    }
  }

  /** The coordinate a finding is about, for the kinds a standing trouble raises again and again. */
  function Anchor(f: Finding): Option<(int, int)> {
    match f
    case MissingBeat(after, _) => Some((after, 0))
    case RewrittenPosition(position, _, _, _) => Some((position, 0))
    case SeqRegression(behind, _, _) => Some((behind, 0))
    case HeadRegression(behind, _) => Some((behind, 0))
    case StalledFeed(beat, _, _) => Some((beat, 0))
    case RewrittenTree(base, _, _, _) => Some((base, 0))
    case DuplicateBeat(beat, heldSize, _) => Some((beat, heldSize))
    case FirstRoot(size, _) => Some((size, 0))
    case _ => None
  }

  /** Whether two findings were raised by the same rule. */
  predicate SameRule(f: Finding, g: Finding) {
    KindOf(f) == KindOf(g) && f.RewrittenTree? == g.RewrittenTree?
  }

  /**
    Two findings count as one exactly when the same rule raised them about the same coordinate, or, for a
    rule tied to no coordinate, when they say the same in full.
  */
  lemma CountAsOne(f: Finding, g: Finding)
    ensures Identity(f) == Identity(g) <==> SameRule(f, g) && (if Anchor(f).Some? then Anchor(f) == Anchor(g) else f == g)
  {
  }

  /** A finding is fresh exactly when it was raised now and its identity was not raised before. */
  lemma {:induction false} FreshExactly(prev: set<Finding>, found: seq<Finding>, n: nat, f: Finding)
    requires n <= |found|
    ensures Contains(FreshOf(prev, found, n), f) <==> Identity(f) !in prev && exists i :: 0 <= i < n && found[i] == f
  {
    if n > 0 {
      FreshExactly(prev, found, n - 1, f);
    }
  }

  lemma {:induction false} NothingFreshTwice(found: seq<Finding>, n: nat)
    requires n <= |found|
    ensures FreshOf(Identities(found), found, n) == End
  {
    if n > 0 {
      NothingFreshTwice(found, n - 1);
      assert found[n - 1] in found;
    }
  }

  function Classify(found: List<Finding>, now: int): List<Recorded> {
    match found
    case End => End
    case More(front, last) => More(Classify(front, now), Recorded(now, KindOf(last)))
  }

  function Append<T>(log: List<T>, added: List<T>): List<T> {
    match added
    case End => log
    case More(front, last) => More(Append(log, front), last)
  }

  function Refusals(log: List<Recorded>): nat {
    match log
    case End => 0
    case More(front, last) => Refusals(front) + if IsNote(last.kind) then 0 else 1
  }

  function Notes(log: List<Recorded>): nat {
    match log
    case End => 0
    case More(front, last) => Notes(front) + if IsNote(last.kind) then 1 else 0
  }

  // ---------------------------------------------------------------------------------------------
  // A push, write by write
  // ---------------------------------------------------------------------------------------------

  /** What one write of a push leaves: the push goes on, or it stops with a reply. */
  datatype Stage = Go(disk: Disk, memory: Memory) | Stop(outcome: Outcome)

  function WriteHead(d: Disk, m: Memory, line: HeadLine, fate: Fate): Stage {
    if line.coordinate == m.lastHead.coordinate then Go(d, m)
    else
      var written := d.(heads := More(d.heads, line));
      match fate
      case Works => Go(written, m.(lastHead := line,
                                   memorySince := if m.memorySince == ZERO_TIME then line.at else m.memorySince))
      case Fails => Stop(Outcome(d, Some(m), NotHeld))
      case Dies(w) => Stop(Outcome(if w then written else d, None, NoReply))
  }

  /** Records the findings not raised before. A failed write rolls the deduplication back. */
  function WriteFindings(d: Disk, m: Memory, found: seq<Finding>, now: int, fate: Fate): Stage {
    var added := Classify(FreshOf(m.delta, found, |found|), now);
    var after := m.(delta := Identities(found), refusals := m.refusals + Refusals(added), notes := m.notes + Notes(added));
    if added.End? then Go(d, after)
    else
      var written := d.(findings := Append(d.findings, added));
      match fate
      case Works => Go(written, after)
      case Fails => Stop(Outcome(d, Some(m), NotHeld))
      case Dies(w) => Stop(Outcome(if w then written else d, None, NoReply))
  }

  /**
    What one attempt recorded the next does not record again, though nothing after it was saved, and
    what one attempt could not write the next writes.
  */
  lemma FindingsRecordedOnce(d: Disk, m: Memory, found: seq<Finding>, now: int, later: int, first: Fate, second: Fate)
    ensures var s := WriteFindings(d, m, found, now, first);
            && (s.Go? ==> WriteFindings(s.disk, s.memory, found, later, second) == s)
            && (s.Stop? && s.outcome.memory.Some? ==> s.outcome.disk == d && s.outcome.memory == Some(m))
  {
    NothingFreshTwice(found, |found|);
  }

  /** The two attestations over what c holds, by the key whose word it was then. */
  function Countersign(c: Checkpoint, ring: Keyring, raised: seq<Finding>, now: int): Reply {
    var mint := MintingKey(ring, c.observedAt, now);
    if !c.lastHead.Hex? || !c.root.Hex? || c.size < 1 || mint.at == ZERO_TIME then NotHeld
    else Countersigned(CoordinateOf(c), Attestation(mint.key, mint.at, Claim(c.lastHead)),
                       Attestation(mint.key, mint.at, Head(c.size, c.root)), raised)
  }

  function SaveCheckpoint(d: Disk, m: Memory, ring: Keyring, next: Checkpoint, found: seq<Finding>, now: int, fate: Fate): Outcome {
    var signed := next.(signer := Some(ring.current));
    var saved := d.(checkpoint := Some(signed));
    match fate
    case Works => Outcome(saved, Some(m.(checkpoint := Some(signed), lastSeen := now, silent := false)), Countersign(signed, ring, found, now))
    case Fails => Outcome(d, Some(m), NotHeld)
    case Dies(w) => Outcome(if w then saved else d, None, NoReply)
  }

  function Refuse(d: Disk, m: Memory, found: seq<Finding>, now: int, fates: Fates): Outcome {
    match WriteFindings(d, m, found, now, fates.findings)
    case Stop(o) => o
    case Go(d', m') => Outcome(d', Some(m'.(lastSeen := now, silent := false)), Refused(found))
  }

  /** Memory before testimony: the head line, the findings, the checkpoint, and only then the answer. */
  function Adopt(d: Disk, m: Memory, ring: Keyring, p: Push, next: Checkpoint, found: seq<Finding>, now: int, fates: Fates): Outcome {
    match WriteHead(d, m, HeadLine(now, Pushed(p)), fates.heads)
    case Stop(o) => o
    case Go(d1, m1) =>
      match WriteFindings(d1, m1, found, now, fates.findings)
      case Stop(o) => o
      case Go(d2, m2) => SaveCheckpoint(d2, m2, ring, next, found, now, fates.save)
  }

  /** loadMemory over the saved checkpoint. */
  predicate MemoryReads(ring: Keyring, c: Option<Checkpoint>) {
    c.None? || (c.value.signer.Some? && MemoryLoads(ring, c.value.signer.value, c.value.observedAt))
  }

  predicate Lapsed(rec: Enrolled, now: int) {
    rec.expires != ZERO_TIME && now > rec.expires + LAPSE_GRACE
  }

  /** hold, for an install whose rate limiter answered allowed. */
  function Judge(rec: Enrolled, ring: Keyring, d: Disk, m: Memory, p: Push, now: int, allowed: bool, fates: Fates): Outcome {
    if p.installID != rec.name || !allowed || Lapsed(rec, now) || !MemoryReads(ring, d.checkpoint) then Outcome(d, Some(m), NotHeld)
    else
      var r := CheckPush(d.checkpoint, rec.name, p, now);
      if r.Failed? then
        Outcome(d, Some(m), if r.error.ProofBase? || r.error.Stale?
                            then ProveFrom(HeldSize(d.checkpoint), if d.checkpoint.Some? then d.checkpoint.value.lastBeat else 0, r.error)
                            else NotHeld)
      else if !HoldsPush(Some(r.next), p) then Refuse(d, m, r.found, now, fates)
      else if HoldsPush(d.checkpoint, p) then Outcome(d, Some(m), Countersign(d.checkpoint.value, ring, [], now))
      else Adopt(d, m, ring, p, r.next, r.found, now, fates)
  }

  /**
    A term that ran out is a push not allowed. So a run over an enrollment with no term, its pushes
    allowed or not at will, is any run over one whose term ends or is renewed along the way.
  */
  lemma LapseIsNotAllowed(rec: Enrolled, ring: Keyring, d: Disk, m: Memory, p: Push, now: int, allowed: bool, fates: Fates)
    ensures Judge(rec, ring, d, m, p, now, allowed, fates)
         == Judge(rec.(expires := ZERO_TIME), ring, d, m, p, now, allowed && !Lapsed(rec, now), fates)
    ensures Load(rec, ring, d) == Load(rec.(expires := ZERO_TIME), ring, d)
  {
  }

  /** A push as its sender sees it: the process may die after its last write and before it answers. */
  function Hold(rec: Enrolled, ring: Keyring, d: Disk, m: Memory, p: Push, now: int, allowed: bool, fates: Fates): Outcome {
    var o := Judge(rec, ring, d, m, p, now, allowed, fates);
    if fates.answer then o else Outcome(o.disk, None, NoReply)
  }

  // ---------------------------------------------------------------------------------------------
  // Starting, and noting silence
  // ---------------------------------------------------------------------------------------------

  /** When the first line that carries a time was written. */
  function Since(heads: List<HeadLine>): int {
    match heads
    case End => ZERO_TIME
    case More(front, last) => if Since(front) == ZERO_TIME then last.at else Since(front)
  }

  function LastLine(heads: List<HeadLine>): HeadLine {
    match heads
    case End => NO_LINE
    case More(_, last) => last
  }

  function Later(a: int, b: int): int {
    if a > b then a else b
  }

  /** When the newest finding a push left was recorded. */
  function LastPush(log: List<Recorded>): int {
    match log
    case End => ZERO_TIME
    case More(front, last) =>
      if last.kind.Silent_Install? || last.kind.Memory_Restored? then LastPush(front) else Later(last.at, LastPush(front))
  }

  function LastSilent(log: List<Recorded>): int {
    match log
    case End => ZERO_TIME
    case More(front, last) => if last.kind.Silent_Install? then Later(last.at, LastSilent(front)) else LastSilent(front)
  }

  /** What disk shows of the install's last push: the enrollment, a recorded finding, or an adoption. */
  function LastTrace(rec: Enrolled, d: Disk): int {
    var seen := Later(LastPush(d.findings), rec.at);
    if d.checkpoint.Some? then Later(d.checkpoint.value.observedAt, seen) else seen
  }

  /** loadInstall. None is a record that stops the start. */
  function Load(rec: Enrolled, ring: Keyring, d: Disk): Option<Memory> {
    if !MemoryReads(ring, d.checkpoint) || (d.checkpoint.Some? && d.checkpoint.value.installID != rec.name) then None
    else
      var lastSeen, lastSilent := LastTrace(rec, d), LastSilent(d.findings);
      Some(Memory(d.checkpoint, {}, Refusals(d.findings), Notes(d.findings), lastSeen, Since(d.heads), LastLine(d.heads),
                  lastSilent != ZERO_TIME && lastSilent >= lastSeen))
  }

  predicate FallsSilent(m: Memory, startedAt: int, now: int) {
    !m.silent && now - Later(m.lastSeen, startedAt) > STALE_AFTER
  }

  /** Appends one note of the witness's own, counting it when it is on disk. */
  function WriteNote(d: Disk, m: Memory, kind: Kind, now: int, fate: Fate): Outcome {
    var written := d.(findings := More(d.findings, Recorded(now, kind)));
    match fate
    case Works => Outcome(written, Some(m.(notes := m.notes + 1, silent := m.silent || kind.Silent_Install?)), NoReply)
    case Fails => Outcome(d, Some(m), NoReply)
    case Dies(w) => Outcome(if w then written else d, None, NoReply)
  }

  /** The sweep's look at one record that is not due for deletion. */
  function Sweep(d: Disk, m: Memory, startedAt: int, now: int, fate: Fate): Outcome {
    if FallsSilent(m, startedAt, now) then WriteNote(d, m, Silent_Install, now, fate) else Outcome(d, Some(m), NoReply)
  }
}
