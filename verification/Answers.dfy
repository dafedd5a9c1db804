/**
  What the witness answers a push, said over the saved checkpoint and the push alone: when it
  countersigns and what, when it refuses, and when it tells the sender to prove again and from where. A
  sender that does as it was told is then countersigned.
*/
module Answers {
  import opened Options
  import opened SnocLists
  import opened Merkle
  import opened PushRules
  import opened PushLaws
  import opened PushExact
  import opened HonestInstall
  import opened Keyring
  import opened KeyringWord
  import opened Record
  import opened RecordRuns

  /** The push is this record's to judge: its label, the limiter, the term and the saved memory all say so. */
  predicate Judges(rec: Enrolled, ring: Keyring, d: Disk, p: Push, now: int, allowed: bool) {
    && p.installID == rec.name && allowed && (rec.expires != ZERO_TIME ==> now <= rec.expires + LAPSE_GRACE)
    && MemoryReads(ring, d.checkpoint)
  }

  /** The tree size saved, and the beat. */
  function SavedSize(d: Disk): int {
    match d.checkpoint
    case None => 0
    case Some(c) => c.size
  }

  function SavedBeat(d: Disk): int {
    match d.checkpoint
    case None => 0
    case Some(c) => c.lastBeat
  }

  lemma SavedHeld(rec: Enrolled, d: Disk, p: Push)
    requires DiskGood(rec, d) && rec.name != "" && p.installID == rec.name
    ensures HeldSize(d.checkpoint) == SavedSize(d) && Addressed(d.checkpoint, rec.name, p)
  {
    NormalizeTwice(rec.name);
  }

  /** A push that is not this record's to judge, or out of form, changes nothing and is answered nothing. */
  lemma NotJudgedLeavesAll(rec: Enrolled, ring: Keyring, d: Disk, m: Memory, p: Push, now: int, allowed: bool, fates: Fates)
    requires DiskGood(rec, d) && rec.name != ""
    requires !Judges(rec, ring, d, p, now, allowed) || !WellFormed(p)
    ensures Judge(rec, ring, d, m, p, now, allowed, fates) == Outcome(d, Some(m), NotHeld)
  {
    if Judges(rec, ring, d, p, now, allowed) {
      SavedHeld(rec, d, p);
      FormDecides(d.checkpoint, rec.name, p, now);
    }
  }

  /**
    Told to prove again: exactly when memory does not hold the push and it proves from another size or
    claims a smaller tree. The answer names the size and the beat saved, and nothing is written.
  */
  lemma ProveFromExactly(rec: Enrolled, ring: Keyring, d: Disk, m: Memory, p: Push, now: int, fates: Fates)
    requires DiskGood(rec, d) && rec.name != "" && Judges(rec, ring, d, p, now, true) && WellFormed(p)
    ensures var o := Judge(rec, ring, d, m, p, now, true, fates);
            && (o.reply.ProveFrom? <==> !HoldsPush(d.checkpoint, p) && (p.fromSize != SavedSize(d) || p.size < SavedSize(d)))
            && (o.reply.ProveFrom? ==> o.disk == d && o.memory == Some(m) && o.reply.size == SavedSize(d) && o.reply.beat == SavedBeat(d))
  {
    SavedHeld(rec, d, p);
    PushDecides(d.checkpoint, rec.name, p, now);
    ToldExactly(rec, ring, d, m, p, now, true, fates);
  }

  const ALL_WRITTEN := Fates(Works, Works, Works, true)

  /**
    Countersigned, with every write made: exactly when memory holds the push already or the push is
    adoptable, and then over the push's own link, size and root. Otherwise, proving from the saved size,
    it is refused, and the saved checkpoint stays.
  */
  lemma CountersignedExactly(rec: Enrolled, ring: Keyring, d: Disk, m: Memory, p: Push, now: int)
    requires Good(rec, d, Some(m)) && rec.name != "" && Judges(rec, ring, d, p, now, true) && WellFormed(p) && now > 0
    requires HoldsPush(d.checkpoint, p) || p.fromSize == SavedSize(d) <= p.size
    ensures var o := Judge(rec, ring, d, m, p, now, true, ALL_WRITTEN);
            && (HoldsPush(d.checkpoint, p) || Adoptable(d.checkpoint, p) ==>
                  && o.reply.Countersigned? && o.reply.coordinate == Pushed(p)
                  && o.reply.claim.subject == Claim(p.head) && o.reply.head.subject == Head(p.size, p.root)
                  && o.disk.checkpoint.Some? && HoldsPush(o.disk.checkpoint, p))
            && (HoldsPush(d.checkpoint, p) ==> o.disk == d && o.memory == Some(m))
            && (!HoldsPush(d.checkpoint, p) ==> o.memory.Some? && o.memory.value.lastSeen == now && !o.memory.value.silent)
            && (!HoldsPush(d.checkpoint, p) && !Adoptable(d.checkpoint, p) ==>
                  && CheckPush(d.checkpoint, rec.name, p, now).Judged? && o.reply == Refused(CheckPush(d.checkpoint, rec.name, p, now).found)
                  && o.disk.checkpoint == d.checkpoint)
  {
    SavedHeld(rec, d, p);
    PushDecides(d.checkpoint, rec.name, p, now);
    var r := CheckPush(d.checkpoint, rec.name, p, now);
    if HoldsPush(d.checkpoint, p) {
      RetrySigned(rec, ring, d.checkpoint.value, p, now);
    } else if Adoptable(d.checkpoint, p) {
      ThreeWaySplit(d.checkpoint, rec.name, p, now);
      AdoptedSaved(rec, d, p, now);
      AdoptSigned(rec, ring, d, m, p, r.next, r.found, now);
    } else {
      RefuseAnswers(d, m, r.found, now);
    }
  }

  lemma RetrySigned(rec: Enrolled, ring: Keyring, c: Checkpoint, p: Push, now: int)
    requires Saved(rec, c) && HoldsPush(Some(c), p) && now > 0
    ensures var reply := Countersign(c, ring, [], now);
            && reply.Countersigned? && reply.coordinate == Pushed(p)
            && reply.claim.subject == Claim(p.head) && reply.head.subject == Head(p.size, p.root)
  {
  }

  lemma AdoptSigned(rec: Enrolled, ring: Keyring, d: Disk, m: Memory, p: Push, next: Checkpoint, found: seq<Finding>, now: int)
    requires Saved(rec, next) && HoldsPush(Some(next), p) && now > 0
    ensures var o := Adopt(d, m, ring, p, next, found, now, ALL_WRITTEN);
            && o.reply.Countersigned? && o.reply.coordinate == Pushed(p)
            && o.reply.claim.subject == Claim(p.head) && o.reply.head.subject == Head(p.size, p.root)
            && o.disk.checkpoint == Some(next.(signer := Some(ring.current)))
            && o.memory.Some? && o.memory.value.lastSeen == now && !o.memory.value.silent
  {
  }

  lemma RefuseAnswers(d: Disk, m: Memory, found: seq<Finding>, now: int)
    ensures var o := Refuse(d, m, found, now, ALL_WRITTEN);
            && o.reply == Refused(found) && o.disk.checkpoint == d.checkpoint && o.disk.heads == d.heads
            && o.memory.Some? && o.memory.value.lastSeen == now && !o.memory.value.silent
  {
  }

  /** A coordinate is countersigned exactly when its link and root are digests, its tree holds something and there is a time to sign at. */
  lemma CountersignExactly(c: Checkpoint, ring: Keyring, raised: seq<Finding>, now: int)
    ensures var reply, mint := Countersign(c, ring, raised, now), MintingKey(ring, c.observedAt, now);
            if c.lastHead.Hex? && c.root.Hex? && c.size >= 1 && mint.at != ZERO_TIME
            then reply == Countersigned(Coordinate(c.lastBeat, c.lastSeq, c.lastHead, c.size, c.root), Attestation(mint.key, mint.at, Claim(c.lastHead)),
                                        Attestation(mint.key, mint.at, Head(c.size, c.root)), raised)
            else reply == NotHeld
  {
  }

  // ---------------------------------------------------------------------------------------------
  // What each fate of a write leaves
  // ---------------------------------------------------------------------------------------------

  /** A write the process dies at leaves on disk what it would have left done, or what it would have left failed. */
  lemma DeathLeaves(d: Disk, m: Memory, ring: Keyring, line: HeadLine, next: Checkpoint, found: seq<Finding>, now: int, written: bool)
    ensures var fate := if written then Works else Fails;
            && LeftOnDisk(WriteHead(d, m, line, Fate.Dies(written))) == LeftOnDisk(WriteHead(d, m, line, fate))
            && LeftOnDisk(WriteFindings(d, m, found, now, Fate.Dies(written))) == LeftOnDisk(WriteFindings(d, m, found, now, fate))
            && SaveCheckpoint(d, m, ring, next, found, now, Fate.Dies(written)).disk == SaveCheckpoint(d, m, ring, next, found, now, fate).disk
            && SaveCheckpoint(d, m, ring, next, found, now, Fate.Dies(written)).memory == None
  {
  }

  function LeftOnDisk(s: Stage): Disk {
    if s.Go? then s.disk else s.outcome.disk
  }

  /** What each write of an adoption does when it works: one head line unless it is the newest already, the fresh findings, the checkpoint under the current key. */
  lemma WorkingWrites(d: Disk, m: Memory, ring: Keyring, line: HeadLine, next: Checkpoint, found: seq<Finding>, now: int)
    ensures var s := WriteHead(d, m, line, Works);
            && s.Go? && s.disk == (if line.coordinate == m.lastHead.coordinate then d else d.(heads := More(d.heads, line)))
            && s.memory.lastHead.coordinate == line.coordinate
            && (m.memorySince == ZERO_TIME && line.coordinate != m.lastHead.coordinate ==> s.memory.memorySince == line.at)
            && (m.memorySince != ZERO_TIME ==> s.memory.memorySince == m.memorySince)
    ensures var s := WriteFindings(d, m, found, now, Works);
            && s.Go? && s.disk.heads == d.heads && s.disk.checkpoint == d.checkpoint && s.memory.delta == Identities(found)
            && (forall r :: Contains(s.disk.findings, r) <==>
                  Contains(d.findings, r) || (r.at == now && exists f :: Contains(FreshOf(m.delta, found, |found|), f) && r.kind == KindOf(f)))
    ensures var o := SaveCheckpoint(d, m, ring, next, found, now, Works);
            && o.disk == d.(checkpoint := Some(next.(signer := Some(ring.current))))
            && o.memory.Some? && o.memory.value.lastSeen == now && !o.memory.value.silent && o.memory.value.checkpoint == o.disk.checkpoint
  {
    var fresh_ := FreshOf(m.delta, found, |found|);
    forall r ensures Contains(Append(d.findings, Classify(fresh_, now)), r) <==>
                       Contains(d.findings, r) || (r.at == now && exists f :: Contains(fresh_, f) && r.kind == KindOf(f))
    {
      AppendLists(d.findings, Classify(fresh_, now), r);
      ClassifyLists(fresh_, now, r);
    }
  }

  lemma {:induction false} AppendLists<T(!new)>(log: List<T>, added: List<T>, x: T)
    ensures Contains(Append(log, added), x) <==> Contains(log, x) || Contains(added, x)
  {
    if added.More? { AppendLists(log, added.front, x); }
  }

  lemma {:induction false} ClassifyLists(found: List<Finding>, now: int, r: Recorded)
    ensures Contains(Classify(found, now), r) <==> r.at == now && exists f :: Contains(found, f) && r.kind == KindOf(f)
  {
    if found.More? {
      ClassifyLists(found.front, now, r);
      assert Contains(found, found.last);
      if f :| Contains(found.front, f) && r.kind == KindOf(f) {
        assert Contains(found, f);
      }
    }
  }

  /**
    Doing as one was told works. A growing install's push that is answered with a size is countersigned
    when the same beat is pushed again proved from that size, unless the beat is one the answered beat
    has passed.
  */
  lemma AnsweredSizeWorks(rec: Enrolled, ring: Keyring, d: Disk, m: Memory, h: History, b: int, from: int, now: int, fates: Fates, later: int)
    requires Good(rec, d, Some(m)) && rec.name != "" && Grows(h) && TrueMemory(d.checkpoint, h, rec.name) && b in h.beats
    requires ConsistencyProof(h.leaves, from, h.beats[b]).Some? && later > 0
    requires Judge(rec, ring, d, m, PushOf(h, rec.name, b, from), now, true, fates).reply.ProveFrom?
    requires Judges(rec, ring, d, PushOf(h, rec.name, b, from), now, true) && Judges(rec, ring, d, PushOf(h, rec.name, b, from), later, true)
    ensures var reply := Judge(rec, ring, d, m, PushOf(h, rec.name, b, from), now, true, fates).reply;
            if reply.size <= h.beats[b]
            then
              && ConsistencyProof(h.leaves, reply.size, h.beats[b]).Some?
              && var again := PushOf(h, rec.name, b, reply.size);
                 var o := Judge(rec, ring, d, m, again, later, true, ALL_WRITTEN);
                 o.reply.Countersigned? && o.reply.coordinate == Pushed(again)
            else b < reply.beat
  {
    HonestPushWellFormed(h, rec.name, b, from);
    ProveFromExactly(rec, ring, d, m, PushOf(h, rec.name, b, from), now, fates);
    var size := SavedSize(d);
    SavedHeld(rec, d, PushOf(h, rec.name, b, from));
    if size <= h.beats[b] {
      var again := PushOf(h, rec.name, b, size);
      HonestPushWellFormed(h, rec.name, b, size);
      HonestPushNeverRefused(d.checkpoint, h, rec.name, b, size, later);
      PushDecides(d.checkpoint, rec.name, again, later);
      CountersignedExactly(rec, ring, d, m, again, later);
    }
  }
}
