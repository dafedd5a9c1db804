/**
  The install object as the service runs it: its fields are the record's files and what memory keeps
  beside them, and its methods change both in place. Each is held to the pure account in Record.
*/
module Install {
  import opened Options
  import opened SnocLists
  import opened PushRules
  import opened Keyring
  import opened Record
  import RecordRuns

  class Install {
    const rec: Enrolled

    // The record's files.
    var checkpointFile: Option<Checkpoint>
    var headLog: List<HeadLine>
    var findingsLog: List<Recorded>

    // What memory keeps.
    var checkpoint: Option<Checkpoint>
    const delta: Delta
    var refusals: nat
    var notes: nat
    var lastSeen: int
    var memorySince: int
    var lastHead: HeadLine
    var silent: bool
    /** Whether the sweep deleted the record. */
    var gone: bool

    function OnDisk(): Disk
      reads this
    {
      Disk(checkpointFile, headLog, findingsLog)
    }

    function InMemory(): Memory
      reads this, delta
    {
      Memory(checkpoint, delta.prev, refusals, notes, lastSeen, memorySince, lastHead, silent)
    }

    /** The object's memory is what its files say. */
    ghost predicate InAgreement()
      reads this, delta
    {
      RecordRuns.Good(rec, OnDisk(), Some(InMemory()))
    }

    /** A fresh enrollment: an empty record, heard from at the moment it enrolled. */
    constructor (rec: Enrolled)
      ensures this.rec == rec && OnDisk() == Disk(None, End, End)
      ensures InMemory() == Memory(None, {}, 0, 0, rec.at, ZERO_TIME, NO_LINE, false)
    {
      this.rec := rec;
      checkpointFile, headLog, findingsLog := None, End, End;
      var d := new Delta();
      checkpoint, delta, refusals, notes := None, d, 0, 0;
      lastSeen, memorySince, lastHead, silent, gone := rec.at, ZERO_TIME, NO_LINE, false, false;
    }

    /** loadInstall over the record a directory holds; ok is false when the record stops the start. */
    method LoadInstall(ring: Keyring) returns (ok: bool)
      modifies this, delta
      ensures OnDisk() == old(OnDisk())
      ensures ok <==> Record.Load(rec, ring, OnDisk()).Some?
      ensures ok ==> InMemory() == Record.Load(rec, ring, OnDisk()).value
    {
      if !MemoryReads(ring, checkpointFile) {
        return false;
      }
      if checkpointFile.Some? && checkpointFile.value.installID != rec.name {
        return false;
      }
      checkpoint, delta.prev := checkpointFile, {};
      memorySince, lastHead := Since(headLog), LastLine(headLog);
      refusals, notes := Refusals(findingsLog), Notes(findingsLog);
      lastSeen := rec.at;
      if LastPush(findingsLog) > lastSeen {
        lastSeen := LastPush(findingsLog);
      }
      if checkpoint.Some? && checkpoint.value.observedAt > lastSeen {
        lastSeen := checkpoint.value.observedAt;
      }
      var lastSilent := LastSilent(findingsLog);
      silent := lastSilent != ZERO_TIME && lastSilent >= lastSeen;
      ok := true;
    }

    /**
      Appends the findings not raised before. died is whether the process stopped at the write;
      otherwise ok is whether the write was made, and a failed one leaves nothing changed.
    */
    method RecordFresh(found: seq<Finding>, now: int, fate: Fate) returns (ok: bool, died: bool)
      modifies this`findingsLog, this`refusals, this`notes, delta
      ensures var s := WriteFindings(old(OnDisk()), old(InMemory()), found, now, fate);
              OnDisk() == (if s.Go? then s.disk else s.outcome.disk)
              && ok == s.Go? && died == (s.Stop? && s.outcome.memory.None?)
              && (s.Go? ==> InMemory() == s.memory) && (s.Stop? && !died ==> InMemory() == old(InMemory()))
    {
      var saved := delta.prev;
      var fresh_ := delta.Fresh(found);
      var added := Classify(fresh_, now);
      if added.More? {
        match fate {
          case Works =>
            findingsLog := Append(findingsLog, added);
          case Fails =>
            delta.prev := saved;
            return false, false;
          case Dies(w) =>
            if w {
              findingsLog := Append(findingsLog, added);
            }
            return false, true;
        }
      }
      refusals, notes := refusals + Refusals(added), notes + Notes(added);
      return true, false;
    }

    /** Adds a head line unless the newest one names its coordinate. */
    method AppendHead(line: HeadLine, fate: Fate) returns (ok: bool, died: bool)
      modifies this`headLog, this`lastHead, this`memorySince
      ensures var s := WriteHead(old(OnDisk()), old(InMemory()), line, fate);
              OnDisk() == (if s.Go? then s.disk else s.outcome.disk)
              && ok == s.Go? && died == (s.Stop? && s.outcome.memory.None?)
              && (s.Go? ==> InMemory() == s.memory) && (s.Stop? && !died ==> InMemory() == old(InMemory()))
    {
      if line.coordinate == lastHead.coordinate {
        return true, false;
      }
      if fate.Fails? {
        return false, false;
      }
      if fate.Works? || fate.written {
        headLog := More(headLog, line);
      }
      if fate.Dies? {
        return false, true;
      }
      lastHead := line;
      if memorySince == ZERO_TIME {
        memorySince := line.at;
      }
      return true, false;
    }

    /** A refusal: what is new goes on record, or the push fails whole. */
    method RefusePush(found: seq<Finding>, now: int, fates: Fates) returns (reply: Reply, alive: bool)
      modifies this, delta
      ensures gone == old(gone)
      ensures Does(Refuse(old(OnDisk()), old(InMemory()), found, now, fates), reply, alive)
    {
      var ok, died := RecordFresh(found, now, fates.findings);
      if !ok {
        return if died then NoReply else NotHeld, !died;
      }
      lastSeen, silent := now, false;
      return Refused(found), true;
    }

    /** The part of hold that adopts a push: memory before testimony. */
    method AdoptPush(ring: Keyring, p: Push, next: Checkpoint, found: seq<Finding>, now: int, fates: Fates)
      returns (reply: Reply, alive: bool)
      modifies this, delta
      ensures gone == old(gone)
      ensures Does(Adopt(old(OnDisk()), old(InMemory()), ring, p, next, found, now, fates), reply, alive)
    {
      var ok, died := AppendHead(HeadLine(now, Pushed(p)), fates.heads);
      if !ok {
        return if died then NoReply else NotHeld, !died;
      }
      ok, died := RecordFresh(found, now, fates.findings);
      if !ok {
        return if died then NoReply else NotHeld, !died;
      }
      if fates.save.Fails? {
        return NotHeld, true;
      }
      var signed := next.(signer := Some(ring.current));
      if fates.save.Works? || fates.save.written {
        checkpointFile := Some(signed);
      }
      if fates.save.Dies? {
        return NoReply, false;
      }
      checkpoint, lastSeen, silent := Some(signed), now, false;
      return Countersign(signed, ring, found, now), true;
    }

    /** The object, its files and the answer are what o says. */
    ghost predicate Does(o: Outcome, reply: Reply, alive: bool)
      reads this, delta
    {
      OnDisk() == o.disk && reply == o.reply && alive == o.memory.Some? && (alive ==> InMemory() == o.memory.value)
    }

    /**
      hold under the install's lock, in a process whose writes meet the given fates. An object in
      agreement with its files stays so, its checkpoint file only moves to what extends it, and it
      countersigns only what that file and the head log then hold. One whose record was deleted answers
      as if never enrolled and touches no file.
    */
    method HoldPush(ring: Keyring, p: Push, now: int, allowed: bool, fates: Fates) returns (reply: Reply, alive: bool)
      modifies this, delta
      ensures gone == old(gone)
      ensures gone ==> Does(Outcome(old(OnDisk()), Some(old(InMemory())), NotHeld), reply, alive)
      ensures !gone ==> Does(Judge(rec, ring, old(OnDisk()), old(InMemory()), p, now, allowed, fates), reply, alive)
      ensures old(InAgreement()) && now > 0 ==>
                && RecordRuns.DiskGood(rec, OnDisk()) && (alive ==> InAgreement())
                && RecordRuns.Forward(old(checkpointFile), checkpointFile)
                && (reply.Countersigned? ==>
                      && checkpointFile.Some? && reply.coordinate == CoordinateOf(checkpointFile.value)
                      && RecordRuns.Logged(headLog, reply.coordinate)
                      && reply.claim.subject == Claim(reply.coordinate.head)
                      && reply.head.subject == Head(reply.coordinate.size, reply.coordinate.root))
                && (reply.ProveFrom? ==>
                      && checkpointFile == old(checkpointFile)
                      && reply.size == (if checkpointFile.None? then 0 else checkpointFile.value.size)
                      && reply.beat == (if checkpointFile.None? then 0 else checkpointFile.value.lastBeat))
    {
      if InAgreement() && now > 0 {
        JudgeGood(rec, ring, OnDisk(), InMemory(), p, now, allowed, fates);
      }
      if gone || p.installID != rec.name || !allowed || Lapsed(rec, now) || !MemoryReads(ring, checkpointFile) {
        return NotHeld, true;
      }
      var prev := checkpointFile;
      var r := CheckPush(prev, rec.name, p, now);
      if r.Failed? {
        if r.error.ProofBase? || r.error.Stale? {
          return ProveFrom(HeldSize(prev), if prev.Some? then prev.value.lastBeat else 0, r.error), true;
        }
        return NotHeld, true;
      }
      if !HoldsPush(Some(r.next), p) {
        reply, alive := RefusePush(r.found, now, fates);
      } else if HoldsPush(prev, p) {
        return Countersign(prev.value, ring, [], now), true;
      } else {
        reply, alive := AdoptPush(ring, p, r.next, r.found, now, fates);
      }
    }
  }

  lemma JudgeGood(rec: Enrolled, ring: Keyring, d: Disk, m: Memory, p: Push, now: int, allowed: bool, fates: Fates)
    requires RecordRuns.Good(rec, d, Some(m)) && now > 0
    ensures var o := Judge(rec, ring, d, m, p, now, allowed, fates);
            RecordRuns.Good(rec, o.disk, o.memory) && RecordRuns.Remembered(o) && RecordRuns.Forward(d.checkpoint, o.disk.checkpoint)
            && RecordRuns.Told(d, m, o)
  {
    RecordRuns.HoldGood(rec, ring, d, m, p, now, allowed, fates.(answer := true));
    RecordRuns.HoldForward(rec, ring, d, m, p, now, allowed, fates.(answer := true));
    AnsweredAlike(rec, ring, d, m, p, now, allowed, fates);
    RecordRuns.ToldExactly(rec, ring, d, m, p, now, allowed, fates);
  }

  /** Whether a process lives to answer changes nothing it writes. */
  lemma AnsweredAlike(rec: Enrolled, ring: Keyring, d: Disk, m: Memory, p: Push, now: int, allowed: bool, fates: Fates)
    ensures Hold(rec, ring, d, m, p, now, allowed, fates.(answer := true)) == Judge(rec, ring, d, m, p, now, allowed, fates)
  {
  }
}
