/**
  CheckPush decided outright, over the fields of the memory and of the push: which answer each push gets,
  what memory an adopted one leaves, and which findings a judged one raises.
*/
module PushExact {
  import opened Options
  import opened SnocLists
  import opened Merkle
  import opened PushRules
  import opened PushLaws

  /** The push and the memory are both the named install's. */
  predicate Addressed(prev: Option<Checkpoint>, id: string, p: Push) {
    && id != "" && p.installID == id
    && (prev.Some? ==>
          && (prev.value.installID == "" || prev.value.installID == id)
          && (prev.value.server == "" || NormalizeServer(prev.value.server) == NormalizeServer(id)))
  }

  /** What memory holds, read off its fields: a tree once there is a root, and a push when every member of its coordinate is the newest remembered. */
  lemma MemoryTells(c: Checkpoint, p: Push)
    ensures HeldSize(None) == 0 && HeldSize(Some(c)) == if c.root == Other("") then 0 else c.size
    ensures First(None) && (First(Some(c)) <==> c.root == Other(""))
    ensures !HoldsPush(None, p) && !HoldsBeat(None, p)
    ensures HoldsBeat(Some(c), p) <==> (c.lastBeat, c.lastSeq, c.lastHead) == (p.beat, p.seq_, p.head)
    ensures HoldsPush(Some(c), p) <==>
              c.root != Other("") && (c.lastBeat, c.lastSeq, c.lastHead, c.size, c.root) == (p.beat, p.seq_, p.head, p.size, p.root)
  {
  }

  /** Which kinds are the witness's own notes; every other kind accuses. */
  lemma NotesAreCoverage(kind: Kind)
    ensures IsNote(kind) <==> kind in {First_Root, Missing_Beat, Memory_Restored, Silent_Install}
  {
  }

  /** The push's tree grew from the one held, or none is held. */
  ghost predicate Grew(prev: Option<Checkpoint>, p: Push)
    requires WellFormed(p)
  {
    First(prev) || (prev.value.root.Hex? && VerifyConsistency(prev.value.size, p.size, prev.value.root.hash, p.root.hash, HashList(p.proof)))
  }

  /** Everything an adoption takes. Memory with a beat and no tree adopts that very beat whatever else it remembers. */
  ghost predicate Adoptable(prev: Option<Checkpoint>, p: Push)
    requires WellFormed(p)
  {
    && !HoldsPush(prev, p) && p.fromSize == HeldSize(prev) <= p.size && Grew(prev, p)
    && (if First(prev) then !HeldBack(prev, p.AsBeat()) || HoldsBeat(prev, p)
        else !HeldBack(prev, p.AsBeat()) && p.beat != prev.value.lastBeat)
  }

  /** Memory of nothing but the install's name. */
  predicate Blank(c: Checkpoint, id: string) {
    && c.server == id && c.installID == id && c.size == 0 && c.root == BLANK && c.lastBeat == 0 && c.lastSeq == 0 && c.lastHead == BLANK
    && c.recent == map[] && c.positions == map[] && c.observedAt == ZERO_TIME && c.signer == None
  }

  /** The memory an adoption leaves. */
  function Adopted(prev: Option<Checkpoint>, id: string, p: Push, now: int): Checkpoint {
    var recent, positions := if prev.Some? then prev.value.recent else map[], if prev.Some? then prev.value.positions else map[];
    Checkpoint(NormalizeServer(id), id, p.size, p.root, p.beat, p.seq_, p.head,
               KeepNewest(recent[p.beat := Observed(p.seq_, p.head)], RECENT_CAP),
               KeepNewest(positions[p.seq_ := p.head], RECENT_CAP),
               if HoldsBeat(prev, p) && prev.value.observedAt != ZERO_TIME then prev.value.observedAt else now, None)
  }

  lemma {:induction false} HexThroughout(proof: List<Text>)
    ensures AllHex(proof) <==> forall t :: Contains(proof, t) ==> t.Hex?
  {
    if proof.More? {
      HexThroughout(proof.front);
      if AllHex(proof) {
        forall t | Contains(proof, t) ensures t.Hex? {}
      } else if !proof.last.Hex? {
        assert Contains(proof, proof.last);
      } else {
        var t :| Contains(proof.front, t) && !t.Hex?;
        assert Contains(proof, t);
      }
    }
  }

  /**
    A push is in form exactly when its proof has at most sixty-four hashes, its beat, position and size lie
    between one and 2^40, and its link, its root and every hash of its proof are digests.
  */
  lemma FormExactly(p: Push)
    ensures WellFormed(p) <==>
              && Count(p.proof) <= 64 && (forall t :: Contains(p.proof, t) ==> t.Hex?) && p.head.Hex? && p.root.Hex?
              && 1 <= p.beat <= 1024 * 1024 * 1024 * 1024 && 1 <= p.seq_ <= 1024 * 1024 * 1024 * 1024
              && 1 <= p.size <= 1024 * 1024 * 1024 * 1024
  {
    HexThroughout(p.proof);
  }

  // ---------------------------------------------------------------------------------------------
  // What is answered
  // ---------------------------------------------------------------------------------------------

  lemma CheckJudges(prev: Option<Checkpoint>, id: string, b: Beat, now: int)
    ensures Check(prev, id, b, now).Failed? <==>
              prev.Some? && prev.value.server != "" && NormalizeServer(prev.value.server) != NormalizeServer(id)
    ensures Check(prev, id, b, now).Failed? ==> Check(prev, id, b, now).error == WrongMemory
  {
  }

  /** A push out of form, or not this install's, is an error and says which; any other is held to the memory. */
  lemma FormDecides(prev: Option<Checkpoint>, id: string, p: Push, now: int)
    ensures var r := CheckPush(prev, id, p, now);
            && (r == Failed(Malformed) <==> id == "" || p.installID != id || (Addressed(prev, id, p) && !WellFormed(p)))
            && (r == Failed(WrongMemory) <==> id != "" && p.installID == id && !Addressed(prev, id, p))
  {
    CheckJudges(prev, id, p.AsBeat(), now);
    if Addressed(prev, id, p) && WellFormed(p) {
      TreeErrors(prev, id, p, Check(prev, id, p.AsBeat(), now).next, WithoutStalled(Check(prev, id, p.AsBeat(), now).found));
    }
  }

  lemma TreeErrors(prev: Option<Checkpoint>, id: string, p: Push, next: Checkpoint, found: seq<Finding>)
    requires WellFormed(p)
    ensures var r := HoldTree(prev, id, p, next, found); r.Failed? ==> r.error.ProofBase? || r.error.Stale?
  {
  }

  /**
    The exact answer to a push in form. It is told to prove again exactly when it proves from another
    size, called stale exactly when it claims a smaller tree, recognised exactly when memory holds it,
    adopted exactly when its tree grew from the held one and nothing remembered contradicts its beat,
    and refused in every other case.
  */
  lemma PushDecides(prev: Option<Checkpoint>, id: string, p: Push, now: int)
    requires Addressed(prev, id, p) && WellFormed(p)
    ensures var r, held := CheckPush(prev, id, p, now), HeldSize(prev);
            && (r == Failed(ProofBase(held)) <==> !HoldsPush(prev, p) && p.fromSize != held)
            && (r == Failed(Stale(held, p.size)) <==> !HoldsPush(prev, p) && p.fromSize == held > p.size)
            && (r.Judged? <==> HoldsPush(prev, p) || p.fromSize == held <= p.size)
            && (HoldsPush(prev, p) ==> r == Judged(prev.value, []))
            && (r.Judged? && !HoldsPush(prev, p) ==> (HoldsPush(Some(r.next), p) <==> Adoptable(prev, p)))
            && (r.Judged? && !HoldsPush(prev, p) && !Adoptable(prev, p) ==> if prev.Some? then r.next == prev.value else Blank(r.next, id))
  {
    CheckJudges(prev, id, p.AsBeat(), now);
    CheckAdvances(prev, id, p.AsBeat(), now);
    var next := Check(prev, id, p.AsBeat(), now).next;
    assert HoldsBeat(Some(next), p) <==> !HeldBack(prev, p.AsBeat()) || HoldsBeat(prev, p);
    TreeDecides(prev, id, p, next, WithoutStalled(Check(prev, id, p.AsBeat(), now).found));
  }

  lemma TreeDecides(prev: Option<Checkpoint>, id: string, p: Push, next: Checkpoint, found: seq<Finding>)
    requires WellFormed(p) && (HoldsBeat(Some(next), p) <==> !HeldBack(prev, p.AsBeat()) || HoldsBeat(prev, p))
    ensures var r, held := HoldTree(prev, id, p, next, found), HeldSize(prev);
            && (r == Failed(ProofBase(held)) <==> !HoldsPush(prev, p) && p.fromSize != held)
            && (r == Failed(Stale(held, p.size)) <==> !HoldsPush(prev, p) && p.fromSize == held > p.size)
            && (r.Judged? <==> HoldsPush(prev, p) || p.fromSize == held <= p.size)
            && (HoldsPush(prev, p) ==> r == Judged(prev.value, []))
            && (r.Judged? && !HoldsPush(prev, p) ==> (HoldsPush(Some(r.next), p) <==> Adoptable(prev, p)))
            && (r.Judged? && !HoldsPush(prev, p) && !Adoptable(prev, p) ==> if prev.Some? then r.next == prev.value else Blank(r.next, id))
            && (Adoptable(prev, p) ==> r.Judged? && r.next == next.(installID := id, size := p.size, root := p.root))
  {
  }

  /** An adoption leaves exactly the push's coordinate, remembered with what was remembered before. */
  lemma AdoptionLeaves(prev: Option<Checkpoint>, id: string, p: Push, now: int)
    requires Addressed(prev, id, p) && WellFormed(p) && Adoptable(prev, p)
    requires !HeldBack(prev, p.AsBeat())
    ensures CheckPush(prev, id, p, now).Judged? && CheckPush(prev, id, p, now).next == Adopted(prev, id, p, now)
  {
    CheckJudges(prev, id, p.AsBeat(), now);
    CheckAdvances(prev, id, p.AsBeat(), now);
    TreeDecides(prev, id, p, Check(prev, id, p.AsBeat(), now).next, WithoutStalled(Check(prev, id, p.AsBeat(), now).found));
    CheckRemembers(prev, id, p.AsBeat(), now);
  }

  /** A beat nothing contradicts is remembered under its number and its position. */
  lemma CheckRemembers(prev: Option<Checkpoint>, id: string, b: Beat, now: int)
    requires Plausible(b) && Check(prev, id, b, now).Judged? && !HeldBack(prev, b)
    ensures var next := Check(prev, id, b, now).next;
            var recent, positions := if prev.Some? then prev.value.recent else map[], if prev.Some? then prev.value.positions else map[];
            && next.recent == KeepNewest(recent[b.beat := Observed(b.seq_, b.head)], RECENT_CAP)
            && next.positions == KeepNewest(positions[b.seq_ := b.head], RECENT_CAP)
            && next.server == NormalizeServer(id) && next.signer == None
            && next.observedAt == if prev.Some? && prev.value.lastBeat == b.beat && prev.value.lastSeq == b.seq_ && prev.value.lastHead == b.head
                                     && prev.value.observedAt != ZERO_TIME
                                  then prev.value.observedAt else now
  {
    var recent, positions := if prev.Some? then prev.value.recent else map[], if prev.Some? then prev.value.positions else map[];
    assert b.beat in recent ==> recent[b.beat := Observed(b.seq_, b.head)] == recent;
    assert b.seq_ in positions ==> positions[b.seq_ := b.head] == positions;
  }

  // ---------------------------------------------------------------------------------------------
  // What is found
  // ---------------------------------------------------------------------------------------------

  /** What the beat alone raises, held to what is remembered. */
  ghost predicate BeatRaises(prev: Option<Checkpoint>, b: Beat, f: Finding) {
    prev.Some? && var c, o := prev.value, Observed(b.seq_, b.head);
                  var renumbered := b.beat in c.recent && c.recent[b.beat] != o;
                  || (0 < c.lastBeat < b.beat - 1 && f == MissingBeat(c.lastBeat, b.beat))
                  || (renumbered && f == RewrittenBeat(b.beat, c.recent[b.beat], o))
                  || (!renumbered && b.seq_ in c.positions && c.positions[b.seq_] != b.head
                      && f == RewrittenPosition(b.seq_, c.positions[b.seq_], b.beat, b.head))
                  || (b.seq_ < c.lastSeq && 0 < c.lastSeq && c.lastBeat <= b.beat && f == SeqRegression(c.lastSeq, b.beat, b.seq_))
                  || (b.beat < c.lastBeat && f == HeadRegression(c.lastBeat, Some(b.beat)))
  }

  /** What the tree raises: it did not grow from the held one, it repeats the held beat, or it is the first. */
  ghost predicate TreeRaises(prev: Option<Checkpoint>, p: Push, f: Finding)
    requires WellFormed(p)
  {
    if First(prev) then Adoptable(prev, p) && f == FirstRoot(p.size, p.root)
    else if !Grew(prev, p) then f == RewrittenTree(prev.value.size, p.size, p.root, prev.value.root)
    else p.beat == prev.value.lastBeat && (!HeldBack(prev, p.AsBeat()) || HoldsBeat(prev, p)) && f == DuplicateBeat(p.beat, prev.value.size, p.size)
  }

  /** A judged push that is no retry raises exactly what its beat and its tree raise. */
  lemma FindingsDecided(prev: Option<Checkpoint>, id: string, p: Push, now: int, f: Finding)
    requires Addressed(prev, id, p) && WellFormed(p) && !HoldsPush(prev, p) && p.fromSize == HeldSize(prev) <= p.size
    ensures CheckPush(prev, id, p, now).Judged?
    ensures f in CheckPush(prev, id, p, now).found <==> BeatRaises(prev, p.AsBeat(), f) || TreeRaises(prev, p, f)
  {
    CheckJudges(prev, id, p.AsBeat(), now);
    CheckAdvances(prev, id, p.AsBeat(), now);
    CheckRaises(prev, id, p.AsBeat(), now, f);
    var checked := Check(prev, id, p.AsBeat(), now);
    TreeFindings(prev, id, p, checked.next, WithoutStalled(checked.found), f);
  }

  lemma CheckRaises(prev: Option<Checkpoint>, id: string, b: Beat, now: int, f: Finding)
    requires Plausible(b) && Check(prev, id, b, now).Judged?
    ensures f in WithoutStalled(Check(prev, id, b, now).found) <==> BeatRaises(prev, b, f)
  {
    CheckFound(prev, id, b, now);
    if prev.None? {
      NothingRaised(prev, id, b, now, f);
    } else {
      GapRaises(prev, b, f);
      WalkRaises(prev, id, b, now, f);
      FellRaises(prev, b, f);
      AdvanceRaises(prev, id, b, now, f);
    }
  }

  lemma NothingRaised(prev: Option<Checkpoint>, id: string, b: Beat, now: int, f: Finding)
    requires prev.None? && b.beat >= 1
    ensures var walk := WalkBeat(Carried(prev, id, now), b);
            Gap(prev, b) == [] && walk.found == [] && PositionFell(prev, b) == []
            && forall held :: Advance(walk.next, b, held).found == []
  {
  }

  lemma GapRaises(prev: Option<Checkpoint>, b: Beat, f: Finding)
    requires prev.Some?
    ensures f in Gap(prev, b) <==> 0 < prev.value.lastBeat < b.beat - 1 && f == MissingBeat(prev.value.lastBeat, b.beat)
  {
  }

  lemma WalkRaises(prev: Option<Checkpoint>, id: string, b: Beat, now: int, f: Finding)
    requires prev.Some?
    ensures var c, o := prev.value, Observed(b.seq_, b.head);
            var renumbered := b.beat in c.recent && c.recent[b.beat] != o;
            f in WalkBeat(Carried(prev, id, now), b).found <==>
              || (renumbered && f == RewrittenBeat(b.beat, c.recent[b.beat], o))
              || (!renumbered && b.seq_ in c.positions && c.positions[b.seq_] != b.head
                  && f == RewrittenPosition(b.seq_, c.positions[b.seq_], b.beat, b.head))
  {
  }

  lemma FellRaises(prev: Option<Checkpoint>, b: Beat, f: Finding)
    requires prev.Some?
    ensures var c := prev.value;
            f in PositionFell(prev, b) <==> b.seq_ < c.lastSeq && 0 < c.lastSeq && c.lastBeat <= b.beat && f == SeqRegression(c.lastSeq, b.beat, b.seq_)
  {
  }

  lemma AdvanceRaises(prev: Option<Checkpoint>, id: string, b: Beat, now: int, f: Finding)
    requires prev.Some?
    ensures var c := prev.value;
            forall held :: f in Advance(WalkBeat(Carried(prev, id, now), b).next, b, held).found <==>
                             b.beat < c.lastBeat && f == HeadRegression(c.lastBeat, Some(b.beat))
  {
    WalkKeepsLast(prev, id, b, now);
  }

  lemma TreeFindings(prev: Option<Checkpoint>, id: string, p: Push, next: Checkpoint, found: seq<Finding>, f: Finding)
    requires WellFormed(p) && (HoldsBeat(Some(next), p) <==> !HeldBack(prev, p.AsBeat()) || HoldsBeat(prev, p))
    requires !HoldsPush(prev, p) && p.fromSize == HeldSize(prev) <= p.size
    ensures f in HoldTree(prev, id, p, next, found).found <==> f in found || TreeRaises(prev, p, f)
  {
  }

  // ---------------------------------------------------------------------------------------------
  // What Check says of a beat no push brings
  // ---------------------------------------------------------------------------------------------

  /** A beat is one the witness remembers exactly when its number and position lie in 1 to 2^40 and its link is a digest or other text of 1 to 128 characters. */
  lemma PlausibleExactly(b: Beat)
    ensures Plausible(b) <==>
              && 1 <= b.beat <= 1024 * 1024 * 1024 * 1024 && 1 <= b.seq_ <= 1024 * 1024 * 1024 * 1024
              && (b.head.Other? ==> 1 <= |b.head.text| <= 128)
  {
  }

  /** A beat it does not remember moves nothing, and reads as a feed that served none. */
  lemma CheckDiscards(prev: Option<Checkpoint>, id: string, b: Beat, now: int, f: Finding)
    requires !Plausible(b) && Check(prev, id, b, now).Judged?
    ensures var r := Check(prev, id, b, now);
            && (if prev.None? then r.next.lastBeat == 0
                else r.next.lastBeat == prev.value.lastBeat && r.next.lastSeq == prev.value.lastSeq && r.next.lastHead == prev.value.lastHead)
            && (f in r.found && !f.StalledFeed? <==>
                  f == MalformedFeed(b)
                  || f == if prev.Some? && prev.value.lastBeat >= 1 then HeadRegression(prev.value.lastBeat, None) else EmptyFeed)
  {
  }

  /** The newest beat is called stalled exactly when it has not moved for more than a day since it was first seen. */
  lemma StalledExactly(prev: Option<Checkpoint>, id: string, b: Beat, now: int)
    requires Plausible(b) && Check(prev, id, b, now).Judged?
    ensures (exists f :: f in Check(prev, id, b, now).found && f.StalledFeed?) <==>
              && prev.Some? && prev.value.lastBeat >= 1 && prev.value.observedAt != ZERO_TIME && now > prev.value.observedAt + 24 * 3600
              && (HeldBack(prev, b) || (b.beat == prev.value.lastBeat && b.seq_ == prev.value.lastSeq && b.head == prev.value.lastHead))
  {
    CheckAdvances(prev, id, b, now);
    var next := Check(prev, id, b, now).next;
    StallSettles(prev, id, b, now);
  }

  lemma StallSettles(prev: Option<Checkpoint>, id: string, b: Beat, now: int)
    requires Plausible(b) && Check(prev, id, b, now).Judged?
    ensures var r := Check(prev, id, b, now);
            (exists f :: f in r.found && f.StalledFeed?) <==>
              && prev.Some? && prev.value.lastBeat >= 1 && prev.value.observedAt != ZERO_TIME && now - prev.value.observedAt > 24 * 3600
              && r.next.lastBeat == prev.value.lastBeat && r.next.lastSeq == prev.value.lastSeq && r.next.lastHead == prev.value.lastHead
  {
    var walk := WalkBeat(Carried(prev, id, now), b);
    var held := walk.rewound || PositionFell(prev, b) != [];
    var moved := Advance(walk.next, b, held);
    var before := Gap(prev, b) + walk.found + PositionFell(prev, b) + moved.found;
    NoStallBefore(prev, id, b, now, held);
    SettleStalls(prev, moved.next, before, now);
  }

  lemma NoStallBefore(prev: Option<Checkpoint>, id: string, b: Beat, now: int, held: bool)
    ensures var walk := WalkBeat(Carried(prev, id, now), b);
            forall f :: f in Gap(prev, b) + walk.found + PositionFell(prev, b) + Advance(walk.next, b, held).found ==> !f.StalledFeed?
  {
  }

  lemma SettleStalls(prev: Option<Checkpoint>, next: Checkpoint, before: seq<Finding>, now: int)
    requires forall f :: f in before ==> !f.StalledFeed?
    ensures (exists f :: f in Settle(prev, next, before, now).found && f.StalledFeed?) <==>
              Unmoved(prev, next) && now - prev.value.observedAt > 24 * 3600
  {
    if Unmoved(prev, next) && now - prev.value.observedAt > 24 * 3600 {
      var found := Settle(prev, next, before, now).found;
      assert found[|before|].StalledFeed?;
    }
  }
}
