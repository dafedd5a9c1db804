/**
  An install whose chain only grows is never accused. The install is described by the history it ends
  up with: every push it ever made reports one of that history's beats at that beat's own position,
  proved from any size at all. The witness's memory may be any memory such pushes left, however old,
  so lost answers, reordered pushes and a restore of earlier memory are all covered.
*/
module HonestInstall {
  import opened Options
  import opened SnocLists
  import opened Merkle
  import opened PushRules
  import opened PushLaws

  /** Entry i of the chain has leaf hash leaves[i-1] and link links[i-1]; beats maps a beat to its entry. */
  datatype History = History(leaves: seq<Hash>, links: seq<Hash>, beats: map<int, nat>)

  /** Beat numbers climb with chain positions, within the range a push may claim. */
  ghost predicate Grows(h: History) {
    && |h.links| == |h.leaves| <= MAX_BEAT_JUMP
    && (forall b :: b in h.beats ==> 1 <= b <= MAX_BEAT_JUMP && 1 <= h.beats[b] <= |h.leaves|)
    && (forall a, b :: a in h.beats && b in h.beats && a < b ==> h.beats[a] < h.beats[b])
  }

  function AsText(l: List<Hash>): List<Text> {
    match l
    case End => End
    case More(front, last) => More(AsText(front), Hex(last))
  }

  /** The push the client builds for beat b, proved from size from, when such a proof exists. */
  function PushOf(h: History, id: string, b: int, from: int): Push
    requires b in h.beats && 1 <= h.beats[b] <= |h.leaves| && h.beats[b] <= |h.links|
    requires ConsistencyProof(h.leaves, from, h.beats[b]).Some?
  {
    var s := h.beats[b];
    Push(id, b, s, Hex(h.links[s - 1]), s, Hex(TreeRoot(h.leaves, s)), from,
         AsText(ConsistencyProof(h.leaves, from, s).value))
  }

  /** Memory that says nothing but the truth about the history. */
  ghost predicate TrueTo(c: Checkpoint, h: History, id: string)
    requires Grows(h)
  {
    && c.server == NormalizeServer(id) && c.installID == id
    && c.lastBeat in h.beats && c.lastSeq == c.size == h.beats[c.lastBeat]
    && c.lastHead == Hex(h.links[c.size - 1]) && c.root == Hex(TreeRoot(h.leaves, c.size))
    && TrueRecent(c, h) && TruePositions(c, h)
  }

  ghost predicate TrueRecent(c: Checkpoint, h: History)
    requires Grows(h)
  {
    forall b :: b in c.recent ==> b in h.beats && c.recent[b] == Observed(h.beats[b], Hex(h.links[h.beats[b] - 1]))
  }

  ghost predicate TruePositions(c: Checkpoint, h: History)
    requires Grows(h)
  {
    forall s :: s in c.positions ==> 1 <= s <= |h.links| && c.positions[s] == Hex(h.links[s - 1])
  }

  ghost predicate TrueMemory(prev: Option<Checkpoint>, h: History, id: string)
    requires Grows(h)
  {
    prev.Some? ==> TrueTo(prev.value, h, id)
  }

  lemma {:induction false} AsTextReads(l: List<Hash>)
    ensures AllHex(AsText(l)) && HashList(AsText(l)) == l && Count(AsText(l)) == Count(l)
  {
    if l.More? {
      AsTextReads(l.front);
    }
  }

  const MAX_INT64 := 0x7fff_ffff_ffff_ffff

  lemma Powers()
    ensures Exp2(40) == MAX_BEAT_JUMP && Exp2(63) == MAX_INT64 + 1
  {
    assert Exp2(10) == 1024;
    assert Exp2(20) == 1024 * 1024;
    assert Exp2(30) == 1024 * 1024 * 1024;
    assert Exp2(40) == 0x100_0000_0000;
    assert Exp2(50) == 0x4_0000_0000_0000;
    assert Exp2(60) == 0x1000_0000_0000_0000;
  }

  /**
    No honest proof is refused as too long: at every 64-bit tree size it fits the bound, and at every
    size a push may claim it has at most forty-one hashes.
  */
  lemma HonestProofFits(leaves: seq<Hash>, first: int, n: nat)
    requires n <= |leaves| && n <= MAX_INT64
    requires ConsistencyProof(leaves, first, n).Some?
    ensures Count(ConsistencyProof(leaves, first, n).value) <= MAX_PROOF_HASHES
    ensures n <= MAX_BEAT_JUMP ==> Count(ConsistencyProof(leaves, first, n).value) <= 41
  {
    Powers();
    ConsistencyProofLength(leaves, first, n, 63);
    if n <= MAX_BEAT_JUMP {
      ConsistencyProofLength(leaves, first, n, 40);
    }
  }

  /** The client's push is always in form: its proof fits the bound at every size a push may claim. */
  lemma HonestPushWellFormed(h: History, id: string, b: int, from: int)
    requires Grows(h) && b in h.beats && ConsistencyProof(h.leaves, from, h.beats[b]).Some?
    ensures WellFormed(PushOf(h, id, b, from))
  {
    HonestProofFits(h.leaves, from, h.beats[b]);
    AsTextReads(ConsistencyProof(h.leaves, from, h.beats[b]).value);
  }

  /** Held against true memory, a true beat that is not behind contradicts nothing. */
  lemma HonestBeatNotHeldBack(prev: Option<Checkpoint>, h: History, id: string, b: int, now: int)
    requires Grows(h) && TrueMemory(prev, h, id) && b in h.beats && LastBeat(prev) <= b
    ensures !HeldBack(prev, BeatOf(h, b))
  {
  }

  function BeatOf(h: History, b: int): Beat
    requires b in h.beats && 1 <= h.beats[b] <= |h.links|
  {
    Beat(b, h.beats[b], Hex(h.links[h.beats[b] - 1]))
  }

  lemma WalkStaysTrue(c: Checkpoint, h: History, b: int)
    requires Grows(h) && TrueRecent(c, h) && TruePositions(c, h) && b in h.beats
    ensures TrueRecent(WalkBeat(c, BeatOf(h, b)).next, h) && TruePositions(WalkBeat(c, BeatOf(h, b)).next, h)
    ensures WalkBeat(c, BeatOf(h, b)).next.server == c.server
  {
  }

  lemma SettleStaysTrue(prev: Option<Checkpoint>, c: Checkpoint, found: seq<Finding>, h: History, now: int)
    requires Grows(h) && TrueRecent(c, h) && TruePositions(c, h)
    ensures var next := Settle(prev, c, found, now).next; TrueRecent(next, h) && TruePositions(next, h) && next.server == c.server
  {
  }

  /** What Check remembers of a true beat is true. */
  lemma HonestCheck(prev: Option<Checkpoint>, h: History, id: string, b: int, now: int)
    requires Grows(h) && TrueMemory(prev, h, id) && b in h.beats
    ensures Plausible(BeatOf(h, b))
    ensures var r := Check(prev, id, BeatOf(h, b), now);
            r.Judged? && r.next.server == NormalizeServer(id) && TrueRecent(r.next, h) && TruePositions(r.next, h)
  {
    NormalizeTwice(id);
    var c, beat := Carried(prev, id, now), BeatOf(h, b);
    WalkStaysTrue(c, h, b);
    var walk, fell := WalkBeat(c, beat), PositionFell(prev, beat);
    var moved := Advance(walk.next, beat, walk.rewound || fell != []);
    SettleStaysTrue(prev, moved.next, Gap(prev, beat) + walk.found + fell + moved.found, h, now);
  }

  /** What is promised of a push's judgement r. */
  ghost predicate Fair(prev: Option<Checkpoint>, h: History, id: string, p: Push, r: Judgement)
    requires Grows(h)
  {
    && (r.Judged? ==> HoldsPush(Some(r.next), p) && !Accuses(r.found) && TrueTo(r.next, h, id))
    && (r.Failed? ==> r.error == ProofBase(HeldSize(prev)) && p.fromSize != HeldSize(prev))
  }

  lemma HonestTreeHeld(prev: Option<Checkpoint>, h: History, id: string, b: int, from: int, next: Checkpoint, found: seq<Finding>)
    requires Grows(h) && TrueMemory(prev, h, id) && b in h.beats
    requires ConsistencyProof(h.leaves, from, h.beats[b]).Some? && WellFormed(PushOf(h, id, b, from))
    requires next.server == NormalizeServer(id) && TrueRecent(next, h) && TruePositions(next, h)
    requires LastBeat(prev) <= b ==> HoldsBeat(Some(next), PushOf(h, id, b, from)) && !Accuses(found)
    ensures var p := PushOf(h, id, b, from); Fair(prev, h, id, p, HoldTree(prev, id, p, next, found))
  {
    var p, s := PushOf(h, id, b, from), h.beats[b];
    if HoldsPush(prev, p) || from != HeldSize(prev) {
    } else if prev.None? {
      AccusesMore(found, FirstRoot(p.size, p.root));
    } else {
      assert s > prev.value.size && b > prev.value.lastBeat;
      HonestProofVerifies(h.leaves, from, s);
      AsTextReads(ConsistencyProof(h.leaves, from, s).value);
    }
  }

  /**
    No push of a growing chain is ever refused. Proved from the size the witness holds it is held,
    adopted or a retry, with no accusation; from any other size it is either such a retry or told the
    size to prove from. Memory it leaves is true again.
  */
  lemma HonestPushNeverRefused(prev: Option<Checkpoint>, h: History, id: string, b: int, from: int, now: int)
    requires Grows(h) && TrueMemory(prev, h, id) && id != "" && b in h.beats
    requires ConsistencyProof(h.leaves, from, h.beats[b]).Some?
    ensures var p := PushOf(h, id, b, from); Fair(prev, h, id, p, CheckPush(prev, id, p, now))
  {
    var p := PushOf(h, id, b, from);
    HonestPushWellFormed(h, id, b, from);
    HonestCheck(prev, h, id, b, now);
    var checked := Check(prev, id, p.AsBeat(), now);
    CheckAdvances(prev, id, p.AsBeat(), now);
    CheckAccuses(prev, id, p.AsBeat(), now);
    if LastBeat(prev) <= b {
      HonestBeatNotHeldBack(prev, h, id, b, now);
    }
    HonestTreeHeld(prev, h, id, b, from, checked.next, WithoutStalled(checked.found));
  }

  /** Told the held size, the client proves again from there and the push is held. */
  lemma ProvingAgainIsHeld(prev: Option<Checkpoint>, h: History, id: string, b: int, from: int, now: int)
    requires Grows(h) && TrueMemory(prev, h, id) && id != "" && b in h.beats
    requires ConsistencyProof(h.leaves, from, h.beats[b]).Some?
    requires CheckPush(prev, id, PushOf(h, id, b, from), now).Failed?
    requires HeldSize(prev) <= h.beats[b]
    ensures var again := PushOf(h, id, b, HeldSize(prev));
            CheckPush(prev, id, again, now).Judged? && HoldsPush(Some(CheckPush(prev, id, again, now).next), again)
  {
    HonestPushNeverRefused(prev, h, id, b, from, now);
    HonestPushNeverRefused(prev, h, id, b, HeldSize(prev), now);
  }

  // ---------------------------------------------------------------------------------------------
  // Whole runs
  // ---------------------------------------------------------------------------------------------

  /** A push of one beat, or a restore of the memory the witness held after some earlier event. */
  datatype Event = Deliver(beat: int, from: int, now: int) | Rewind(to: nat)

  ghost predicate Possible(h: History, e: Event, soFar: nat)
    requires Grows(h)
  {
    match e
    case Deliver(b, from, _) => b in h.beats && ConsistencyProof(h.leaves, from, h.beats[b]).Some?
    case Rewind(to) => to < soFar
  }

  ghost predicate PossibleRun(h: History, events: seq<Event>)
    requires Grows(h)
  {
    forall i :: 0 <= i < |events| ==> Possible(h, events[i], i + 1)
  }

  /** Every memory the witness has held, oldest first: nothing, then one after each event. */
  ghost function Memories(h: History, id: string, events: seq<Event>): (all: seq<Option<Checkpoint>>)
    requires Grows(h) && PossibleRun(h, events)
    ensures |all| == |events| + 1
  {
    if events == [] then [None]
    else
      var before := Memories(h, id, events[..|events| - 1]);
      before + [match events[|events| - 1]
                case Rewind(to) => before[to]
                case Deliver(b, from, now) => After(before[|before| - 1], id, PushOf(h, id, b, from), now)]
  }

  /** The memory after a push: what it adopted, or what stood. */
  function After(prev: Option<Checkpoint>, id: string, p: Push, now: int): Option<Checkpoint> {
    var r := CheckPush(prev, id, p, now);
    if r.Judged? && HoldsPush(Some(r.next), p) then Some(r.next) else prev
  }

  lemma {:induction false} MemoriesTrue(h: History, id: string, events: seq<Event>)
    requires Grows(h) && PossibleRun(h, events) && id != ""
    ensures forall i :: 0 <= i <= |events| ==> TrueMemory(Memories(h, id, events)[i], h, id)
  {
    if events != [] {
      var front, last := events[..|events| - 1], events[|events| - 1];
      assert forall i :: 0 <= i < |front| ==> Possible(h, front[i], i + 1);
      MemoriesTrue(h, id, front);
      var before := Memories(h, id, front);
      if last.Deliver? {
        HonestPushNeverRefused(before[|front|], h, id, last.beat, last.from, last.now);
      }
    }
  }

  /**
    Over every run of a growing install, with pushes in any order, answers lost and memory restored
    to any earlier point, no push is accused of anything.
  */
  lemma NoGrowingInstallAccused(h: History, id: string, events: seq<Event>, beat: int, from: int, now: int)
    requires Grows(h) && PossibleRun(h, events) && id != ""
    requires Possible(h, Deliver(beat, from, now), |events| + 1)
    ensures var r := CheckPush(Memories(h, id, events)[|events|], id, PushOf(h, id, beat, from), now);
            r.Judged? ==> !Accuses(r.found)
  {
    MemoriesTrue(h, id, events);
    HonestPushNeverRefused(Memories(h, id, events)[|events|], h, id, beat, from, now);
  }
}
