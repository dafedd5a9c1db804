/**
  What CheckPush promises of every push, whatever memory it is held against: each judged push is a
  retry, a refusal or an adoption, and no install whose chain only grows is ever refused.
*/
module PushLaws {
  import opened Options
  import opened Merkle
  import opened PushRules

  /** Some finding is a refusal, not a note about coverage. */
  ghost predicate Accuses(found: seq<Finding>) {
    exists f :: f in found && !IsNote(KindOf(f))
  }

  predicate IsRetry(prev: Option<Checkpoint>, p: Push) {
    HoldsPush(prev, p)
  }

  predicate IsAdoption(prev: Option<Checkpoint>, p: Push, next: Checkpoint) {
    !HoldsPush(prev, p) && HoldsPush(Some(next), p)
  }

  predicate IsRefusal(prev: Option<Checkpoint>, p: Push, next: Checkpoint) {
    !HoldsPush(prev, p) && !HoldsPush(Some(next), p)
  }

  lemma {:induction false} WithoutStalledMembers(found: seq<Finding>)
    ensures forall f :: f in WithoutStalled(found) <==> f in found && !f.StalledFeed?
  {
    if found != [] {
      var front, last := found[..|found| - 1], found[|found| - 1];
      WithoutStalledMembers(front);
      assert found == front + [last];
    }
  }

  /** Normalizing a name drops its trailing slashes and nothing else. */
  lemma {:induction false} NormalizeDropsSlashes(base: string)
    ensures var n := NormalizeServer(base);
            && |n| <= |base| && n == base[..|n|] && (n == "" || n[|n| - 1] != '/')
            && forall i :: |n| <= i < |base| ==> base[i] == '/'
  {
    if base != "" && base[|base| - 1] == '/' {
      NormalizeDropsSlashes(base[..|base| - 1]);
    }
  }

  lemma {:induction false} NormalizeTwice(base: string)
    ensures NormalizeServer(NormalizeServer(base)) == NormalizeServer(base)
  {
    if base != "" && base[|base| - 1] == '/' {
      NormalizeTwice(base[..|base| - 1]);
    }
  }

  function LastBeat(prev: Option<Checkpoint>): int {
    if prev.None? then 0 else prev.value.lastBeat
  }

  /**
    A beat memory contradicts: it is behind the newest, its number was seen at another position or with
    another link, its position was seen with another link, or its position fell.
  */
  predicate HeldBack(prev: Option<Checkpoint>, b: Beat) {
    prev.Some? && var c := prev.value;
                  || b.beat < c.lastBeat
                  || (b.beat in c.recent && c.recent[b.beat] != Observed(b.seq_, b.head))
                  || (b.seq_ in c.positions && c.positions[b.seq_] != b.head)
                  || (c.lastSeq > 0 && b.seq_ < c.lastSeq)
  }

  /** Check advances onto a beat unless it holds it back, and never lowers the last beat. */
  lemma CheckAdvances(prev: Option<Checkpoint>, server: string, b: Beat, now: int)
    requires Plausible(b) && Check(prev, server, b, now).Judged?
    ensures var next := Check(prev, server, b, now).next;
            if HeldBack(prev, b)
            then next.lastBeat == LastBeat(prev) && (prev.Some? ==> next.lastSeq == prev.value.lastSeq && next.lastHead == prev.value.lastHead)
            else next.lastBeat == b.beat && next.lastSeq == b.seq_ && next.lastHead == b.head
    ensures b.beat != LastBeat(prev) && !HeldBack(prev, b) ==> Check(prev, server, b, now).next.observedAt == now
    ensures LastBeat(prev) <= Check(prev, server, b, now).next.lastBeat
  {
  }

  lemma CheckFound(prev: Option<Checkpoint>, server: string, b: Beat, now: int)
    requires Plausible(b) && Check(prev, server, b, now).Judged?
    ensures var walk := WalkBeat(Carried(prev, server, now), b);
            var moved := Advance(walk.next, b, walk.rewound || PositionFell(prev, b) != []);
            forall f :: f in WithoutStalled(Check(prev, server, b, now).found) <==>
              f in Gap(prev, b) || f in walk.found || f in PositionFell(prev, b) || f in moved.found
  {
    WithoutStalledMembers(Check(prev, server, b, now).found);
  }

  lemma PartsAccuse(a: seq<Finding>, b: seq<Finding>, c: seq<Finding>, d: seq<Finding>, all: seq<Finding>)
    requires forall f :: f in all <==> f in a || f in b || f in c || f in d
    ensures Accuses(all) <==> Accuses(a) || Accuses(b) || Accuses(c) || Accuses(d)
  {
  }

  lemma OneAccuses(f: Finding)
    ensures Accuses([f]) <==> !IsNote(KindOf(f))
  {
    assert [f][0] == f;
  }

  lemma WalkAccuses(c: Checkpoint, b: Beat)
    ensures Accuses(WalkBeat(c, b).found) <==> WalkBeat(c, b).rewound
  {
    if WalkBeat(c, b).rewound {
      OneAccuses(WalkBeat(c, b).found[0]);
    }
  }

  lemma FellAccuses(prev: Option<Checkpoint>, b: Beat)
    ensures Accuses(PositionFell(prev, b)) <==> PositionFell(prev, b) != []
  {
    if PositionFell(prev, b) != [] {
      OneAccuses(PositionFell(prev, b)[0]);
    }
  }

  lemma GapNotes(prev: Option<Checkpoint>, b: Beat)
    ensures !Accuses(Gap(prev, b))
  {
  }

  lemma AdvanceAccuses(c: Checkpoint, b: Beat, held: bool)
    ensures Accuses(Advance(c, b, held).found) <==> b.beat < c.lastBeat
  {
    if Advance(c, b, held).found != [] {
      OneAccuses(Advance(c, b, held).found[0]);
    }
  }

  lemma WalkKeepsLast(prev: Option<Checkpoint>, server: string, b: Beat, now: int)
    ensures WalkBeat(Carried(prev, server, now), b).next.lastBeat == LastBeat(prev)
  {
  }

  /** A beat held back is always accused of something, and one that is not never is. */
  lemma CheckAccuses(prev: Option<Checkpoint>, server: string, b: Beat, now: int)
    requires Plausible(b) && Check(prev, server, b, now).Judged?
    ensures HeldBack(prev, b) <==> Accuses(WithoutStalled(Check(prev, server, b, now).found))
  {
    CheckFound(prev, server, b, now);
    PartsHeldBack(prev, server, b, now, WithoutStalled(Check(prev, server, b, now).found));
  }

  lemma PartsHeldBack(prev: Option<Checkpoint>, server: string, b: Beat, now: int, found: seq<Finding>)
    requires b.beat >= 1
    requires var walk := WalkBeat(Carried(prev, server, now), b);
             var moved := Advance(walk.next, b, walk.rewound || PositionFell(prev, b) != []);
             forall f :: f in found <==> f in Gap(prev, b) || f in walk.found || f in PositionFell(prev, b) || f in moved.found
    ensures HeldBack(prev, b) <==> Accuses(found)
  {
    var walk := WalkBeat(Carried(prev, server, now), b);
    var held := walk.rewound || PositionFell(prev, b) != [];
    PartsAccuse(Gap(prev, b), walk.found, PositionFell(prev, b), Advance(walk.next, b, held).found, found);
    WalkAccuses(Carried(prev, server, now), b);
    FellAccuses(prev, b);
    GapNotes(prev, b);
    AdvanceAccuses(walk.next, b, held);
    WalkKeepsLast(prev, server, b, now);
  }

  lemma AccusesMore(found: seq<Finding>, f: Finding)
    ensures Accuses(found + [f]) <==> Accuses(found) || !IsNote(KindOf(f))
  {
    var all := found + [f];
    assert all[|found|] == f;
    if g :| g in found && !IsNote(KindOf(g)) {
      assert g in all;
    }
  }

  ghost predicate Adopts(prev: Option<Checkpoint>, id: string, p: Push, next: Checkpoint, found: seq<Finding>, now: int) {
    && next.installID == id && p.root.Hex?
    && p.fromSize == HeldSize(prev) <= p.size
    && (!First(prev) ==>
          prev.value.root.Hex? && prev.value.lastBeat < p.beat
          && Extends(p.size, p.root.hash, prev.value.size, prev.value.root.hash))
    && (HeldBack(prev, p.AsBeat()) ==> First(prev) && HoldsBeat(prev, p))
    && (LastBeat(prev) != p.beat ==> next.observedAt == now && !Accuses(found))
  }

  ghost predicate Split(prev: Option<Checkpoint>, id: string, p: Push, r: Judgement, now: int)
    requires r.Judged?
  {
    if IsRetry(prev, p) then r == Judged(prev.value, [])
    else if IsRefusal(prev, p, r.next) then r.next == Held(prev, id) && Accuses(r.found)
    else IsAdoption(prev, p, r.next) && Adopts(prev, id, p, r.next, r.found, now)
  }

  lemma HoldTreeSplit(prev: Option<Checkpoint>, id: string, p: Push, next: Checkpoint, found: seq<Finding>, now: int)
    requires WellFormed(p) && HoldTree(prev, id, p, next, found).Judged?
    requires !HoldsBeat(Some(next), p) ==> Accuses(found)
    requires HoldsBeat(Some(next), p) && HeldBack(prev, p.AsBeat()) ==> HoldsBeat(prev, p)
    requires HoldsBeat(Some(next), p) ==> LastBeat(prev) <= p.beat
    requires HoldsBeat(Some(next), p) && LastBeat(prev) != p.beat ==> next.observedAt == now && !Accuses(found)
    ensures Split(prev, id, p, HoldTree(prev, id, p, next, found), now)
  {
    if !HoldsPush(prev, p) {
      var base := HeldSize(prev);
      if !First(prev) {
        AccusesMore(found, RewrittenTree(base, p.size, p.root, prev.value.root));
        AccusesMore(found, DuplicateBeat(p.beat, prev.value.size, p.size));
        if TreeExtends(base, prev.value.root, p) {
          FoldSound(base, p.size, true, prev.value.root.hash, HashList(p.proof));
        }
      } else {
        AccusesMore(found, FirstRoot(p.size, p.root));
      }
    }
  }

  /**
    The three-way split. The two HoldsPush tests hold makes separate exactly these cases: a retry
    leaves memory as it was and raises nothing, a refusal leaves memory as it was and accuses, and an
    adoption proves from the held size, extends the held tree with a later beat, and raises only
    notes. Only memory that holds a beat and no tree, which no push leaves, could adopt that very
    beat again with anything more.
  */
  lemma ThreeWaySplit(prev: Option<Checkpoint>, id: string, p: Push, now: int)
    requires CheckPush(prev, id, p, now).Judged?
    ensures Split(prev, id, p, CheckPush(prev, id, p, now), now)
  {
    var checked := Check(prev, id, p.AsBeat(), now);
    CheckAdvances(prev, id, p.AsBeat(), now);
    CheckAccuses(prev, id, p.AsBeat(), now);
    HoldTreeSplit(prev, id, p, checked.next, WithoutStalled(checked.found), now);
  }

  // ---------------------------------------------------------------------------------------------
  // Bounded memory
  // ---------------------------------------------------------------------------------------------

  function Newer(s: set<int>, k: int): set<int> {
    set j | j in s && k < j
  }

  function Newest(s: set<int>, cap: nat): set<int> {
    set k | k in s && |Newer(s, k)| < cap
  }

  lemma {:induction false} Oldest(s: set<int>) returns (x: int)
    requires exists y :: y in s
    ensures x in s && forall y :: y in s ==> x <= y
  {
    x :| x in s;
    assert forall w :: w in s ==> w == x || w in s - {x};
    if y :| y in s - {x} {
      var z := Oldest(s - {x});
      x := if z < x then z else x;
    }
  }

  /** Exactly cap of a set have fewer than cap members above them, or all of a smaller set. */
  lemma {:induction false} NewestCount(s: set<int>, cap: nat)
    ensures |Newest(s, cap)| == if |s| <= cap then |s| else cap
  {
    if !exists y :: y in s {
      assert s == {} && Newest(s, cap) == {};
    } else {
      var x := Oldest(s);
      var rest := s - {x};
      NewestCount(rest, cap);
      assert Newer(s, x) == rest;
      assert forall k :: k in rest ==> Newer(s, k) == Newer(rest, k);
      if |rest| < cap {
        assert Newest(s, cap) == Newest(rest, cap) + {x};
      } else {
        assert Newest(s, cap) == Newest(rest, cap);
      }
    }
  }

  /** A bounded memory forgets only past its cap, and then keeps exactly cap. */
  lemma KeepNewestCount<T>(m: map<int, T>, cap: nat)
    ensures |KeepNewest(m, cap)| == if |m| <= cap then |m| else cap
  {
    NewestCount(m.Keys, cap);
    forall k | k in m ensures Newer(m.Keys, k) == set j | j in m && k < j {}
    assert KeepNewest(m, cap).Keys == Newest(m.Keys, cap);
  }
}
