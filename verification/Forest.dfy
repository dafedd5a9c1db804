/**
  The incremental tree an anchor scan folds a streamed chain into. The forest keeps at most one
  perfect subtree per level, so it costs a logarithm of the chain, and its root is the root of the
  RFC 6962 tree over every leaf fed so far.
*/
module Forest {
  import opened Options
  import opened Merkle

  type Slots = seq<Option<Hash>>

  /**
    The slots from level i upward fold the first hi of the hashes: read upward, each filled slot is
    the root over the next 2^i hashes from the end.
  */
  ghost predicate Folds(forest: Slots, i: nat, hashes: seq<Hash>, hi: nat)
    requires i <= |forest| && hi <= |hashes|
    decreases |forest| - i
  {
    if i == |forest| then hi == 0
    else if forest[i].None? then Folds(forest, i + 1, hashes, hi)
    else
      Exp2(i) <= hi
      && forest[i].value == Root(hashes, hi - Exp2(i), Exp2(i))
      && Folds(forest, i + 1, hashes, hi - Exp2(i))
  }

  /** The binary carry: a full slot joins the incoming subtree and moves it up a level. */
  function Carry(forest: Slots, i: nat, h: Hash): Slots
    requires i <= |forest|
    decreases |forest| - i
  {
    if i == |forest| then forest + [Some(h)]
    else if forest[i].None? then forest[i := Some(h)]
    else Carry(forest[i := None], i + 1, Node(forest[i].value, h))
  }

  function Join(slot: Option<Hash>, low: Option<Hash>): Option<Hash> {
    if slot.None? then low
    else if low.None? then slot
    else Some(Node(slot.value, low.value))
  }

  /** The fold of the subtrees from level i upward onto what the lower levels gave. */
  function Collect(forest: Slots, i: nat, low: Option<Hash>): Option<Hash>
    requires i <= |forest|
    decreases |forest| - i
  {
    if i == |forest| then low else Collect(forest, i + 1, Join(forest[i], low))
  }

  /** A perfect subtree followed by no more leaves than it holds is one tree with it. */
  lemma JoinPerfect(hashes: seq<Hash>, level: nat, lo: nat, n: nat)
    requires 1 <= n <= Exp2(level) && lo + Exp2(level) + n <= |hashes|
    ensures Root(hashes, lo, Exp2(level) + n)
         == Node(Root(hashes, lo, Exp2(level)), Root(hashes, lo + Exp2(level), n))
  {
    SplitPointUnique(Exp2(level) + n, level);
  }

  /** A root depends on its own leaves alone. */
  lemma {:induction false} RootAppend(hashes: seq<Hash>, leaf: Hash, lo: nat, n: nat)
    requires lo + n <= |hashes|
    ensures Root(hashes + [leaf], lo, n) == Root(hashes, lo, n)
    decreases n
  {
    if n > 1 {
      var k := SplitPoint(n);
      RootAppend(hashes, leaf, lo, k);
      RootAppend(hashes, leaf, lo + k, n - k);
    }
  }

  /** Only the slots from i upward matter. */
  lemma {:induction false} FoldsFrame(f: Slots, g: Slots, i: nat, hashes: seq<Hash>, hi: nat)
    requires i <= |f| == |g| && hi <= |hashes|
    requires forall j :: i <= j < |f| ==> f[j] == g[j]
    requires Folds(f, i, hashes, hi)
    ensures Folds(g, i, hashes, hi)
    decreases |f| - i
  {
    if i < |f| {
      FoldsFrame(f, g, i + 1, hashes, if f[i].None? then hi else hi - Exp2(i));
    }
  }

  /** Leaves appended past hi change nothing below it. */
  lemma {:induction false} FoldsAppend(f: Slots, i: nat, hashes: seq<Hash>, hi: nat, leaf: Hash)
    requires i <= |f| && hi <= |hashes| && Folds(f, i, hashes, hi)
    ensures Folds(f, i, hashes + [leaf], hi)
    decreases |f| - i
  {
    if i < |f| {
      if f[i].Some? {
        RootAppend(hashes, leaf, hi - Exp2(i), Exp2(i));
      }
      FoldsAppend(f, i + 1, hashes, if f[i].None? then hi else hi - Exp2(i), leaf);
    }
  }

  lemma {:induction false} FoldsFromZero(f: Slots, i: nat, hashes: seq<Hash>, hi: nat)
    requires i <= |f| && hi <= |hashes| && Folds(f, i, hashes, hi)
    requires forall j :: 0 <= j < i ==> f[j].None?
    ensures Folds(f, 0, hashes, hi)
  {
    if i > 0 {
      FoldsFromZero(f, i - 1, hashes, hi);
    }
  }

  lemma PlaceFolds(g: Slots, i: nat, hashes: seq<Hash>, hi: nat)
    requires i < |g| && hi + Exp2(i) == |hashes| && g[i] == Some(Root(hashes, hi, Exp2(i)))
    requires Folds(g, i + 1, hashes, hi)
    requires forall j :: 0 <= j < i ==> g[j].None?
    ensures Folds(g, 0, hashes, |hashes|)
  {
    FoldsFromZero(g, i, hashes, |hashes|);
  }

  /** Carrying in the subtree over the hashes past hi folds every hash. */
  lemma {:induction false} CarryFolds(f: Slots, i: nat, hashes: seq<Hash>, hi: nat, h: Hash)
    requires i <= |f| && hi + Exp2(i) == |hashes| && h == Root(hashes, hi, Exp2(i))
    requires Folds(f, i, hashes, hi)
    requires forall j :: 0 <= j < i ==> f[j].None?
    ensures Folds(Carry(f, i, h), 0, hashes, |hashes|)
    decreases |f| - i
  {
    if i == |f| {
      PlaceFolds(f + [Some(h)], i, hashes, hi);
    } else if f[i].None? {
      FoldsFrame(f, f[i := Some(h)], i + 1, hashes, hi);
      PlaceFolds(f[i := Some(h)], i, hashes, hi);
    } else {
      var lo := hi - Exp2(i);
      FoldsFrame(f, f[i := None], i + 1, hashes, lo);
      JoinPerfect(hashes, i, lo, Exp2(i));
      CarryFolds(f[i := None], i + 1, hashes, lo, Node(f[i].value, h));
    }
  }

  /** What the levels below i give: nothing, or the root over fewer hashes than one subtree here. */
  ghost predicate Below(i: nat, low: Option<Hash>, hashes: seq<Hash>, hi: nat)
    requires hi <= |hashes|
  {
    if low.None? then hi == |hashes|
    else 1 <= |hashes| - hi < Exp2(i) && low.value == Root(hashes, hi, |hashes| - hi)
  }

  lemma JoinBelow(f: Slots, i: nat, low: Option<Hash>, hashes: seq<Hash>, hi: nat)
    requires i < |f| && f[i].Some? && Exp2(i) <= hi <= |hashes|
    requires f[i].value == Root(hashes, hi - Exp2(i), Exp2(i)) && Below(i, low, hashes, hi)
    ensures Below(i + 1, Join(f[i], low), hashes, hi - Exp2(i))
  {
    if low.Some? {
      JoinPerfect(hashes, i, hi - Exp2(i), |hashes| - hi);
    }
  }

  lemma {:induction false} CollectIsRoot(f: Slots, i: nat, hashes: seq<Hash>, hi: nat, low: Option<Hash>)
    requires i <= |f| && hi <= |hashes|
    requires Folds(f, i, hashes, hi) && Below(i, low, hashes, hi)
    ensures Collect(f, i, low) == if hashes == [] then None else Some(TreeRoot(hashes, |hashes|))
    decreases |f| - i
  {
    if i == |f| {
    } else if f[i].None? {
      CollectIsRoot(f, i + 1, hashes, hi, low);
    } else {
      JoinBelow(f, i, low, hashes, hi);
      CollectIsRoot(f, i + 1, hashes, hi - Exp2(i), Join(f[i], low));
    }
  }

  class TreeFold {
    var forest: Slots
    ghost var fed: seq<Hash>

    ghost predicate Valid()
      reads this
    {
      Folds(forest, 0, fed, |fed|)
    }

    constructor ()
      ensures Valid() && fed == []
    {
      forest, fed := [], [];
    }

    /** Adds a leaf: full slots join on the way up until an empty one takes the result. */
    method PushLeaf(leaf: Hash)
      requires Valid()
      modifies this
      ensures Valid() && fed == old(fed) + [leaf]
    {
      ghost var want := Carry(forest, 0, leaf);
      assert Folds(want, 0, fed + [leaf], |fed| + 1) by {
        FoldsAppend(forest, 0, fed, |fed|, leaf);
        CarryFolds(forest, 0, fed + [leaf], |fed|, leaf);
      }
      fed := fed + [leaf];
      var h, i := leaf, 0;
      while i < |forest| && forest[i].Some?
        invariant 0 <= i <= |forest|
        invariant Carry(forest, i, h) == want && fed == old(fed) + [leaf]
        decreases |forest| - i
      {
        h := Node(forest[i].value, h);
        forest := forest[i := None];
        i := i + 1;
      }
      if i == |forest| {
        forest := forest + [None];
      }
      forest := forest[i := Some(h)];
      assert forest == want;
    }

    /** The tree's root so far. The slots stay as they are. */
    method Root() returns (root: Option<Hash>)
      requires Valid()
      ensures root == if fed == [] then None else Some(TreeRoot(fed, |fed|))
    {
      CollectIsRoot(forest, 0, fed, |fed|, None);
      root := None;
      for i := 0 to |forest|
        invariant Collect(forest, i, root) == Collect(forest, 0, None)
      {
        var sub := forest[i];
        if sub.Some? {
          root := if root.None? then sub else Some(Node(sub.value, root.value));
        }
      }
    }
  }
}
