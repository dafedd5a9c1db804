/**
  Anchors recorded over a chain, and the scanner that holds the chain to all of them while it streams
  past: a link at a position, or the root of the tree over the first entries.
*/
module Anchors {
  import opened Options
  import opened Merkle
  import opened Forest
  import opened Chain

  /** An install's name, zero for none. */
  type Name = nat
  const NO_NAME := 0

  /** The name a producer writes under, and the other name its key derives, if it has one. */
  datatype Names = Names(declared: Name, alias: Name)

  datatype Shape = Linear | Tree | OtherShape

  /** What an anchor recorded: a link, or a root. */
  datatype Value = OfLink(link: Text) | OfRoot(root: Hash)

  datatype Anchor = Anchor(seq_: int, shape: Shape, install: Name, value: Value)

  // ---------------------------------------------------------------------------------------------
  // What reaching an anchor means
  // ---------------------------------------------------------------------------------------------

  /** The tree's leaf for an entry: its body, bound to an install's name. */
  function LeafOf(e: Entry, name: Name): Hash {
    Leaf(name, e.body.fields)
  }

  function Leaves(entries: seq<Entry>, name: Name): seq<Hash> {
    seq(|entries|, i requires 0 <= i < |entries| => LeafOf(entries[i], name))
  }

  /** Every entry can be written as a leaf at all. */
  predicate Writable(entries: seq<Entry>) {
    forall i :: 0 <= i < |entries| ==> entries[i].body.Body?
  }

  /** The link of the newest of the first n entries that carries a sequence. */
  function LinkAt(entries: seq<Entry>, sequence: int, n: nat): Option<Text>
    requires n <= |entries|
  {
    if n == 0 then None
    else if entries[n - 1].seq_ == sequence then Some(entries[n - 1].hash)
    else LinkAt(entries, sequence, n - 1)
  }

  /** The names a tree anchor is recomputed under: the declared one, and the alias if the anchor is of it or of none. */
  predicate SpeaksFor(names: Names, a: Anchor, name: Name) {
    name != NO_NAME && names.declared != NO_NAME
    && (name == names.declared || (name == names.alias && (a.install == NO_NAME || a.install == names.alias)))
  }

  predicate TreeReached(entries: seq<Entry>, a: Anchor, name: Name) {
    1 <= a.seq_ <= |entries| && a.value == OfRoot(TreeRoot(Leaves(entries, name), a.seq_))
  }

  /** The chain still holds what the anchor was taken over. */
  predicate Reached(entries: seq<Entry>, names: Names, a: Anchor) {
    match a.shape
    case Linear => LinkAt(entries, a.seq_, |entries|).Some? && a.value == OfLink(LinkAt(entries, a.seq_, |entries|).value)
    case Tree => Writable(entries) && ((SpeaksFor(names, a, names.declared) && TreeReached(entries, a, names.declared))
                                       || (SpeaksFor(names, a, names.alias) && TreeReached(entries, a, names.alias)))
    case OtherShape => false
  }

  predicate AllReached(entries: seq<Entry>, names: Names, anchors: seq<Anchor>) {
    forall i :: 0 <= i < |anchors| ==> Reached(entries, names, anchors[i])
  }

  // ---------------------------------------------------------------------------------------------
  // The scanner
  // ---------------------------------------------------------------------------------------------

  lemma {:induction false} LinkAtFrame(entries: seq<Entry>, e: Entry, sequence: int, n: nat)
    requires n <= |entries|
    ensures LinkAt(entries + [e], sequence, n) == LinkAt(entries, sequence, n)
  {
    if n > 0 {
      LinkAtFrame(entries, e, sequence, n - 1);
    }
  }

  /** A tree folded under one name, with the roots at the sizes asked for. */
  class NamedFold {
    const name: Name
    const sizes: set<int>
    const tree: TreeFold
    var count: nat
    var rootAt: map<int, Hash>
    var failed: bool
    ghost var seen: seq<Entry>

    ghost predicate Valid()
      reads this, tree
    {
      && tree.Valid() && count == |tree.fed| && (failed <==> !Writable(seen))
      && (!failed ==> tree.fed == Leaves(seen, name))
      && (forall k :: k in rootAt <==> k in sizes && 1 <= k <= count)
      && (forall k :: k in rootAt ==> rootAt[k] == TreeRoot(tree.fed, k))
    }

    constructor (name: Name, sizes: set<int>)
      ensures Valid() && fresh(tree) && this.name == name && this.sizes == sizes && seen == []
    {
      this.name, this.sizes, count, rootAt, failed, seen := name, sizes, 0, map[], false, [];
      tree := new TreeFold();
    }

    /** Folds one entry in, and keeps the root when the new size is one asked for. */
    method Feed(e: Entry)
      requires Valid()
      modifies this, tree
      ensures Valid() && seen == old(seen) + [e]
    {
      ghost var before := seen;
      seen := seen + [e];
      assert seen[|before|] == e;
      if failed {
        assert forall i :: 0 <= i < |before| ==> seen[i] == before[i];
        return;
      }
      if e.body.Unwritable? {
        failed := true;
        return;
      }
      ghost var fed := tree.fed;
      tree.PushLeaf(LeafOf(e, name));
      RootsStand(fed, LeafOf(e, name));
      count := count + 1;
      if count in sizes {
        var root := tree.Root();
        rootAt := rootAt[count := root.value];
      }
    }
  }

  /** A leaf more leaves every earlier root as it was. */
  lemma RootsStand(hashes: seq<Hash>, leaf: Hash)
    ensures forall k: int :: 1 <= k <= |hashes| ==> TreeRoot(hashes + [leaf], k) == TreeRoot(hashes, k)
  {
    forall k: int | 1 <= k <= |hashes| ensures TreeRoot(hashes + [leaf], k) == TreeRoot(hashes, k) {
      RootAppend(hashes, leaf, 0, k);
    }
  }

  class AnchorScanner {
    const anchors: seq<Anchor>
    const names: Names
    const wanted: set<int>
    const main: NamedFold
    const alt: NamedFold
    var atSeq: map<int, Text>
    ghost var seen: seq<Entry>

    /** Every object the scanner is made of. */
    ghost function Parts(): set<object>
      reads this
    {
      {this, main, main.tree, alt, alt.tree}
    }

    ghost predicate Valid()
      reads Parts()
    {
      && main != alt && main.tree != alt.tree
      && main.Valid() && alt.Valid() && main.name == names.declared && alt.name == names.alias
      && main.sizes == alt.sizes == TreeSizes(anchors) && wanted == Positions(anchors)
      && main.seen == seen && alt.seen == seen
      && (forall q :: q in atSeq ==> q in wanted)
      && (forall q :: q in wanted ==> LinkAt(seen, q, |seen|) == if q in atSeq then Some(atSeq[q]) else None)
    }

    constructor (anchors: seq<Anchor>, names: Names)
      ensures Valid() && fresh(Parts())
      ensures this.anchors == anchors && this.names == names && seen == []
    {
      this.anchors, this.names, wanted, atSeq, seen := anchors, names, Positions(anchors), map[], [];
      main := new NamedFold(names.declared, TreeSizes(anchors));
      alt := new NamedFold(names.alias, TreeSizes(anchors));
    }

    /** Records what one entry proves: its link at an anchored position, and the root at an anchored size. */
    method Feed(e: Entry)
      requires Valid()
      modifies Parts()
      ensures Valid() && seen == old(seen) + [e]
    {
      forall q ensures LinkAt(seen + [e], q, |seen|) == LinkAt(seen, q, |seen|) {
        LinkAtFrame(seen, e, q, |seen|);
      }
      if e.seq_ in wanted {
        atSeq := atSeq[e.seq_ := e.hash];
      }
      alt.Feed(e);
      main.Feed(e);
      seen := seen + [e];
    }

    /** Whether one anchor is reached: by its link, by the root under the declared name, or by the root under the alias. */
    method Verdict(a: Anchor) returns (reached: bool)
      requires Valid() && a in anchors
      ensures reached <==> Reached(seen, names, a)
    {
      match a.shape
      case OtherShape => return false;
      case Linear =>
        assert a.seq_ in wanted;
        return a.seq_ in atSeq && a.value == OfLink(atSeq[a.seq_]);
      case Tree =>
        assert a.seq_ in main.sizes;
        if names.declared == NO_NAME || main.failed || a.seq_ !in main.rootAt {
          return false;
        }
        if a.value == OfRoot(main.rootAt[a.seq_]) {
          return true;
        }
        return names.alias != NO_NAME && (a.install == NO_NAME || a.install == names.alias)
               && a.seq_ in alt.rootAt && a.value == OfRoot(alt.rootAt[a.seq_]);
    }

    method Results() returns (ok: bool)
      requires Valid()
      ensures ok <==> AllReached(seen, names, anchors)
    {
      ok := true;
      for i := 0 to |anchors|
        invariant ok <==> forall j :: 0 <= j < i ==> Reached(seen, names, anchors[j])
      {
        var reached := Verdict(anchors[i]);
        ok := ok && reached;
      }
    }
  }

  function TreeSizes(anchors: seq<Anchor>): set<int> {
    set a | a in anchors && a.shape == Tree :: a.seq_
  }

  function Positions(anchors: seq<Anchor>): set<int> {
    set a | a in anchors && a.shape != Tree :: a.seq_
  }

  /** CheckAnchors: the slice form of the same walk. */
  method CheckAnchors(entries: seq<Option<Entry>>, anchors: seq<Anchor>, names: Names) returns (ok: bool)
    ensures ok <==> AllReached(Present(entries, |entries|), names, anchors)
  {
    var s := new AnchorScanner(anchors, names);
    for i := 0 to |entries|
      invariant s.Valid() && s.seen == Present(entries, i) && s.anchors == anchors && s.names == names
      invariant fresh(s.Parts())
    {
      if entries[i].Some? {
        s.Feed(entries[i].value);
      }
    }
    ok := s.Results();
  }

  /** Those of the first n entries that are there. */
  function Present(entries: seq<Option<Entry>>, n: nat): seq<Entry>
    requires n <= |entries|
  {
    if n == 0 then []
    else if entries[n - 1].None? then Present(entries, n - 1)
    else Present(entries, n - 1) + [entries[n - 1].value]
  }

  // ---------------------------------------------------------------------------------------------
  // What a reached anchor fixes
  // ---------------------------------------------------------------------------------------------

  lemma {:induction false} PresentIntact(entries: seq<Option<Entry>>, n: nat)
    requires Intact(entries) && n <= |entries|
    ensures |Present(entries, n)| == n
    ensures forall i :: 0 <= i < n ==> entries[i] == Some(Present(entries, n)[i])
  {
    if n > 0 {
      PresentIntact(entries, n - 1);
      NumberedFromOne(entries, n - 1);
    }
  }

  lemma {:induction false} LinkAtIntact(entries: seq<Option<Entry>>, present: seq<Entry>, sequence: int, n: nat)
    requires Intact(entries) && n <= |present| == |entries| && (forall i :: 0 <= i < |entries| ==> entries[i] == Some(present[i]))
    ensures LinkAt(present, sequence, n).Some? <==> 1 <= sequence <= n
    ensures 1 <= sequence <= n ==> LinkAt(present, sequence, n) == Some(present[sequence - 1].hash)
  {
    if n > 0 {
      NumberedFromOne(entries, n - 1);
      LinkAtIntact(entries, present, sequence, n - 1);
    }
  }

  /**
    Exactly which anchors an intact chain reaches: one whose link is at its position, or, of a chain whose
    key has a name, one whose root is that of its first entries under the name the key writes under now, or
    under its other name if the anchor was taken under that or under none.
  */
  lemma ReachedExactly(entries: seq<Option<Entry>>, names: Names, a: Anchor)
    requires Intact(entries)
    ensures var present := Present(entries, |entries|);
            && |present| == |entries| && (forall i :: 0 <= i < |entries| ==> entries[i] == Some(present[i]))
            && (Reached(present, names, a) <==>
                  && 1 <= a.seq_ <= |entries|
                  && match a.shape
                     case Linear => a.value == OfLink(present[a.seq_ - 1].hash)
                     case Tree =>
                       && names.declared != NO_NAME
                       && (a.value == OfRoot(TreeRoot(Leaves(present, names.declared), a.seq_))
                           || (names.alias != NO_NAME && (a.install == NO_NAME || a.install == names.alias)
                               && a.value == OfRoot(TreeRoot(Leaves(present, names.alias), a.seq_))))
                     case OtherShape => false)
  {
    PresentIntact(entries, |entries|);
    var present := Present(entries, |entries|);
    LinkAtIntact(entries, present, a.seq_, |entries|);
    forall i | 0 <= i < |present| ensures present[i].body.Body? {
      assert Sound(entries, true, i);
    }
  }

  /** A leaf commits to the name and to the entry's body, and nothing else. */
  lemma LeafCommits(e: Entry, f: Entry, name: Name, other: Name)
    requires e.body.Body? && f.body.Body?
    ensures LeafOf(e, name) == LeafOf(f, other) <==> name == other && e.body == f.body
  {
  }

  /** Every recorded anchor counts: one that is not reached fails them all. */
  lemma EveryAnchorCounts(entries: seq<Entry>, names: Names, anchors: seq<Anchor>)
    ensures AllReached(entries, names, anchors) <==> forall a :: a in anchors ==> Reached(entries, names, a)
  {
  }

  /**
    An anchor fixes history. Two intact chains that both reach one anchor, by link or by tree, hold the
    same entries up to it, and neither has lost its tail.
  */
  lemma AnchorFixesHistory(a: seq<Option<Entry>>, b: seq<Option<Entry>>, names: Names, anchor: Anchor)
    requires Intact(a) && Intact(b)
    requires Reached(Present(a, |a|), names, anchor) && Reached(Present(b, |b|), names, anchor)
    ensures 1 <= anchor.seq_ <= |a| && anchor.seq_ <= |b|
    ensures forall i :: 0 <= i < anchor.seq_ ==> a[i] == b[i]
  {
    PresentIntact(a, |a|);
    PresentIntact(b, |b|);
    var pa, pb := Present(a, |a|), Present(b, |b|);
    if anchor.shape == Linear {
      LinkFixesHistory(a, b, pa, pb, anchor);
    } else {
      var x := if TreeReached(pa, anchor, names.declared) then names.declared else names.alias;
      var y := if TreeReached(pb, anchor, names.declared) then names.declared else names.alias;
      TreeFixesHistory(a, b, pa, pb, anchor, x, y);
    }
  }

  lemma LinkFixesHistory(a: seq<Option<Entry>>, b: seq<Option<Entry>>, pa: seq<Entry>, pb: seq<Entry>, anchor: Anchor)
    requires Intact(a) && Intact(b) && |pa| == |a| && |pb| == |b|
    requires (forall i :: 0 <= i < |a| ==> a[i] == Some(pa[i])) && (forall i :: 0 <= i < |b| ==> b[i] == Some(pb[i]))
    requires LinkAt(pa, anchor.seq_, |pa|).Some? && LinkAt(pb, anchor.seq_, |pb|) == LinkAt(pa, anchor.seq_, |pa|)
    ensures 1 <= anchor.seq_ <= |a| && anchor.seq_ <= |b|
    ensures forall i :: 0 <= i < anchor.seq_ ==> a[i] == b[i]
  {
    LinkAtIntact(a, pa, anchor.seq_, |a|);
    LinkAtIntact(b, pb, anchor.seq_, |b|);
    forall i | 0 <= i < anchor.seq_ ensures a[i] == b[i] {
      NewestLinkFixesChain(a, b, anchor.seq_ - 1, i);
    }
  }

  lemma TreeFixesHistory(a: seq<Option<Entry>>, b: seq<Option<Entry>>, pa: seq<Entry>, pb: seq<Entry>, anchor: Anchor, x: Name, y: Name)
    requires Intact(a) && Intact(b) && |pa| == |a| && |pb| == |b| && Writable(pa) && Writable(pb)
    requires (forall i :: 0 <= i < |a| ==> a[i] == Some(pa[i])) && (forall i :: 0 <= i < |b| ==> b[i] == Some(pb[i]))
    requires TreeReached(pa, anchor, x) && TreeReached(pb, anchor, y)
    ensures forall i :: 0 <= i < anchor.seq_ ==> a[i] == b[i]
  {
    RootDeterminesLeaves(Leaves(pa, x), Leaves(pb, y), 0, anchor.seq_);
    forall i | 0 <= i < anchor.seq_ ensures pa[i].body == pb[i].body {
      assert Leaves(pa, x)[i] == Leaves(pb, y)[i];
    }
    BodiesFixChain(a, b, anchor.seq_);
  }
}
