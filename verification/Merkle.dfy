/**
  The tree a push's consistency proof speaks about: the RFC 6962 tree over a chain's leaf hashes.

  Hashes are a free term algebra, so two hashes are equal exactly when they were built alike. That is
  the collision resistance the witness relies on, and it needs no axiom. A hash the witness receives
  is any term at all, not only the root of a real tree.
*/
module Merkle {
  import opened Options
  import opened SnocLists

  /**
    Leaf stands for any 32 bytes not known to be an interior node. A leaf hash of the audit tree commits
    to an install's name and an entry's body.
  */
  datatype Hash = Empty | Leaf(install: int, body: int) | Node(left: Hash, right: Hash)

  // ---------------------------------------------------------------------------------------------
  // Where a tree divides
  // ---------------------------------------------------------------------------------------------

  function Exp2(e: nat): (r: nat)
    ensures r >= 1
  {
    if e == 0 then 1 else 2 * Exp2(e - 1)
  }

  /** Doubles k while twice k stays below n. */
  function Grow(k: nat, n: nat): (r: nat)
    requires 1 <= k < n
    ensures k <= r < n <= 2 * r
    decreases n - k
  {
    if 2 * k < n then Grow(2 * k, n) else k
  }

  /** How many of n leaves go to the left subtree, by section 2.1 of RFC 6962. */
  function SplitPoint(n: nat): (k: nat)
    requires n > 1
    ensures 1 <= k < n <= 2 * k
  {
    Grow(1, n)
  }

  lemma {:induction false} GrowUnique(i: nat, n: nat, e: nat)
    requires i <= e && Exp2(i) <= Exp2(e) < n <= 2 * Exp2(e)
    ensures Grow(Exp2(i), n) == Exp2(e)
    decreases e - i
  {
    if i < e {
      ExpMonotone(i + 1, e);
      GrowUnique(i + 1, n, e);
    }
  }

  /** A power of two that n lies strictly above and at most twice above is n's split point. */
  lemma SplitPointUnique(n: nat, e: nat)
    requires Exp2(e) < n <= 2 * Exp2(e)
    ensures SplitPoint(n) == Exp2(e)
  {
    GrowUnique(0, n, e);
  }

  lemma {:induction false} ExpMonotone(a: nat, b: nat)
    requires a <= b
    ensures Exp2(a) <= Exp2(b)
  {
    if a < b {
      ExpMonotone(a, b - 1);
    }
  }

  /** The client's doubling loop finds the split point. */
  method FindSplitPoint(n: nat) returns (k: nat)
    requires n > 1
    ensures k == SplitPoint(n)
    ensures k < n <= 2 * k
  {
    k := 1;
    while 2 * k < n
      invariant 1 <= k < n && Grow(k, n) == SplitPoint(n)
      decreases n - k
    {
      k := 2 * k;
    }
  }

  lemma {:induction false} GrowInside(k: nat, n: nat, m: nat)
    requires 1 <= k < n && Grow(k, n) < m <= n
    ensures Grow(k, m) == Grow(k, n)
    decreases n - k
  {
    if 2 * k < n {
      GrowInside(2 * k, n, m);
    }
  }

  /** A size between a tree's split point and the tree's own size splits where the tree does. */
  lemma SplitInside(n: nat, m: nat)
    requires n > 1 && SplitPoint(n) < m <= n
    ensures SplitPoint(m) == SplitPoint(n)
  {
    GrowInside(1, n, m);
  }

  /** A tree of at most 2^e leaves divides into halves of at most 2^(e-1). */
  lemma {:induction false} SplitHalves(n: nat, e: nat)
    requires 1 < n <= Exp2(e)
    ensures e >= 1 && SplitPoint(n) <= Exp2(e - 1)
    decreases e
  {
    if n <= Exp2(e - 1) {
      SplitHalves(n, e - 1);
    } else {
      SplitPointUnique(n, e - 1);
    }
  }

  // ---------------------------------------------------------------------------------------------
  // Roots and proofs, as the client builds them
  // ---------------------------------------------------------------------------------------------

  /** The root of the tree over the n leaves from lo on. */
  function Root(leaves: seq<Hash>, lo: nat, n: nat): Hash
    requires lo + n <= |leaves|
    decreases n
  {
    if n == 0 then Empty
    else if n == 1 then leaves[lo]
    else
      var k := SplitPoint(n);
      Node(Root(leaves, lo, k), Root(leaves, lo + k, n - k))
  }

  /** The root over the first n leaves. */
  function TreeRoot(leaves: seq<Hash>, n: nat): Hash
    requires n <= |leaves|
  {
    Root(leaves, 0, n)
  }

  /** SUBPROOF of section 2.1.2 of RFC 6962, for the first m of the n leaves from lo on. */
  function SubProof(leaves: seq<Hash>, lo: nat, n: nat, m: nat, complete: bool): List<Hash>
    requires lo + n <= |leaves| && 1 <= m <= n
    decreases n
  {
    if m == n then
      if complete then End else More(End, Root(leaves, lo, n))
    else
      var k := SplitPoint(n);
      if m <= k then More(SubProof(leaves, lo, k, m, complete), Root(leaves, lo + k, n - k))
      else More(SubProof(leaves, lo + k, n - k, m - k, false), Root(leaves, lo, k))
  }

  /** The proof that the tree of size n grew from size first. None is the client's refusal. */
  function ConsistencyProof(leaves: seq<Hash>, first: int, n: nat): Option<List<Hash>>
    requires n <= |leaves|
  {
    if first < 0 || first > n then None
    else if first == 0 || first == n then Some(End)
    else Some(SubProof(leaves, 0, n, first, true))
  }

  lemma {:induction false} SubProofLength(leaves: seq<Hash>, lo: nat, n: nat, m: nat, complete: bool, e: nat)
    requires lo + n <= |leaves| && 1 <= m <= n <= Exp2(e)
    ensures Count(SubProof(leaves, lo, n, m, complete)) <= e + 1
    decreases n
  {
    if m < n {
      var k := SplitPoint(n);
      SplitHalves(n, e);
      if m <= k {
        SubProofLength(leaves, lo, k, m, complete, e - 1);
      } else {
        SubProofLength(leaves, lo + k, n - k, m - k, false, e - 1);
      }
    }
  }

  /**
    An honest proof is at most one hash longer than the tree is tall: over a tree of at most 2^e
    leaves every proof a client can build has at most e + 1 hashes.
  */
  lemma ConsistencyProofLength(leaves: seq<Hash>, first: int, n: nat, e: nat)
    requires n <= |leaves| && n <= Exp2(e)
    requires ConsistencyProof(leaves, first, n).Some?
    ensures Count(ConsistencyProof(leaves, first, n).value) <= e + 1
  {
    if 0 < first < n {
      SubProofLength(leaves, 0, n, first, true, e);
    }
  }

  // ---------------------------------------------------------------------------------------------
  // The verifier
  // ---------------------------------------------------------------------------------------------

  datatype Pair = Pair(older: Hash, newer: Hash)

  /**
    Folds a proof back into the two roots it connects, undoing SubProof from its last hash. known is
    the older root, which a complete subtree's proof does not carry.
  */
  function Fold(m: nat, n: nat, complete: bool, known: Hash, proof: List<Hash>): Option<Pair>
    requires 1 <= m <= n
    decreases n
  {
    if m == n then
      if complete then (if proof.End? then Some(Pair(known, known)) else None)
      else if proof.More? && proof.front.End? then Some(Pair(proof.last, proof.last)) else None
    else if proof.End? then None
    else
      var k := SplitPoint(n);
      if m <= k then OverRight(Fold(m, k, complete, known, proof.front), proof.last)
      else OverLeft(Fold(m - k, n - k, false, known, proof.front), proof.last)
  }

  function OverRight(p: Option<Pair>, sibling: Hash): Option<Pair> {
    if p.None? then None else Some(Pair(p.value.older, Node(p.value.newer, sibling)))
  }

  function OverLeft(p: Option<Pair>, sibling: Hash): Option<Pair> {
    if p.None? then None else Some(Pair(Node(sibling, p.value.older), Node(sibling, p.value.newer)))
  }

  /** Whether proof shows that the tree of size n with root newer grew from size m with root older. */
  predicate VerifyConsistency(m: int, n: int, older: Hash, newer: Hash, proof: List<Hash>) {
    1 <= m <= n && Fold(m, n, true, older, proof) == Some(Pair(older, newer))
  }

  /**
    The root over the first m leaves of the tree of n leaves whose root is h, read off h itself.
    None when h is not built far enough to have such a prefix.
  */
  function Prefix(h: Hash, n: nat, m: nat): Option<Hash>
    requires 1 <= m <= n
    decreases n
  {
    if m == n then Some(h)
    else if !h.Node? then None
    else
      var k := SplitPoint(n);
      if m <= k then Prefix(h.left, k, m) else Under(h.left, Prefix(h.right, n - k, m - k))
  }

  function Under(left: Hash, right: Option<Hash>): Option<Hash> {
    if right.None? then None else Some(Node(left, right.value))
  }

  /** The tree of size n with root newer extends the one of size m with root older. */
  predicate Extends(n: int, newer: Hash, m: int, older: Hash) {
    1 <= m <= n && Prefix(newer, n, m) == Some(older)
  }

  /** A proof that folds connects a tree with its own prefix. */
  lemma {:induction false} FoldSound(m: nat, n: nat, complete: bool, known: Hash, proof: List<Hash>)
    requires 1 <= m <= n
    requires Fold(m, n, complete, known, proof).Some?
    ensures Prefix(Fold(m, n, complete, known, proof).value.newer, n, m)
         == Some(Fold(m, n, complete, known, proof).value.older)
    decreases n
  {
    if m < n {
      var k := SplitPoint(n);
      if m <= k {
        FoldSound(m, k, complete, known, proof.front);
      } else {
        FoldSound(m - k, n - k, false, known, proof.front);
      }
    }
  }

  /** Every prefix of a root has a proof that folds. */
  lemma {:induction false} FoldComplete(h: Hash, n: nat, m: nat, complete: bool, known: Hash) returns (proof: List<Hash>)
    requires 1 <= m <= n && Prefix(h, n, m).Some?
    requires complete ==> Prefix(h, n, m) == Some(known)
    ensures Fold(m, n, complete, known, proof) == Some(Pair(Prefix(h, n, m).value, h))
    decreases n
  {
    if m == n {
      proof := if complete then End else More(End, h);
    } else {
      var k := SplitPoint(n);
      if m <= k {
        var rest := FoldComplete(h.left, k, m, complete, known);
        proof := More(rest, h.right);
      } else {
        var rest := FoldComplete(h.right, n - k, m - k, false, known);
        proof := More(rest, h.left);
      }
    }
  }

  /**
    The verifier accepts exactly the extensions: some proof passes if and only if the older root is
    the newer tree's own prefix at that size.
  */
  lemma VerifierExact(m: int, n: int, older: Hash, newer: Hash)
    ensures (exists proof :: VerifyConsistency(m, n, older, newer, proof)) <==> Extends(n, newer, m, older)
  {
    if proof :| VerifyConsistency(m, n, older, newer, proof) {
      FoldSound(m, n, true, older, proof);
    }
    if Extends(n, newer, m, older) {
      var proof := FoldComplete(newer, n, m, true, older);
      assert VerifyConsistency(m, n, older, newer, proof);
    }
  }

  /** Extension is transitive: what a later tree extends, every still later tree extends too. */
  lemma {:induction false} ExtendsTransitive(h: Hash, k: nat, n: nat, m: nat)
    requires 1 <= m <= n <= k
    requires Prefix(h, k, n).Some?
    ensures Prefix(h, k, m) == Prefix(Prefix(h, k, n).value, n, m)
    decreases k
  {
    if n < k && m < n {
      var s := SplitPoint(k);
      if n <= s {
        ExtendsTransitive(h.left, s, n, m);
      } else {
        SplitInside(k, n);
        if m > s {
          ExtendsTransitive(h.right, k - s, n - s, m - s);
        }
      }
    }
  }

  // ---------------------------------------------------------------------------------------------
  // Real trees
  // ---------------------------------------------------------------------------------------------

  /** A proof the client builds folds back into the roots it was built between. */
  lemma {:induction false} SubProofFolds(leaves: seq<Hash>, lo: nat, n: nat, m: nat, complete: bool, known: Hash)
    requires lo + n <= |leaves| && 1 <= m <= n
    requires complete ==> known == Root(leaves, lo, m)
    ensures Fold(m, n, complete, known, SubProof(leaves, lo, n, m, complete))
         == Some(Pair(Root(leaves, lo, m), Root(leaves, lo, n)))
    decreases n
  {
    if m < n {
      var k := SplitPoint(n);
      if m <= k {
        SubProofFolds(leaves, lo, k, m, complete, known);
      } else {
        SubProofFolds(leaves, lo + k, n - k, m - k, false, known);
        SplitInside(n, m);
      }
    }
  }

  /** Every proof the client builds verifies, and a real tree's prefix is its first leaves' tree. */
  lemma HonestProofVerifies(leaves: seq<Hash>, m: nat, n: nat)
    requires 1 <= m <= n <= |leaves|
    ensures VerifyConsistency(m, n, TreeRoot(leaves, m), TreeRoot(leaves, n), ConsistencyProof(leaves, m, n).value)
    ensures Extends(n, TreeRoot(leaves, n), m, TreeRoot(leaves, m))
  {
    var known := TreeRoot(leaves, m);
    SubProofFolds(leaves, 0, n, m, true, known);
    FoldSound(m, n, true, known, SubProof(leaves, 0, n, m, true));
  }

  /** Two runs of leaves of one length and one root are one run. */
  lemma {:induction false} RootDeterminesLeaves(a: seq<Hash>, b: seq<Hash>, lo: nat, n: nat)
    requires lo + n <= |a| && lo + n <= |b| && Root(a, lo, n) == Root(b, lo, n)
    ensures forall i :: lo <= i < lo + n ==> a[i] == b[i]
    decreases n
  {
    if n > 1 {
      var k := SplitPoint(n);
      RootDeterminesLeaves(a, b, lo, k);
      RootDeterminesLeaves(a, b, lo + k, n - k);
    }
  }

  /**
    No rewrite passes: if the witness holds the root over all of older and a verified proof connects
    it with the root over all of newer, then newer starts with older.
  */
  lemma NoRewritePasses(older: seq<Hash>, newer: seq<Hash>, proof: List<Hash>)
    requires VerifyConsistency(|older|, |newer|, TreeRoot(older, |older|), TreeRoot(newer, |newer|), proof)
    ensures older == newer[..|older|]
  {
    FoldSound(|older|, |newer|, true, TreeRoot(older, |older|), proof);
    HonestProofVerifies(newer, |older|, |newer|);
    RootDeterminesLeaves(older, newer, 0, |older|);
  }

  /** A proof carries nothing to spare: what it folds to determines every hash of it. */
  lemma {:induction false} FoldUnique(m: nat, n: nat, complete: bool, known: Hash, p: List<Hash>, q: List<Hash>)
    requires 1 <= m <= n && Fold(m, n, complete, known, p).Some? && Fold(m, n, complete, known, q).Some?
    requires Fold(m, n, complete, known, p).value.newer == Fold(m, n, complete, known, q).value.newer
    ensures p == q
    decreases n
  {
    if m < n {
      var k := SplitPoint(n);
      if m <= k {
        FoldUnique(m, k, complete, known, p.front, q.front);
      } else {
        FoldUnique(m - k, n - k, false, known, p.front, q.front);
      }
    }
  }

  /** Between the roots of a real tree at two sizes one proof passes, and it is the one the recursion builds. */
  lemma OnlyHonestProof(leaves: seq<Hash>, m: nat, n: nat, proof: List<Hash>)
    requires 1 <= m <= n <= |leaves|
    ensures VerifyConsistency(m, n, TreeRoot(leaves, m), TreeRoot(leaves, n), proof) <==> Some(proof) == ConsistencyProof(leaves, m, n)
  {
    HonestProofVerifies(leaves, m, n);
    if VerifyConsistency(m, n, TreeRoot(leaves, m), TreeRoot(leaves, n), proof) {
      FoldUnique(m, n, true, TreeRoot(leaves, m), proof, ConsistencyProof(leaves, m, n).value);
    }
  }
}
