/**
  The audit chain: what makes a sequence of entries intact, the scanner that finds the first place it is
  not, and what an intact chain cannot hide.
*/
module Chain {
  import opened Options

  /** The largest sequence a claim can be canonicalized with. */
  const MAX_CANONICAL := 0x20_0000_0000_0000

  /** A link as stored: empty, the digest of a claim, or any other text. */
  datatype Text = Blank | Digest(claim: Claim) | Other(text: string)

  /** What a link is computed over. */
  datatype Claim = Claim(seq_: int, prev: Text, body: Body)

  /** An entry's other fields: text that canonicalizes, or text that does not. */
  datatype Body = Body(fields: nat) | Unwritable(fields: nat)

  datatype Entry = Entry(seq_: int, prevHash: Text, hash: Text, body: Body)

  /** The link recomputed over an entry, none when it cannot be canonicalized at all. */
  function EntryHash(e: Entry): Option<Text> {
    if e.seq_ > MAX_CANONICAL || e.body.Unwritable? then None else Some(Digest(Claim(e.seq_, e.prevHash, e.body)))
  }

  // ---------------------------------------------------------------------------------------------
  // What a sound chain is
  // ---------------------------------------------------------------------------------------------

  /** An entry that is there and whose own link recomputes. */
  predicate Recomputes(e: Option<Entry>) {
    e.Some? && e.value.hash != Blank && e.value.seq_ >= 1 && EntryHash(e.value) == Some(e.value.hash)
  }

  predicate Opens(e: Entry, genesis: bool) {
    if genesis then e.seq_ == 1 && e.prevHash == Blank else (e.seq_ == 1) == (e.prevHash == Blank)
  }

  predicate Follows(e: Entry, before: Entry) {
    e.seq_ == before.seq_ + 1 && e.prevHash == before.hash
  }

  /** Entry i checks out where it stands. */
  predicate Sound(entries: seq<Option<Entry>>, genesis: bool, i: nat)
    requires i < |entries|
  {
    && Recomputes(entries[i])
    && if i == 0 then Opens(entries[0].value, genesis)
       else entries[i - 1].Some? && Follows(entries[i].value, entries[i - 1].value)
  }

  /** at counts entries up to and including the first unsound one; zero means there is none. */
  predicate FirstBreak(entries: seq<Option<Entry>>, genesis: bool, at: int) {
    && 0 <= at <= |entries|
    && (forall i :: 0 <= i < (if at == 0 then |entries| else at - 1) ==> Sound(entries, genesis, i))
    && (at > 0 ==> !Sound(entries, genesis, at - 1))
  }

  lemma FirstBreakUnique(entries: seq<Option<Entry>>, genesis: bool, a: int, b: int)
    requires FirstBreak(entries, genesis, a) && FirstBreak(entries, genesis, b)
    ensures a == b
  {
  }

  // ---------------------------------------------------------------------------------------------
  // The scanner
  // ---------------------------------------------------------------------------------------------

  class ChainScanner {
    const fromGenesis: bool
    var prev: Option<Entry>
    var count: nat
    var brokeAt: nat
    ghost var fed: seq<Option<Entry>>

    ghost predicate Valid()
      reads this
    {
      && count == |fed| && FirstBreak(fed, fromGenesis, brokeAt)
      && (brokeAt == 0 ==> prev == if count == 0 then None else fed[count - 1])
    }

    constructor (fromGenesis: bool)
      ensures this.fromGenesis == fromGenesis && fed == [] && Valid()
    {
      this.fromGenesis, prev, count, brokeAt, fed := fromGenesis, None, 0, 0, [];
    }

    /** Takes one more entry. The first break, once found, stays the answer. */
    method Feed(e: Option<Entry>)
      requires Valid()
      modifies this
      ensures Valid() && fed == old(fed) + [e]
      ensures if old(brokeAt) != 0 then brokeAt == old(brokeAt) else brokeAt == 0 || brokeAt == count
    {
      ghost var before := fed;
      assert brokeAt == 0 && |before| > 0 ==> Sound(before, fromGenesis, |before| - 1);
      count, fed := count + 1, fed + [e];
      assert forall i :: 0 <= i < |before| ==> fed[i] == before[i];
      assert forall i :: 0 <= i < |before| ==> (Sound(fed, fromGenesis, i) <==> Sound(before, fromGenesis, i));
      if brokeAt != 0 {
        return;
      }
      if e.None? || e.value.hash == Blank || e.value.seq_ < 1 {
        brokeAt := count;
        return;
      }
      var want := EntryHash(e.value);
      if want.None? || e.value.hash != want.value {
        brokeAt := count;
        return;
      }
      if prev.None? {
        if fromGenesis {
          if e.value.seq_ != 1 || e.value.prevHash != Blank {
            brokeAt := count;
            return;
          }
        } else if (e.value.seq_ == 1) != (e.value.prevHash == Blank) {
          brokeAt := count;
          return;
        }
      } else if e.value.seq_ != prev.value.seq_ + 1 || e.value.prevHash != prev.value.hash {
        brokeAt := count;
        return;
      }
      assert Sound(fed, fromGenesis, |before|);
      prev := e;
    }
  }

  /** Verify: feed the whole slice. */
  method Verify(entries: seq<Option<Entry>>) returns (ok: bool, brokeAt: nat)
    ensures FirstBreak(entries, true, brokeAt) && ok == (brokeAt == 0)
  {
    var v := new ChainScanner(true);
    for i := 0 to |entries|
      invariant v.Valid() && v.fromGenesis && v.fed == entries[..i]
    {
      v.Feed(entries[i]);
    }
    assert entries[..|entries|] == entries;
    return v.brokeAt == 0, v.brokeAt;
  }

  /** The sequence of the newest entry that is there among the first n. */
  function Newest(entries: seq<Option<Entry>>, n: nat): int
    requires n <= |entries|
  {
    if n == 0 then 0 else if entries[n - 1].Some? then entries[n - 1].value.seq_ else Newest(entries, n - 1)
  }

  // ---------------------------------------------------------------------------------------------
  // What a walk that found no break has established
  // ---------------------------------------------------------------------------------------------

  ghost predicate Intact(entries: seq<Option<Entry>>) {
    FirstBreak(entries, true, 0)
  }

  /** Position is sequence: the entry at place i is the one numbered i + 1. */
  lemma {:induction false} NumberedFromOne(entries: seq<Option<Entry>>, i: nat)
    requires Intact(entries) && i < |entries|
    ensures entries[i].Some? && entries[i].value.seq_ == i + 1
  {
    assert Sound(entries, true, i);
    if i > 0 { NumberedFromOne(entries, i - 1); }
  }

  /** The newest link fixes the whole chain: two intact chains that share one share every entry up to it. */
  lemma {:induction false} NewestLinkFixesChain(a: seq<Option<Entry>>, b: seq<Option<Entry>>, n: nat, i: nat)
    requires Intact(a) && Intact(b) && i <= n < |a| && n < |b|
    requires a[n].Some? && b[n].Some? && a[n].value.hash == b[n].value.hash
    ensures a[i] == b[i]
    decreases n
  {
    assert Sound(a, true, n) && Sound(b, true, n);
    if i < n {
      assert Sound(a, true, n - 1) && Sound(b, true, n - 1);
      NewestLinkFixesChain(a, b, n - 1, i);
    }
  }

  /** What the entries say fixes how they are linked: intact chains with the same bodies are the same. */
  lemma {:induction false} BodiesFixChain(a: seq<Option<Entry>>, b: seq<Option<Entry>>, n: nat)
    requires Intact(a) && Intact(b) && n <= |a| && n <= |b|
    requires forall i :: 0 <= i < n ==> a[i].Some? && b[i].Some? && a[i].value.body == b[i].value.body
    ensures forall i :: 0 <= i < n ==> a[i] == b[i]
  {
    if n > 0 {
      BodiesFixChain(a, b, n - 1);
      assert Sound(a, true, n - 1) && Sound(b, true, n - 1);
      NumberedFromOne(a, n - 1);
      NumberedFromOne(b, n - 1);
    }
  }

  // ---------------------------------------------------------------------------------------------
  // The chain an honest store writes
  // ---------------------------------------------------------------------------------------------

  /** Entry i of the chain over these bodies, as appending one after another writes it. */
  function Appended(bodies: seq<Body>, i: nat): Entry
    requires i < |bodies|
  {
    var prev := if i == 0 then Blank else Appended(bodies, i - 1).hash;
    Entry(i + 1, prev, Digest(Claim(i + 1, prev, bodies[i])), bodies[i])
  }

  /** The bodies of entries that are there. */
  function Bodies(entries: seq<Option<Entry>>): seq<Body>
    requires forall i :: 0 <= i < |entries| ==> entries[i].Some?
  {
    seq(|entries|, i requires 0 <= i < |entries| => entries[i].value.body)
  }

  /** Nothing is missing, every body can be written, and no sequence is past 2^53. */
  predicate Complete(entries: seq<Option<Entry>>) {
    |entries| <= 0x20_0000_0000_0000 && forall i :: 0 <= i < |entries| ==> entries[i].Some? && entries[i].value.body.Body?
  }

  /** Intact chains are exactly the chains an honest store writes: each entry is the one appending it to those before it gives. */
  lemma IntactExactly(entries: seq<Option<Entry>>)
    ensures Intact(entries) <==>
              Complete(entries) && forall i :: 0 <= i < |entries| ==> entries[i].value == Appended(Bodies(entries), i)
  {
    if Intact(entries) {
      IntactWritable(entries);
      forall i | 0 <= i < |entries| ensures entries[i].value == Appended(Bodies(entries), i) {
        IntactAppended(entries, i);
      }
    } else if Complete(entries) && forall i :: 0 <= i < |entries| ==> entries[i].value == Appended(Bodies(entries), i) {
      forall i | 0 <= i < |entries| ensures Sound(entries, true, i) {
        AppendedSound(entries, i);
      }
    }
  }

  lemma IntactWritable(entries: seq<Option<Entry>>)
    requires Intact(entries)
    ensures Complete(entries)
  {
    forall i | 0 <= i < |entries| ensures entries[i].Some? && entries[i].value.body.Body? && i + 1 <= 0x20_0000_0000_0000 {
      assert Sound(entries, true, i);
      NumberedFromOne(entries, i);
    }
    if |entries| > 0 {
      assert Sound(entries, true, |entries| - 1);
      NumberedFromOne(entries, |entries| - 1);
    }
  }

  lemma AppendedSound(entries: seq<Option<Entry>>, i: nat)
    requires Complete(entries) && i < |entries| && entries[i].value == Appended(Bodies(entries), i)
    requires i > 0 ==> entries[i - 1].value == Appended(Bodies(entries), i - 1)
    ensures Sound(entries, true, i)
  {
  }

  lemma {:induction false} IntactAppended(entries: seq<Option<Entry>>, i: nat)
    requires Intact(entries) && i < |entries| && (forall j :: 0 <= j < |entries| ==> entries[j].Some?)
    ensures entries[i].value == Appended(Bodies(entries), i)
  {
    assert Sound(entries, true, i);
    NumberedFromOne(entries, i);
    if i > 0 { IntactAppended(entries, i - 1); }
  }

  /** Any part of an intact chain checks out as a range, and a range that checks out is numbered in order, from a first entry that has a link before it unless it is entry one. */
  lemma SliceSound(entries: seq<Option<Entry>>, lo: nat, hi: nat)
    requires Intact(entries) && lo <= hi <= |entries|
    ensures FirstBreak(entries[lo..hi], false, 0)
  {
    var part := entries[lo..hi];
    forall i | 0 <= i < |part| ensures Sound(part, false, i) {
      assert Sound(entries, true, lo + i);
      NumberedFromOne(entries, lo + i);
      if lo + i > 0 {
        assert Sound(entries, true, lo + i - 1);
      }
    }
  }

  lemma {:induction false} RangeNumbered(part: seq<Option<Entry>>, i: nat)
    requires FirstBreak(part, false, 0) && i < |part|
    ensures part[0].Some? && part[i].Some? && part[i].value.seq_ == part[0].value.seq_ + i && part[0].value.seq_ >= 1
    ensures part[0].value.seq_ == 1 <==> part[0].value.prevHash == Blank
    ensures part[i].value.hash == Digest(Claim(part[i].value.seq_, part[i].value.prevHash, part[i].value.body))
    ensures i > 0 ==> part[i - 1].Some? && part[i].value.prevHash == part[i - 1].value.hash
  {
    assert Sound(part, false, i) && Sound(part, false, 0);
    if i > 0 { RangeNumbered(part, i - 1); }
  }
}
