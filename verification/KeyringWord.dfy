/**
  Whose word a key is, across rotations: which published lists a client accepts, which stored memory
  the witness still reads, and which key countersigns a coordinate again.
*/
module KeyringWord {
  import opened Options
  import opened KeyLists
  import opened Keyring
  import opened KeyringRuns

  function HeldKeys(held: seq<HeldKey>): seq<Key> {
    seq(|held|, i requires 0 <= i < |held| => held[i].key)
  }

  /** The list the witness publishes: its history, signed by its current key, endorsed by every retired key it holds. */
  function Publish(ring: Keyring): KeyList {
    Signed(ring.history, ring.current, HeldKeys(ring.held))
  }

  /** The witness can still sign with k. */
  predicate CanSign(ring: Keyring, k: Key) {
    ring.current == k || k in HeldKeys(ring.held)
  }

  ghost predicate HeldFrom(keys: seq<WitnessKey>, n: nat, h: HeldKey)
    requires n <= |keys|
  {
    exists i :: 0 <= i < n && keys[i].id == Digest(h.key) && !keys[i].retired.Blank? && KeyPeriod(keys[i]) == Some(Period(h.from, h.until))
  }

  /** Each held key is a listed retired key with that key's period, and none is held twice. */
  lemma {:induction false} HeldListed(keys: seq<WitnessKey>, n: nat, files: map<KeyID, Key>)
    requires n <= |keys| && Distinct(keys) && HeldIn(keys, n, files).Some?
    ensures forall h :: h in HeldIn(keys, n, files).value ==> HeldFrom(keys, n, h)
    ensures forall a, b :: 0 <= a < b < |HeldIn(keys, n, files).value| ==>
              HeldIn(keys, n, files).value[a].key != HeldIn(keys, n, files).value[b].key
  {
    if n > 0 {
      HeldListed(keys, n - 1, files);
      var before, held := HeldIn(keys, n - 1, files).value, HeldIn(keys, n, files).value;
      assert forall h :: h in before ==> HeldFrom(keys, n, h);
      if held != before {
        assert keys[n - 1].id == Digest(held[|before|].key);
        assert HeldFrom(keys, n, held[|before|]);
        forall a | 0 <= a < |before| ensures before[a].key != held[|before|].key {
          assert before[a] in before;
        }
      }
    }
  }

  lemma RingHeld(d: KeyDir)
    requires Sound(d)
    ensures var ring := Ring(d);
            (forall h :: h in ring.held ==> HeldFrom(ring.history, |ring.history|, h)) && NoRepeats(HeldKeys(ring.held))
  {
    var ring := Ring(d);
    if d.history.Some? {
      HeldListed(ring.history, |ring.history|, d.files);
    }
  }

  /** Every list a sound directory publishes verifies. */
  lemma PublishVerifies(d: KeyDir)
    requires Sound(d)
    ensures Verified(Publish(Ring(d)))
  {
    var ring := Ring(d);
    RingHeld(d);
    var keys := HeldKeys(ring.held);
    forall k | k in keys ensures ListsRetired(ring.history, k) {
      var a :| 0 <= a < |keys| && keys[a] == k;
      assert HeldFrom(ring.history, |ring.history|, ring.held[a]);
      var i :| 0 <= i < |ring.history| && ring.history[i].id == Digest(k) && !ring.history[i].retired.Blank?;
      assert ring.history[i] in ring.history;
    }
    SignedVerifies(ring.history, ring.current, keys);
  }

  /** The list carries a signature by the key another list names as current exactly when the witness can sign with it. */
  lemma HolderSigned(prev: Keyring, next: Keyring)
    ensures SignedByHolder(Publish(prev), Publish(next)) <==> CanSign(next, prev.current)
  {
    var keys, ends := HeldKeys(next.held), Publish(next).endorsements;
    assert |ends| == |keys| && forall a :: 0 <= a < |keys| ==> ends[a].id == Digest(keys[a]);
    if prev.current in keys {
      var a :| 0 <= a < |keys| && keys[a] == prev.current;
      assert ends[a] in ends;
    }
    if e :| e in ends && e.id == Digest(prev.current) {
      var a :| 0 <= a < |ends| && ends[a] == e;
      assert keys[a] == prev.current;
    }
  }

  /**
    A client holding any list the witness ever published accepts the newest one, after any run of
    rotations stopped anywhere, restarts and deleted key files, exactly when the witness can still
    sign with the key that list named as current.
  */
  lemma ClientAcceptsNewest(d: KeyDir, events: seq<Event>)
    requires Sound(d) && Clocked(events)
    ensures Sound(Run(d, events))
    ensures Accepts(Publish(Ring(d)), Publish(Ring(Run(d, events)))) <==> CanSign(Ring(Run(d, events)), Ring(d).current)
  {
    RunKeeps(d, events);
    PublishVerifies(d);
    PublishVerifies(Run(d, events));
    HolderSigned(Ring(d), Ring(Run(d, events)));
  }

  // ---------------------------------------------------------------------------------------------
  // Stored memory
  // ---------------------------------------------------------------------------------------------

  /** loadMemory's rule for memory signed by signer and observed at observed. */
  predicate MemoryLoads(ring: Keyring, signer: Key, observed: int) {
    signer == ring.current
    || (Retires(ring.history, signer)
        && forall w :: w in ring.history && RetiredAs(w, signer) ==> observed < KeyPeriod(w).value.until)
  }

  predicate RetiredAs(w: WitnessKey, k: Key) {
    !w.retired.Blank? && w.pub == Raw(k) && KeyPeriod(w).Some?
  }

  predicate Retires(keys: seq<WitnessKey>, k: Key) {
    exists w :: w in keys && RetiredAs(w, k)
  }

  /** Memory loads exactly when its signer is listed and had not retired when the memory was observed. */
  lemma MemoryLoadsExactly(d: KeyDir, w: WitnessKey, observed: int)
    requires Sound(d) && w in Ring(d).history
    ensures MemoryLoads(Ring(d), w.pub.key, observed) <==> w.retired.Blank? || observed < w.retired.time
  {
    var keys := Ring(d).history;
    forall v | v in keys && v.pub == w.pub ensures v == w {
      var i, j :| 0 <= i < |keys| && 0 <= j < |keys| && keys[i] == v && keys[j] == w;
    }
  }

  /** Whether every rotation in the run happens after t. */
  ghost predicate RotatesAfter(events: seq<Event>, t: int) {
    forall e :: e in events && e.Rotate? ==> e.now > t
  }

  lemma RotateStillLoads(d: KeyDir, e: Event, k: Key, t: int)
    requires Sound(d) && Sound(Apply(d, e)) && e.Rotate? && e.now > 0 && e.now > t
    requires MemoryLoads(Ring(d), k, t)
    ensures MemoryLoads(Ring(Apply(d, e)), k, t)
  {
    RotateKeeps(d, e.made, e.now, e.stop);
    var keys, after := Ring(d).history, Ring(Apply(d, e)).history;
    if Commits(d, e.made, e.now, e.stop) {
      var i: nat;
      if k == Ring(d).current {
        i := |keys| - 1;
        var w :| w in keys && w.retired.Blank?;
        PeriodsClimbBlank(keys, w);
      } else {
        var w :| w in keys && RetiredAs(w, k);
        i :| 0 <= i < |keys| && keys[i] == w;
      }
      assert keys[i] in keys && after[i] in after;
      MemoryLoadsExactly(d, keys[i], t);
      MemoryLoadsExactly(Apply(d, e), after[i], t);
    }
  }

  lemma PeriodsClimbBlank(keys: seq<WitnessKey>, w: WitnessKey)
    requires Contiguous(keys) && w in keys && w.retired.Blank?
    ensures w == keys[|keys| - 1]
  {
    var i :| 0 <= i < |keys| && keys[i] == w;
    if i < |keys| - 1 {
      PeriodsClimb(keys, i, |keys| - 1);
    }
  }

  /** Memory the witness read before a run of rotations that come after it was observed, it still reads. */
  lemma {:induction false} MemoryStillLoads(d: KeyDir, events: seq<Event>, k: Key, t: int)
    requires Sound(d) && Clocked(events) && RotatesAfter(events, t) && MemoryLoads(Ring(d), k, t)
    ensures Sound(Run(d, events)) && MemoryLoads(Ring(Run(d, events)), k, t)
  {
    RunKeeps(d, events);
    if events != [] {
      var front, e := events[..|events| - 1], events[|events| - 1];
      assert e in events && forall x :: x in front ==> x in events;
      MemoryStillLoads(d, front, k, t);
      var before := Run(d, front);
      if e.Rotate? {
        RotateStillLoads(before, e, k, t);
      } else if e.Restart? {
        RestartKeeps(before);
      } else {
        DiscardKeeps(before, e.id);
      }
    }
  }

  /** Memory a retired key signed, observed at or after its retirement, loads after no run at all. */
  lemma RetiredMemoryNeverLoads(d: KeyDir, events: seq<Event>, w: WitnessKey, t: int)
    requires Sound(d) && Clocked(events) && w in Ring(d).history && w.retired.At? && w.retired.time <= t
    ensures Sound(Run(d, events)) && !MemoryLoads(Ring(Run(d, events)), w.pub.key, t)
  {
    RunKeeps(d, events);
    var kept :| kept in Ring(Run(d, events)).history && KeptAs(w, kept);
    MemoryLoadsExactly(Run(d, events), kept, t);
  }

  // ---------------------------------------------------------------------------------------------
  // Countersigning again
  // ---------------------------------------------------------------------------------------------

  /** The start of the current key's period, or zero with no rotation behind it. */
  function CurrentFrom(ring: Keyring): int {
    var cur := InUse(ring.history, 0);
    if |ring.history| < 2 || cur == |ring.history| || KeyPeriod(ring.history[cur]).None? then 0
    else KeyPeriod(ring.history[cur]).value.from
  }

  function FirstCovering(held: seq<HeldKey>, t: int, from: nat): (i: nat)
    requires from <= |held|
    ensures from <= i <= |held| && (i < |held| ==> held[i].from <= t < held[i].until)
    ensures forall j :: from <= j < i ==> !(held[j].from <= t < held[j].until)
    decreases |held| - from
  {
    if from == |held| || held[from].from <= t < held[from].until then from else FirstCovering(held, t, from + 1)
  }

  datatype Minting = Minting(key: Key, at: int)

  /** Who mints the answer to a checkpoint, and the instant the answer carries. */
  function MintingKey(ring: Keyring, observed: int, clock: int): Minting {
    if CurrentFrom(ring) == 0 || observed >= CurrentFrom(ring) then Minting(ring.current, observed)
    else
      var i := FirstCovering(ring.held, observed, 0);
      if i < |ring.held| then Minting(ring.held[i].key, observed) else Minting(ring.current, clock)
  }

  lemma CurrentIsLast(d: KeyDir)
    requires Sound(d)
    ensures var ring := Ring(d);
            InUse(ring.history, 0) == |ring.history| - 1 && ring.history[|ring.history| - 1].id == Digest(ring.current)
  {
    ContiguousInUse(Ring(d).history);
    assert Ring(d).history[|Ring(d).history| - 1] in Ring(d).history;
  }

  /** A held key whose listed period covers t is the only held key that covers it, and comes before the current key. */
  lemma HeldCoversAlone(d: KeyDir, a: nat, t: int)
    requires Sound(d) && a < |Ring(d).held| && Ring(d).held[a].from <= t < Ring(d).held[a].until
    ensures forall b :: 0 <= b < |Ring(d).held| && Ring(d).held[b].from <= t < Ring(d).held[b].until ==>
              Ring(d).held[b].key == Ring(d).held[a].key
    ensures t < CurrentFrom(Ring(d))
  {
    var ring := Ring(d);
    var keys := ring.history;
    RingHeld(d);
    CurrentIsLast(d);
    assert HeldFrom(keys, |keys|, ring.held[a]);
    var i :| 0 <= i < |keys| && keys[i].id == Digest(ring.held[a].key) && !keys[i].retired.Blank? && KeyPeriod(keys[i]) == Some(Period(ring.held[a].from, ring.held[a].until));
    PeriodsClimb(keys, i, |keys| - 1);
    forall b | 0 <= b < |ring.held| && ring.held[b].from <= t < ring.held[b].until
      ensures ring.held[b].key == ring.held[a].key
    {
      assert HeldFrom(keys, |keys|, ring.held[b]);
      var j :| 0 <= j < |keys| && keys[j].id == Digest(ring.held[b].key) && !keys[j].retired.Blank? && KeyPeriod(keys[j]) == Some(Period(ring.held[b].from, ring.held[b].until));
      if i < j {
        PeriodsClimb(keys, i, j);
      } else if j < i {
        PeriodsClimb(keys, j, i);
      }
    }
  }

  /** The key speaks for time t: it is listed, its period covers t, and the witness can sign with it. */
  ghost predicate SpeaksAt(ring: Keyring, k: Key, t: int) {
    CanSign(ring, k) && exists w :: w in ring.history && w.id == Digest(k) && KeyAt(ring.history, w.id, t) == Some(w)
  }

  /**
    A countersignature is minted at the time the memory was adopted by the key that was the witness's
    word then, whenever the witness can still sign with it.
  */
  lemma MintingIsTheWordThen(d: KeyDir, k: Key, t: int, clock: int)
    requires Sound(d) && SpeaksAt(Ring(d), k, t)
    ensures MintingKey(Ring(d), t, clock) == Minting(k, t)
  {
    var ring := Ring(d);
    var keys := ring.history;
    var w :| w in keys && w.id == Digest(k) && KeyAt(keys, w.id, t) == Some(w);
    CurrentIsLast(d);
    RingHeld(d);
    if k != ring.current {
      var a :| 0 <= a < |ring.held| && ring.held[a].key == k;
      assert HeldFrom(keys, |keys|, ring.held[a]);
      var i :| 0 <= i < |keys| && keys[i].id == Digest(k) && KeyPeriod(keys[i]) == Some(Period(ring.held[a].from, ring.held[a].until)) && !keys[i].retired.Blank?;
      var n := IndexOf(keys, w.id, 0);
      assert n == i;
      HeldCoversAlone(d, a, t);
      assert FirstCovering(ring.held, t, 0) < |ring.held|;
    }
  }

  lemma MintedByHolder(d: KeyDir, k: Key, t: int, clock: int)
    requires Sound(d) && k != Ring(d).current && MintingKey(Ring(d), t, clock) == Minting(k, t)
    ensures SpeaksAt(Ring(d), k, t)
  {
    var ring := Ring(d);
    var keys := ring.history;
    var a := FirstCovering(ring.held, t, 0);
    RingHeld(d);
    assert HeldKeys(ring.held)[a] == k;
    assert HeldFrom(keys, |keys|, ring.held[a]);
    var i :| 0 <= i < |keys| && keys[i].id == Digest(k) && KeyPeriod(keys[i]) == Some(Period(ring.held[a].from, ring.held[a].until)) && !keys[i].retired.Blank?;
    assert keys[i] in keys;
    IndexOfUnique(keys, keys[i]);
  }

  /** A key that had not retired by t still speaks for t after any run of later rotations, if it can sign. */
  lemma StillSpeaks(d: KeyDir, events: seq<Event>, t: int)
    requires Sound(d) && Clocked(events) && RotatesAfter(events, t)
    ensures Sound(Run(d, events))
    ensures var k, start := Ring(d).current, Ring(d).history[|Ring(d).history| - 1].validFrom.time;
            SpeaksAt(Ring(Run(d, events)), k, t) <==> CanSign(Ring(Run(d, events)), k) && start <= t
  {
    var k, after := Ring(d).current, Run(d, events);
    RunKeeps(d, events);
    CurrentIsLast(d);
    var w := Ring(d).history[|Ring(d).history| - 1];
    assert w in Ring(d).history;
    MemoryLoadsExactly(d, w, t);
    MemoryStillLoads(d, events, k, t);
    var kept :| kept in Ring(after).history && KeptAs(w, kept);
    MemoryLoadsExactly(after, kept, t);
    IndexOfUnique(Ring(after).history, kept);
  }

  /**
    A retried push across any run of rotations that come after the adoption at t. Once another key is
    current, it is answered with the bytes the adopting key first minted exactly when the witness can
    still sign with that key and the key's listed start is not after the adoption.
  */
  lemma RetryMintsAlike(d: KeyDir, events: seq<Event>, t: int, later: int)
    requires Sound(d) && Clocked(events) && RotatesAfter(events, t)
    ensures Sound(Run(d, events))
    ensures var k, start, after := Ring(d).current, Ring(d).history[|Ring(d).history| - 1].validFrom.time, Ring(Run(d, events));
            && (start <= t && CanSign(after, k) ==> MintingKey(after, t, later) == Minting(k, t))
            && (after.current != k && MintingKey(after, t, later) == Minting(k, t) ==> start <= t && CanSign(after, k))
  {
    StillSpeaks(d, events, t);
    var k, after := Ring(d).current, Run(d, events);
    if SpeaksAt(Ring(after), k, t) {
      MintingIsTheWordThen(after, k, t, later);
    } else if Ring(after).current != k && MintingKey(Ring(after), t, later) == Minting(k, t) {
      MintedByHolder(after, k, t, later);
    }
  }
}
