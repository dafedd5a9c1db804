/**
  What the witness holds is what its key directory holds: which keys a start reads, exactly, and that a
  key once current can sign for as long as nobody discards its file, whatever rotations come and
  wherever they stop.
*/
module KeyringHeld {
  import opened Options
  import opened KeyLists
  import opened Keyring
  import opened KeyringRuns
  import opened KeyringWord

  /** The list shows k retired. */
  predicate Retired(keys: seq<WitnessKey>, k: Key) {
    exists w :: w in keys && w.id == Digest(k) && !w.retired.Blank?
  }

  /** A key is held exactly when the list shows it retired and its file is there, with the period the list gives it. */
  lemma {:induction false} HeldExactly(keys: seq<WitnessKey>, n: nat, files: map<KeyID, Key>, h: HeldKey)
    requires n <= |keys| && HeldIn(keys, n, files).Some?
    ensures h in HeldIn(keys, n, files).value <==>
              exists i :: 0 <= i < n && !keys[i].retired.Blank? && keys[i].id in files && files[keys[i].id] == h.key
                          && keys[i].id == Digest(h.key) && KeyPeriod(keys[i]) == Some(Period(h.from, h.until))
  {
    if n > 0 {
      HeldExactly(keys, n - 1, files, h);
    }
  }

  /** A start reads the retired files unless one of them holds another key than its name, or its listed period is no period. */
  lemma {:induction false} HeldReads(keys: seq<WitnessKey>, n: nat, files: map<KeyID, Key>)
    requires n <= |keys|
    ensures HeldIn(keys, n, files).Some? <==>
              forall i :: 0 <= i < n && !keys[i].retired.Blank? && keys[i].id in files ==>
                Digest(files[keys[i].id]) == keys[i].id && KeyPeriod(keys[i]).Some?
  {
    if n > 0 {
      HeldReads(keys, n - 1, files);
    }
  }

  /** The history names exactly this key in use, and all of it is in form. */
  ghost predicate Names(keys: seq<WitnessKey>, k: Key) {
    InForm(keys, Digest(k))
  }

  lemma InUseNamed(keys: seq<WitnessKey>, id: KeyID)
    requires InForm(keys, id)
    ensures InUse(keys, 0) < |keys| && keys[InUse(keys, 0)].id == id
  {
    var w :| w in keys && w.retired.Blank?;
    var j :| 0 <= j < |keys| && keys[j] == w;
    assert keys[InUse(keys, 0)] in keys;
  }

  /**
    What a start reads over a recorded history: it names the key in use, which is the key file or, the key
    file being another's, the staged one, and it reads exactly when every retired file holds the key it is
    named for.
  */
  lemma LoadExactly(d: KeyDir, made: Key, k: Key)
    requires d.history.Some? && Names(d.history.value, k)
    ensures var keys := d.history.value;
            var l := Load(d, made);
            && (l.ring.Some? <==>
                  && (d.keyFile == Some(k) || d.next == Some(k))
                  && forall i :: 0 <= i < |keys| && !keys[i].retired.Blank? && keys[i].id in d.files ==> Digest(d.files[keys[i].id]) == keys[i].id)
            && (l.ring.Some? ==> l.ring.value.current == k && l.ring.value.history == keys && l.dir.keyFile == Some(k) && l.dir.files == d.files)
  {
    InUseNamed(d.history.value, Digest(k));
    HeldReads(d.history.value, |d.history.value|, d.files);
    forall i | 0 <= i < |d.history.value| ensures KeyPeriod(d.history.value[i]).Some? {
      assert d.history.value[i] in d.history.value;
    }
  }

  /** A first start publishes the one key it finds or makes, from when its file was written. */
  lemma FirstLoadExactly(d: KeyDir, made: Key)
    requires d.history.None?
    ensures var k := if d.keyFile.Some? then d.keyFile.value else made;
            Load(d, made) == Loaded(Some(Keyring(k, [Entry(k, d.written)], [])), d.(keyFile := Some(k)))
  {
  }

  /** A key is listed from when its file was written, and a file with no time gives it no period. */
  lemma EntryPeriod(k: Key, from: int)
    ensures Entry(k, from).id == Digest(k) && Entry(k, from).pub == Raw(k) && Entry(k, from).retired.Blank?
    ensures KeyPeriod(Entry(k, from)) == if from == 0 then None else Some(Period(from, 0))
  {
  }

  /**
    What a rotation's steps leave in the directory. With no key there is nothing to rotate and nothing
    changes. Once the history is written it shows the old key retired at now and the new one from now, the
    old key is in its file, and the new key is staged until the last step puts it in place.
  */
  lemma RotationLeaves(d: KeyDir, made: Key, now: int, stop: nat)
    requires now > 0
    ensures var after := AfterRotate(d, made, now, stop);
            && (d.keyFile.None? ==> after == d && !Commits(d, made, now, stop))
            && (Sound(d) && Commits(d, made, now, stop) ==>
                  var keys, last, k := Ring(d).history, |Ring(d).history| - 1, Ring(d).current;
                  && after.history == Some(keys[last := keys[last].(retired := At(now, 0))] + [Entry(made, now)])
                  && Digest(k) in after.files && after.files[Digest(k)] == k
                  && (if stop == 4 then after.keyFile == Some(k) && after.next == Some(made)
                      else after.keyFile == Some(made) && after.next == None))
  {
    if Sound(d) {
      LoadIgnoresMade(d, made);
      CurrentIsLast(d);
    }
  }

  /**
    A rotation that may not go ahead, the clock not past the current key's start or the new key one already
    listed, records nothing and files nothing; what it had staged is cleared, unless it died right after staging it.
  */
  lemma RotationRefused(d: KeyDir, made: Key, now: int, stop: nat)
    requires Sound(d) && !MayRotate(Ring(d), made, now)
    ensures var before, after := Load(d, 0).dir, AfterRotate(d, made, now, stop);
            && after.history == before.history && after.files == before.files && after.keyFile == before.keyFile && !Commits(d, made, now, stop)
            && after.next == if now <= Ring(d).history[|Ring(d).history| - 1].validFrom.time || stop == 0 then before.next
                             else if stop == 2 then Some(made) else None
  {
    LoadIgnoresMade(d, made);
    CurrentIsLast(d);
  }

  /**
    Whose word an adoption's answer is, exactly. A witness that never rotated signs for any time itself. One
    that did signs itself from its current key's start on, by a held key for the time that key's period
    covers, and otherwise itself with the time it signs.
  */
  lemma MintingExactly(d: KeyDir, t: int, clock: int)
    requires Sound(d)
    ensures var ring, mint := Ring(d), MintingKey(Ring(d), t, clock);
            var start := ring.history[|ring.history| - 1].validFrom.time;
            && (|ring.history| == 1 || t >= start ==> mint == Minting(ring.current, t))
            && (|ring.history| > 1 && t < start ==>
                  if exists h :: h in ring.held && h.from <= t < h.until
                  then exists h :: h in ring.held && h.from <= t < h.until && mint == Minting(h.key, t)
                  else mint == Minting(ring.current, clock))
  {
    var ring := Ring(d);
    ContiguousInUse(ring.history);
    var i := FirstCovering(ring.held, t, 0);
    if i < |ring.held| {
      assert ring.held[i] in ring.held;
    }
  }

  /**
    On a sound directory the witness can sign with a key if and only if it is the current one, or the
    history shows it retired and its file is still there.
  */
  lemma CanSignExactly(d: KeyDir, k: Key)
    requires Sound(d)
    ensures CanSign(Ring(d), k) <==> k == Ring(d).current || (Retired(Ring(d).history, k) && Digest(k) in d.files)
  {
    var ring := Ring(d);
    if d.history.Some? {
      var keys := ring.history;
      if Retired(keys, k) && Digest(k) in d.files {
        var w :| w in keys && w.id == Digest(k) && !w.retired.Blank?;
        var i :| 0 <= i < |keys| && keys[i] == w;
        assert KeyPeriod(w).Some?;
        var h := HeldKey(k, KeyPeriod(w).value.from, KeyPeriod(w).value.until);
        HeldExactly(keys, |keys|, d.files, h);
        HeldKeyIn(ring.held, h);
      }
      if k in HeldKeys(ring.held) {
        var a :| 0 <= a < |ring.held| && HeldKeys(ring.held)[a] == k;
        HeldExactly(keys, |keys|, d.files, ring.held[a]);
      }
    }
  }

  lemma HeldKeyIn(held: seq<HeldKey>, h: HeldKey)
    requires h in held
    ensures h.key in HeldKeys(held)
  {
    var a :| 0 <= a < |held| && held[a] == h;
    assert HeldKeys(held)[a] == h.key;
  }

  // ---------------------------------------------------------------------------------------------
  // A key once current still signs
  // ---------------------------------------------------------------------------------------------

  lemma KeepsRetired(a: seq<WitnessKey>, b: seq<WitnessKey>, k: Key)
    requires Keeps(a, b) && Retired(a, k)
    ensures Retired(b, k)
  {
    var w :| w in a && w.id == Digest(k) && !w.retired.Blank?;
    var kept :| kept in b && KeptAs(w, kept);
  }

  lemma RotateFiles(d: KeyDir, made: Key, now: int, stop: nat)
    requires Sound(d)
    ensures d.files.Keys <= AfterRotate(d, made, now, stop).files.Keys
    ensures Commits(d, made, now, stop) ==> Digest(Ring(d).current) in AfterRotate(d, made, now, stop).files
  {
    LoadIgnoresMade(d, made);
    CurrentIsLast(d);
  }

  lemma RotateStillSigns(d: KeyDir, made: Key, now: int, stop: nat, k: Key)
    requires Sound(d) && now > 0 && CanSign(Ring(d), k)
    ensures Sound(AfterRotate(d, made, now, stop)) && CanSign(Ring(AfterRotate(d, made, now, stop)), k)
  {
    var after := AfterRotate(d, made, now, stop);
    RotateKeeps(d, made, now, stop);
    RotateFiles(d, made, now, stop);
    CanSignExactly(d, k);
    CanSignExactly(after, k);
    if Commits(d, made, now, stop) {
      RotateKeepsKeys(d, made, now, stop);
      CurrentIsLast(d);
      if k == Ring(d).current {
        var last := |Ring(d).history| - 1;
        assert Ring(after).history[last] in Ring(after).history;
      } else {
        KeepsRetired(Ring(d).history, Ring(after).history, k);
      }
    }
  }

  lemma ApplyStillSigns(d: KeyDir, e: Event, k: Key)
    requires Sound(d) && (e.Rotate? ==> e.now > 0) && e != Discard(Digest(k)) && CanSign(Ring(d), k)
    ensures Sound(Apply(d, e)) && CanSign(Ring(Apply(d, e)), k)
  {
    match e
    case Rotate(made, now, stop) => RotateStillSigns(d, made, now, stop, k);
    case Restart =>
      RestartKeeps(d);
      LoadTwice(d, 0);
    case Discard(id) =>
      DiscardKeeps(d, id);
      CanSignExactly(d, k);
      CanSignExactly(Apply(d, e), k);
  }

  /** Nobody deleted the key's retired file. */
  ghost predicate KeepsFile(events: seq<Event>, k: Key) {
    Discard(Digest(k)) !in events
  }

  /** Over every run of rotations, stops, restarts and other discards, a key the witness could sign with still signs. */
  lemma {:induction false} StillSigns(d: KeyDir, events: seq<Event>, k: Key)
    requires Sound(d) && Clocked(events) && KeepsFile(events, k) && CanSign(Ring(d), k)
    ensures Sound(Run(d, events)) && CanSign(Ring(Run(d, events)), k)
  {
    if events != [] {
      var front, last := events[..|events| - 1], events[|events| - 1];
      assert events == front + [last];
      StillSigns(d, front, k);
      ApplyStillSigns(Run(d, front), last, k);
    }
  }

  /** A client holding any list the witness ever published accepts every later one, while that list's current key is kept. */
  lemma ClientKeepsAccepting(d: KeyDir, events: seq<Event>)
    requires Sound(d) && Clocked(events) && KeepsFile(events, Ring(d).current)
    ensures Sound(Run(d, events)) && Accepts(Publish(Ring(d)), Publish(Ring(Run(d, events))))
  {
    StillSigns(d, events, Ring(d).current);
    ClientAcceptsNewest(d, events);
  }

  /** Whatever rotations come after an adoption, its retries are minted by the adopting key at the adopting time, while that key is kept. */
  lemma RetryKeepsMinting(d: KeyDir, events: seq<Event>, t: int, later: int)
    requires Sound(d) && Clocked(events) && RotatesAfter(events, t) && KeepsFile(events, Ring(d).current)
    requires Ring(d).history[|Ring(d).history| - 1].validFrom.time <= t
    ensures Sound(Run(d, events)) && MintingKey(Ring(Run(d, events)), t, later) == Minting(Ring(d).current, t)
  {
    StillSigns(d, events, Ring(d).current);
    RetryMintsAlike(d, events, t, later);
  }
}
