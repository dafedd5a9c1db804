/**
  The witness's keys over every run: any number of rotations stopped anywhere, restarts, and retired
  key files an operator deletes. What the directory publishes, what a client accepts of it, and what
  stored memory it still reads.
*/
module KeyringRuns {
  import opened KeyLists
  import opened Keyring

  datatype Event =
    | Rotate(made: Key, now: int, stop: nat)
    | Restart
    | Discard(id: KeyID)

  function Apply(d: KeyDir, e: Event): KeyDir {
    match e
    case Rotate(made, now, stop) => AfterRotate(d, made, now, stop)
    case Restart => Load(d, 0).dir
    case Discard(id) => d.(files := d.files - {id})
  }

  function Run(d: KeyDir, events: seq<Event>): KeyDir {
    if events == [] then d else Apply(Run(d, events[..|events| - 1]), events[|events| - 1])
  }

  /** Clocks never read the zero time. */
  ghost predicate Clocked(events: seq<Event>) {
    forall e :: e in events && e.Rotate? ==> e.now > 0
  }

  // ---------------------------------------------------------------------------------------------
  // What the directory always is
  // ---------------------------------------------------------------------------------------------

  /**
    The periods of a history are contiguous and disjoint: each key retires at the very instant the
    next begins, later than its own start, and only the last is in use.
  */
  ghost predicate Contiguous(keys: seq<WitnessKey>) {
    && |keys| > 0
    && (forall i :: 0 <= i < |keys| ==> SignerKey(keys[i].id, keys[i].pub) && keys[i].validFrom.At? && keys[i].validFrom.time > 0)
    && (forall i, j :: 0 <= i && j == i + 1 < |keys| ==>
          keys[i].retired == keys[j].validFrom && keys[i].validFrom.time < keys[j].validFrom.time)
    && keys[|keys| - 1].retired.Blank?
  }

  /** A directory a start reads: it has a key, its history is in form, and each retired file holds the key it is named for. */
  ghost predicate Sound(d: KeyDir) {
    && d.keyFile.Some?
    && (forall id :: id in d.files ==> Digest(d.files[id]) == id)
    && Load(d, 0).ring.Some?
    && Contiguous(Ring(d).history) && InForm(Ring(d).history, Digest(Ring(d).current))
  }

  ghost function Ring(d: KeyDir): Keyring
    requires Load(d, 0).ring.Some?
  {
    Load(d, 0).ring.value
  }

  lemma {:induction false} PeriodsClimb(keys: seq<WitnessKey>, i: nat, j: nat)
    requires Contiguous(keys) && i < j < |keys|
    ensures keys[i].retired.At? && keys[i].retired.time <= keys[j].validFrom.time
    ensures keys[i].validFrom.time < keys[i].retired.time
    decreases j - i
  {
    assert keys[i].retired == keys[i + 1].validFrom;
    if i < j - 1 {
      PeriodsClimb(keys, i, j - 1);
      assert keys[j - 1].validFrom.time < keys[j].validFrom.time;
    }
  }

  lemma ContiguousInUse(keys: seq<WitnessKey>)
    requires Contiguous(keys)
    ensures InUse(keys, 0) == |keys| - 1
  {
    forall i | 0 <= i < |keys| - 1 ensures !keys[i].retired.Blank? {
      PeriodsClimb(keys, i, |keys| - 1);
    }
  }

  lemma RotatedContiguous(keys: seq<WitnessKey>, made: Key, now: int)
    requires Contiguous(keys) && keys[|keys| - 1].validFrom.time < now && now > 0
    ensures Contiguous(RotatedHistory(keys, |keys| - 1, made, now))
    ensures Keeps(keys, RotatedHistory(keys, |keys| - 1, made, now))
  {
    var last := |keys| - 1;
    var after := RotatedHistory(keys, last, made, now);
    forall w | w in keys ensures exists kept :: kept in after && KeptAs(w, kept) {
      var i :| 0 <= i < |keys| && keys[i] == w;
      assert KeptAs(w, after[i]) && after[i] in after;
    }
  }

  lemma {:induction false} HeldNamed(keys: seq<WitnessKey>, n: nat, files: map<KeyID, Key>)
    requires n <= |keys| && forall id :: id in files ==> Digest(files[id]) == id
    requires forall i :: 0 <= i < n ==> KeyPeriod(keys[i]).Some?
    ensures HeldIn(keys, n, files).Some?
  {
    if n > 0 {
      HeldNamed(keys, n - 1, files);
    }
  }

  lemma LoadIgnoresMade(d: KeyDir, made: Key)
    requires d.keyFile.Some?
    ensures Load(d, made) == Load(d, 0)
  {
  }

  ghost predicate SameWord(d: KeyDir, after: KeyDir)
    requires Load(d, 0).ring.Some? && Load(after, 0).ring.Some?
  {
    Ring(after).history == Ring(d).history && Ring(after).current == Ring(d).current
  }

  lemma DiscardKeeps(d: KeyDir, id: KeyID)
    requires Sound(d)
    ensures Sound(Apply(d, Discard(id))) && SameWord(d, Apply(d, Discard(id)))
  {
    var after := Apply(d, Discard(id));
    if d.history.Some? {
      HeldNamed(d.history.value, |d.history.value|, after.files);
    }
  }

  lemma FilesStayNamed(d: KeyDir, made: Key, now: int, stop: nat)
    requires Sound(d)
    ensures forall id :: id in AfterRotate(d, made, now, stop).files ==> Digest(AfterRotate(d, made, now, stop).files[id]) == id
  {
    LoadIgnoresMade(d, made);
    ContiguousInUse(Ring(d).history);
  }

  lemma RotateKeeps(d: KeyDir, made: Key, now: int, stop: nat)
    requires Sound(d) && now > 0
    ensures var after := AfterRotate(d, made, now, stop);
            Sound(after) && if Commits(d, made, now, stop)
                            then Ring(after).history == RotatedHistory(Ring(d).history, |Ring(d).history| - 1, made, now)
                            else SameWord(d, after)
  {
    var after, keys := AfterRotate(d, made, now, stop), Ring(d).history;
    RotationAtomic(d, made, now, stop);
    LoadIgnoresMade(d, made);
    LoadIgnoresMade(after, made);
    FilesStayNamed(d, made, now, stop);
    ContiguousInUse(keys);
    if Commits(d, made, now, stop) {
      RotatedContiguous(keys, made, now);
      RotatedInForm(keys, |keys| - 1, made, now);
    }
  }

  lemma RotateKeepsKeys(d: KeyDir, made: Key, now: int, stop: nat)
    requires Sound(d) && now > 0 && Load(AfterRotate(d, made, now, stop), 0).ring.Some?
    requires Commits(d, made, now, stop)
    requires Ring(AfterRotate(d, made, now, stop)).history == RotatedHistory(Ring(d).history, |Ring(d).history| - 1, made, now)
    ensures Keeps(Ring(d).history, Ring(AfterRotate(d, made, now, stop)).history)
  {
    LoadIgnoresMade(d, made);
    ContiguousInUse(Ring(d).history);
    RotatedContiguous(Ring(d).history, made, now);
  }

  lemma RestartKeeps(d: KeyDir)
    requires Sound(d)
    ensures Sound(Apply(d, Restart)) && SameWord(d, Apply(d, Restart))
  {
    LoadTwice(d, 0);
  }

  lemma ApplyKeeps(d: KeyDir, e: Event)
    requires Sound(d) && (e.Rotate? ==> e.now > 0)
    ensures Sound(Apply(d, e)) && Keeps(Ring(d).history, Ring(Apply(d, e)).history)
  {
    KeepsSelf(Ring(d).history);
    if e.Rotate? {
      RotateKeeps(d, e.made, e.now, e.stop);
      if Commits(d, e.made, e.now, e.stop) {
        RotateKeepsKeys(d, e.made, e.now, e.stop);
      }
    } else if e.Restart? {
      RestartKeeps(d);
    } else {
      DiscardKeeps(d, e.id);
    }
  }

  lemma KeepsSelf(keys: seq<WitnessKey>)
    ensures Keeps(keys, keys)
  {
    assert forall w :: w in keys ==> KeptAs(w, w);
  }

  /**
    After any run the directory still loads, its history has distinct keys, exactly the current one
    in use, contiguous disjoint periods, and every key an earlier history listed as it was listed.
  */
  lemma {:induction false} RunKeeps(d: KeyDir, events: seq<Event>)
    requires Sound(d) && Clocked(events)
    ensures Sound(Run(d, events)) && Keeps(Ring(d).history, Ring(Run(d, events)).history)
  {
    if events == [] {
      KeepsSelf(Ring(d).history);
    } else {
      var front, last := events[..|events| - 1], events[|events| - 1];
      assert last in events && forall e :: e in front ==> e in events;
      RunKeeps(d, front);
      ApplyKeeps(Run(d, front), last);
      KeepsTransitive(Ring(d).history, Ring(Run(d, front)).history, Ring(Run(d, events)).history);
    }
  }

  /** A directory that was never used becomes sound at its first start, and one that never rotated is sound. */
  lemma FirstStartSound(d: KeyDir, made: Key)
    requires d.history.None? && d.written > 0 && d.files == map[]
    ensures Sound(Load(d, made).dir)
  {
    var keys := Ring(Load(d, made).dir).history;
    assert keys[0] in keys;
  }
}
