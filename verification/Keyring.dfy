/**
  The witness's key directory: how a rotation changes it one durable step at a time, and what the
  next start reads back from it, whenever the rotation stopped.
*/
module Keyring {
  import opened Options
  import opened KeyLists

  datatype HeldKey = HeldKey(key: Key, from: int, until: int)

  /** What a start makes of the key directory. */
  datatype Keyring = Keyring(current: Key, history: seq<WitnessKey>, held: seq<HeldKey>)

  /**
    The key directory on disk. written is the key file's modification time, files maps a retired key
    file's name to the key stored in it, and next is the key a rotation staged.
  */
  datatype KeyDir = KeyDir(keyFile: Option<Key>, written: int, history: Option<seq<WitnessKey>>,
                           files: map<KeyID, Key>, next: Option<Key>)

  // ---------------------------------------------------------------------------------------------
  // Reading the directory
  // ---------------------------------------------------------------------------------------------

  /** The first key listed in use, or the length of the list. */
  function InUse(keys: seq<WitnessKey>, from: nat): (i: nat)
    requires from <= |keys|
    ensures from <= i <= |keys| && (i < |keys| ==> keys[i].retired.Blank?)
    ensures forall j :: from <= j < i ==> !keys[j].retired.Blank?
    decreases |keys| - from
  {
    if from == |keys| || keys[from].retired.Blank? then from else InUse(keys, from + 1)
  }

  /** The retired keys among the first n listed whose files are present. None when a file holds another key. */
  function HeldIn(keys: seq<WitnessKey>, n: nat, files: map<KeyID, Key>): Option<seq<HeldKey>>
    requires n <= |keys|
  {
    if n == 0 then Some([])
    else
      var before, w := HeldIn(keys, n - 1, files), keys[n - 1];
      if before.None? || w.retired.Blank? || w.id !in files then before
      else if Digest(files[w.id]) != w.id || KeyPeriod(w).None? then None
      else Some(before.value + [HeldKey(files[w.id], KeyPeriod(w).value.from, KeyPeriod(w).value.until)])
  }

  datatype Loaded = Loaded(ring: Option<Keyring>, dir: KeyDir)

  /** Puts the wanted key in place, taking it from the staging directory when the key file is another's. */
  function LoadCurrentKey(d: KeyDir, want: KeyID): KeyDir {
    if d.keyFile.Some? && Digest(d.keyFile.value) == want then d
    else if d.next.Some? && Digest(d.next.value) == want then d.(keyFile := d.next, next := None)
    else d
  }

  /** LoadKeyring: the keyring a start reads, and the directory it leaves. made is the key a first start makes. */
  function Load(d: KeyDir, made: Key): Loaded {
    if d.history.None? then
      var dir := if d.keyFile.None? then d.(keyFile := Some(made)) else d;
      Loaded(Some(Keyring(dir.keyFile.value, [Entry(dir.keyFile.value, d.written)], [])), dir)
    else
      var keys := d.history.value;
      var cur := InUse(keys, 0);
      if cur == |keys| || !InForm(keys, keys[cur].id) then Loaded(None, d)
      else
        var dir := LoadCurrentKey(d, keys[cur].id);
        var held := HeldIn(keys, |keys|, d.files);
        if dir.keyFile.None? || Digest(dir.keyFile.value) != keys[cur].id then Loaded(None, d)
        else if held.None? then Loaded(None, dir)
        else Loaded(Some(Keyring(dir.keyFile.value, keys, held.value)), dir)
  }

  // ---------------------------------------------------------------------------------------------
  // Rotation
  // ---------------------------------------------------------------------------------------------

  /** How many of a rotation's durable steps commit it: the staging is cleared and made, the old key is filed, the history is written. */
  const COMMIT := 4

  /** The history a rotation at now writes. */
  function RotatedHistory(keys: seq<WitnessKey>, cur: nat, made: Key, now: int): seq<WitnessKey>
    requires cur < |keys|
  {
    keys[cur := keys[cur].(retired := Stamped(now))] + [Entry(made, now)]
  }

  predicate Lists(keys: seq<WitnessKey>, k: Key) {
    exists w :: w in keys && w.id == Digest(k)
  }

  /** Whether a rotation of this ring at now with this key goes ahead. */
  predicate MayRotate(ring: Keyring, made: Key, now: int) {
    var cur := InUse(ring.history, 0);
    cur < |ring.history| && KeyPeriod(ring.history[cur]).Some? && KeyPeriod(ring.history[cur]).value.from < now
    && !Lists(ring.history, made)
  }

  /**
    The directory RotateKey leaves when its process dies after stop durable steps. Its load, which
    may finish an earlier rotation, comes before the steps are counted.
  */
  function AfterRotate(d: KeyDir, made: Key, now: int, stop: nat): KeyDir {
    var loaded := Load(d, made);
    if d.keyFile.None? || loaded.ring.None? then (if d.keyFile.None? then d else loaded.dir)
    else
      var keys := loaded.ring.value.history;
      var cur := InUse(keys, 0);
      if cur == |keys| || KeyPeriod(keys[cur]).None? || now <= KeyPeriod(keys[cur]).value.from || stop == 0 then loaded.dir
      else if stop == 1 || (stop > 2 && Lists(keys, made)) then loaded.dir.(next := None)
      else Committed(loaded.dir.(next := Some(made)), keys, cur, made, now, stop)
  }

  /** The steps from filing the old key on. */
  function Committed(d: KeyDir, keys: seq<WitnessKey>, cur: nat, made: Key, now: int, stop: nat): KeyDir
    requires d.keyFile.Some? && cur < |keys|
  {
    if stop == 2 then d
    else
      var filed := d.(files := d.files[keys[cur].id := d.keyFile.value]);
      if stop == 3 then filed
      else
        var recorded := filed.(history := Some(RotatedHistory(keys, cur, made, now)));
        if stop == COMMIT then recorded else recorded.(keyFile := Some(made), next := None)
  }

  /** The keyring a start reads after the rotation commits. */
  function RotatedRing(ring: Keyring, files: map<KeyID, Key>, made: Key, now: int): Keyring
    requires InUse(ring.history, 0) < |ring.history|
  {
    var cur := InUse(ring.history, 0);
    var keys := RotatedHistory(ring.history, cur, made, now);
    var held := HeldIn(keys, |keys|, files[ring.history[cur].id := ring.current]);
    Keyring(made, keys, if held.Some? then held.value else [])
  }

  predicate Commits(d: KeyDir, made: Key, now: int, stop: nat) {
    var ring := Load(d, made).ring;
    d.keyFile.Some? && ring.Some? && MayRotate(ring.value, made, now) && stop >= COMMIT
  }

  /** A loaded directory loads again as it is. */
  lemma LoadTwice(d: KeyDir, made: Key)
    ensures Load(Load(d, made).dir, made) == Load(d, made)
  {
  }

  lemma {:induction false} HeldFrame(keys: seq<WitnessKey>, n: nat, files: map<KeyID, Key>, cur: nat, k: Key)
    requires n <= |keys| && cur < |keys| && Distinct(keys) && keys[cur].retired.Blank?
    ensures HeldIn(keys, n, files[keys[cur].id := k]) == HeldIn(keys, n, files)
  {
    if n > 0 {
      HeldFrame(keys, n - 1, files, cur, k);
    }
  }

  /** Whatever is staged, and whatever the current key's retired file holds, changes nothing before the commit. */
  lemma UncommittedIgnored(d: KeyDir, made: Key, next: Option<Key>, file: bool)
    requires d.keyFile.Some? && Load(d, made).ring.Some? && Load(d, made).dir == d
    ensures var ring := Load(d, made).ring.value;
            var cur := InUse(ring.history, 0);
            cur < |ring.history|
            && Load(d.(next := next, files := if file then d.files[ring.history[cur].id := d.keyFile.value] else d.files), made).ring == Some(ring)
  {
    var ring := Load(d, made).ring.value;
    if d.history.Some? && file {
      HeldFrame(ring.history, |ring.history|, d.files, InUse(ring.history, 0), d.keyFile.value);
    }
  }

  lemma RotatedInForm(keys: seq<WitnessKey>, cur: nat, made: Key, now: int)
    requires cur < |keys| && InForm(keys, keys[cur].id) && keys[cur].retired.Blank?
    requires !Lists(keys, made) && KeyPeriod(keys[cur]).value.from < now && now > 0
    ensures var after := RotatedHistory(keys, cur, made, now);
            InForm(after, Digest(made)) && InUse(after, 0) == |keys| && after[|keys|].id == Digest(made)
  {
    var after := RotatedHistory(keys, cur, made, now);
    forall i | 0 <= i < |after|
      ensures SignerKey(after[i].id, after[i].pub) && KeyPeriod(after[i]).Some?
      ensures after[i].retired.Blank? <==> i == |keys|
      ensures i < |keys| ==> after[i].id == keys[i].id && after[i].id != Digest(made)
    {
      assert i < |keys| ==> keys[i] in keys;
      if i < |keys| && i != cur {
        assert keys[i].id != keys[cur].id;
      }
    }
    assert after[|keys|] in after;
  }

  lemma {:induction false} RotatedHeld(keys: seq<WitnessKey>, after: seq<WitnessKey>, n: nat, files: map<KeyID, Key>, cur: nat, k: Key)
    requires n <= |keys| && cur < |keys| && Distinct(keys) && keys[cur].id == Digest(k) && keys[cur].retired.Blank?
    requires |after| >= |keys| && forall i :: 0 <= i < |keys| && i != cur ==> after[i] == keys[i]
    requires after[cur].id == keys[cur].id && KeyPeriod(after[cur]).Some?
    requires HeldIn(keys, n, files).Some?
    ensures HeldIn(after, n, files[keys[cur].id := k]).Some?
  {
    if n > 0 {
      RotatedHeld(keys, after, n - 1, files, cur, k);
    }
  }

  /** What a directory that loads as it stands shows. */
  lemma LoadedShows(d: KeyDir, made: Key)
    requires d.keyFile.Some? && Load(d, made).ring.Some? && Load(d, made).dir == d
    requires InUse(Load(d, made).ring.value.history, 0) < |Load(d, made).ring.value.history|
    ensures var ring := Load(d, made).ring.value;
            var cur := InUse(ring.history, 0);
            && ring.history[cur].id == Digest(ring.current) && d.keyFile == Some(ring.current)
            && (KeyPeriod(ring.history[cur]).Some? ==> InForm(ring.history, Digest(ring.current)))
            && ring.history[cur].retired.Blank?
            && HeldIn(ring.history, |ring.history|, d.files).Some?
  {
    if d.history.None? {
      var keys := Load(d, made).ring.value.history;
      assert HeldIn(keys, 0, d.files).Some? && HeldIn(keys, 1, d.files).Some?;
    }
  }

  /** From the commit on, every start reads the rotated keyring. */
  lemma CommittedLoads(d: KeyDir, made: Key, now: int, stop: nat)
    requires d.keyFile.Some? && Load(d, made).ring.Some? && Load(d, made).dir == d && now > 0 && stop >= COMMIT
    requires MayRotate(Load(d, made).ring.value, made, now)
    ensures var ring := Load(d, made).ring.value;
            var after := Committed(d.(next := Some(made)), ring.history, InUse(ring.history, 0), made, now, stop);
            Load(after, made).ring == Some(RotatedRing(ring, d.files, made, now))
  {
    var ring := Load(d, made).ring.value;
    LoadedShows(d, made);
    RotatedReads(d, ring, InUse(ring.history, 0), made, now, stop);
  }

  lemma RotatedReads(d: KeyDir, ring: Keyring, cur: nat, made: Key, now: int, stop: nat)
    requires d.keyFile == Some(ring.current) && cur == InUse(ring.history, 0) < |ring.history| && now > 0 && stop >= COMMIT
    requires ring.history[cur].id == Digest(ring.current) && ring.history[cur].retired.Blank?
    requires InForm(ring.history, Digest(ring.current)) && HeldIn(ring.history, |ring.history|, d.files).Some?
    requires KeyPeriod(ring.history[cur]).Some? && KeyPeriod(ring.history[cur]).value.from < now && !Lists(ring.history, made)
    ensures var after := Committed(d.(next := Some(made)), ring.history, cur, made, now, stop);
            Load(after, made).ring == Some(RotatedRing(ring, d.files, made, now))
  {
    var keys := ring.history;
    var after := RotatedHistory(keys, cur, made, now);
    RotatedInForm(keys, cur, made, now);
    RotatedHeld(keys, after, |keys|, d.files, cur, ring.current);
    assert after[|keys|].retired.Blank?;
    CommittedReads(Committed(d.(next := Some(made)), keys, cur, made, now, stop), after, made);
  }

  /** A history in form naming a key that is in place or staged loads with that key. */
  lemma CommittedReads(d: KeyDir, keys: seq<WitnessKey>, made: Key)
    requires d.history == Some(keys) && InUse(keys, 0) < |keys| && keys[InUse(keys, 0)].id == Digest(made)
    requires InForm(keys, Digest(made)) && HeldIn(keys, |keys|, d.files).Some? && d.keyFile.Some?
    requires d.keyFile == Some(made) || d.next == Some(made)
    ensures Load(d, made).ring == Some(Keyring(made, keys, HeldIn(keys, |keys|, d.files).value))
  {
  }

  lemma RotateLeavesKey(d: KeyDir, made: Key, now: int, stop: nat)
    requires d.keyFile.Some?
    ensures AfterRotate(d, made, now, stop).keyFile.Some?
  {
    LoadLeavesKey(d, made);
  }

  lemma LoadLeavesKey(d: KeyDir, made: Key)
    requires d.keyFile.Some?
    ensures Load(d, made).dir.keyFile.Some?
  {
  }

  /**
    Rotation is atomic. Whenever RotateKey stops, the next start reads exactly the keyring it would
    have read before or exactly the rotated one, and which it is depends only on whether the history
    was written.
  */
  lemma RotationAtomic(d: KeyDir, made: Key, now: int, stop: nat)
    requires d.keyFile.Some? && now > 0
    ensures Load(AfterRotate(d, made, now, stop), made).ring
         == if Commits(d, made, now, stop) then Some(RotatedRing(Load(d, made).ring.value, Load(d, made).dir.files, made, now))
            else Load(d, made).ring
  {
    LoadTwice(d, made);
    var loaded := Load(d, made);
    if loaded.ring.Some? {
      UncommittedIgnored(loaded.dir, made, None, false);
      UncommittedIgnored(loaded.dir, made, Some(made), false);
      UncommittedIgnored(loaded.dir, made, Some(made), true);
      if Commits(d, made, now, stop) {
        CommittedLoads(loaded.dir, made, now, stop);
      }
    }
  }

  class KeyDirectory {
    var keyFile: Option<Key>
    var written: int
    var history: Option<seq<WitnessKey>>
    var files: map<KeyID, Key>
    var next: Option<Key>

    function Dir(): KeyDir
      reads this
    {
      KeyDir(keyFile, written, history, files, next)
    }

    /** LoadKeyring, finishing a rotation that stopped after recording its key. */
    method LoadRing(made: Key) returns (ring: Option<Keyring>)
      modifies this
      ensures ring == Load(old(Dir()), made).ring && Dir() == Load(old(Dir()), made).dir
    {
      if history.None? {
        if keyFile.None? {
          keyFile := Some(made);
        }
        return Some(Keyring(keyFile.value, [Entry(keyFile.value, written)], []));
      }
      var keys := history.value;
      var cur := InUse(keys, 0);
      if cur == |keys| || !InForm(keys, keys[cur].id) {
        return None;
      }
      var want := keys[cur].id;
      if keyFile.None? || Digest(keyFile.value) != want {
        if next.None? || Digest(next.value) != want {
          return None;
        }
        keyFile, next := next, None;
      }
      var held := HeldIn(keys, |keys|, files);
      if held.None? {
        return None;
      }
      ring := Some(Keyring(keyFile.value, keys, held.value));
    }

    /**
      RotateKey, in a process that dies after stop durable steps. done is whether it finished. What the
      directory then loads is the old keyring or the rotated one, and nothing between.
    */
    method Rotate(made: Key, now: int, stop: nat) returns (done: bool)
      requires now > 0
      modifies this
      ensures Dir() == AfterRotate(old(Dir()), made, now, stop)
      ensures done <==> Commits(old(Dir()), made, now, stop) && stop > COMMIT
      ensures old(keyFile).Some? ==>
                var before := Load(old(Dir()), made);
                Load(Dir(), made).ring == if Commits(old(Dir()), made, now, stop)
                                          then Some(RotatedRing(before.ring.value, before.dir.files, made, now))
                                          else before.ring
    {
      done := false;
      if keyFile.None? {
        return;
      }
      RotationAtomic(Dir(), made, now, stop);
      var ring := LoadRing(made);
      if ring.None? {
        return;
      }
      var keys := ring.value.history;
      var cur := InUse(keys, 0);
      if cur == |keys| || KeyPeriod(keys[cur]).None? || now <= KeyPeriod(keys[cur]).value.from || stop == 0 {
        return;
      }
      next := None;
      if stop == 1 {
        return;
      }
      next := Some(made);
      if stop == 2 {
        return;
      }
      if Lists(keys, made) {
        next := None;
        return;
      }
      files := files[keys[cur].id := keyFile.value];
      if stop == 3 {
        return;
      }
      history := Some(RotatedHistory(keys, cur, made, now));
      if stop == COMMIT {
        return;
      }
      keyFile, next := next, None;
      done := true;
    }
  }
}
