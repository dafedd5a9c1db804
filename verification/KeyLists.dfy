/**
  The witness's signed list of its own keys, and when a client that holds one list accepts another.

  A key is its number. Its id is the digest of its public key, and a signature names its signer and
  the content signed, so ids and signatures are injective by construction.
*/
module KeyLists {
  import opened Options

  type Key = nat

  datatype KeyID = Digest(key: Key) | OtherID(text: string)

  datatype PublicKey = Raw(key: Key) | Garbled(text: string)

  /** A time as written: blank, an instant in some spelling, or text that is no time. */
  datatype Stamp = Blank | At(time: int, spelling: nat) | NoTime(text: string)

  datatype WitnessKey = WitnessKey(id: KeyID, pub: PublicKey, validFrom: Stamp, retired: Stamp)

  datatype Tag = KeysVersion | OtherTag(text: string)

  /** What a list's signature and its endorsements cover. */
  datatype Content = Content(id: KeyID, pub: PublicKey, keys: seq<WitnessKey>)

  datatype Signature = SignedBy(key: Key, content: Content) | Unsigned

  datatype Endorsement = Endorsement(id: KeyID, sig: Signature)

  datatype KeyList = KeyList(tag: Tag, id: KeyID, pub: PublicKey, keys: seq<WitnessKey>,
                             sig: Signature, endorsements: seq<Endorsement>)
  {
    function Covered(): Content { Content(id, pub, keys) }
  }

  /** The zero time is written blank; any other instant in the one spelling the witness writes. */
  function Stamped(t: int): Stamp {
    if t == 0 then Blank else At(t, 0)
  }

  function Entry(k: Key, from: int): WitnessKey {
    WitnessKey(Digest(k), Raw(k), Stamped(from), Blank)
  }

  predicate SignerKey(id: KeyID, pub: PublicKey) {
    pub.Raw? && id == Digest(pub.key)
  }

  datatype Period = Period(from: int, until: int)

  /** When a listed key was in use; until is zero for a key that still is. */
  function KeyPeriod(w: WitnessKey): Option<Period> {
    if !w.validFrom.At? then None
    else if w.retired.Blank? then Some(Period(w.validFrom.time, 0))
    else if !w.retired.At? || w.retired.time < w.validFrom.time then None
    else Some(Period(w.validFrom.time, w.retired.time))
  }

  // ---------------------------------------------------------------------------------------------
  // Histories in form
  // ---------------------------------------------------------------------------------------------

  predicate Distinct(keys: seq<WitnessKey>) {
    forall i, j :: 0 <= i < j < |keys| ==> keys[i].id != keys[j].id
  }

  /** Each key is what its id says, none is listed twice, and exactly the current key is in use. */
  predicate InForm(keys: seq<WitnessKey>, current: KeyID) {
    && Distinct(keys)
    && (forall w :: w in keys ==> SignerKey(w.id, w.pub) && KeyPeriod(w).Some?)
    && (forall w :: w in keys && w.retired.Blank? ==> w.id == current)
    && (exists w :: w in keys && w.retired.Blank?)
  }

  method CheckKeyHistory(keys: seq<WitnessKey>, current: KeyID) returns (ok: bool)
    ensures ok <==> InForm(keys, current)
  {
    var seen: set<KeyID>, inUse := {}, 0;
    for i := 0 to |keys|
      invariant seen == set j | 0 <= j < i :: keys[j].id
      invariant Distinct(keys[..i])
      invariant forall j :: 0 <= j < i ==> SignerKey(keys[j].id, keys[j].pub) && KeyPeriod(keys[j]).Some?
      invariant forall j :: 0 <= j < i && keys[j].retired.Blank? ==> keys[j].id == current
      invariant 0 <= inUse <= 1
      invariant inUse == 0 ==> forall j :: 0 <= j < i ==> !keys[j].retired.Blank?
      invariant inUse == 1 ==> exists j :: 0 <= j < i && keys[j].retired.Blank?
    {
      var w := keys[i];
      if !SignerKey(w.id, w.pub) || w.id in seen || KeyPeriod(w).None? {
        assert w in keys;
        return false;
      }
      seen := seen + {w.id};
      if w.retired.Blank? {
        if w.id != current {
          assert w in keys;
          return false;
        }
        inUse := inUse + 1;
      }
      assert keys[..i + 1] == keys[..i] + [w];
    }
    assert keys[..|keys|] == keys;
    ok := inUse == 1;
  }

  // ---------------------------------------------------------------------------------------------
  // Signing and verifying
  // ---------------------------------------------------------------------------------------------

  predicate ListsRetired(keys: seq<WitnessKey>, k: Key) {
    exists w :: w in keys && w.id == Digest(k) && w.pub == Raw(k) && !w.retired.Blank?
  }

  predicate NoRepeats(ks: seq<Key>) {
    forall i, j :: 0 <= i < j < |ks| ==> ks[i] != ks[j]
  }

  /** What Endorse answers: one signature per retired key, or a refusal. */
  function Endorsements(c: Content, retired: seq<Key>): seq<Endorsement> {
    seq(|retired|, i requires 0 <= i < |retired| => Endorsement(Digest(retired[i]), SignedBy(retired[i], c)))
  }

  method Endorse(c: Content, retired: seq<Key>) returns (out: Option<seq<Endorsement>>)
    ensures out.Some? <==> NoRepeats(retired) && forall k :: k in retired ==> ListsRetired(c.keys, k)
    ensures out.Some? ==> out.value == Endorsements(c, retired)
  {
    var made := [];
    for i := 0 to |retired|
      invariant made == Endorsements(c, retired[..i])
      invariant NoRepeats(retired[..i])
      invariant forall j :: 0 <= j < i ==> ListsRetired(c.keys, retired[j])
    {
      var k := retired[i];
      if !ListsRetired(c.keys, k) {
        return None;
      }
      if exists j :: 0 <= j < i && made[j].id == Digest(k) {
        ghost var j :| 0 <= j < i && made[j].id == Digest(k);
        assert retired[..i][j] == retired[j];
        return None;
      }
      assert forall j :: 0 <= j < i ==> made[j].id == Digest(retired[j]);
      made := made + [Endorsement(Digest(k), SignedBy(k, c))];
    }
    assert retired[..|retired|] == retired;
    out := Some(made);
  }

  /** SignWitnessKeys: the current key signs, and every retired key given endorses the same bytes. */
  function Signed(keys: seq<WitnessKey>, current: Key, retired: seq<Key>): KeyList {
    var c := Content(Digest(current), Raw(current), keys);
    KeyList(KeysVersion, c.id, c.pub, keys, SignedBy(current, c), Endorsements(c, retired))
  }

  /** Whether SignWitnessKeys signs at all. */
  ghost predicate Signable(keys: seq<WitnessKey>, current: Key, retired: seq<Key>) {
    InForm(keys, Digest(current)) && NoRepeats(retired) && forall k :: k in retired ==> ListsRetired(keys, k)
  }

  /** The first position listing id, or the length of the list when none does. */
  function IndexOf(keys: seq<WitnessKey>, id: KeyID, from: nat): (i: nat)
    requires from <= |keys|
    ensures from <= i <= |keys|
    ensures i < |keys| ==> keys[i].id == id
    ensures forall j :: from <= j < i ==> keys[j].id != id
    decreases |keys| - from
  {
    if from == |keys| || keys[from].id == id then from else IndexOf(keys, id, from + 1)
  }

  /** The first entry a list gives the endorser is one it shows retired, and that key signed what the list covers. */
  predicate EndorsementHolds(l: KeyList, e: Endorsement) {
    var i := IndexOf(l.keys, e.id, 0);
    && i < |l.keys| && !l.keys[i].retired.Blank? && SignerKey(l.keys[i].id, l.keys[i].pub)
    && e.sig == SignedBy(l.keys[i].pub.key, l.Covered())
  }

  ghost predicate EndorsementsHold(l: KeyList) {
    && (forall i, j :: 0 <= i < j < |l.endorsements| ==> l.endorsements[i].id != l.endorsements[j].id)
    && (forall e :: e in l.endorsements ==> EndorsementHolds(l, e))
  }

  method VerifyEndorsements(l: KeyList) returns (ok: bool)
    ensures ok <==> EndorsementsHold(l)
  {
    var seen: set<KeyID> := {};
    for n := 0 to |l.endorsements|
      invariant seen == set j | 0 <= j < n :: l.endorsements[j].id
      invariant forall i, j :: 0 <= i < j < n ==> l.endorsements[i].id != l.endorsements[j].id
      invariant forall j :: 0 <= j < n ==> EndorsementHolds(l, l.endorsements[j])
    {
      var e := l.endorsements[n];
      var i := IndexOf(l.keys, e.id, 0);
      if i == |l.keys| || l.keys[i].retired.Blank? || e.id in seen || !SignerKey(l.keys[i].id, l.keys[i].pub)
         || e.sig != SignedBy(l.keys[i].pub.key, l.Covered()) {
        assert e in l.endorsements;
        return false;
      }
      seen := seen + {e.id};
    }
    ok := true;
  }

  ghost predicate Verified(l: KeyList) {
    && l.tag == KeysVersion && SignerKey(l.id, l.pub)
    && (exists w :: w in l.keys && w.id == l.id && w.pub == l.pub)
    && l.sig == SignedBy(l.pub.key, l.Covered())
    && InForm(l.keys, l.id) && EndorsementsHold(l)
  }

  method VerifyWitnessKeys(l: KeyList) returns (ok: bool)
    ensures ok <==> Verified(l)
  {
    if l.tag != KeysVersion || !SignerKey(l.id, l.pub) || !(exists w :: w in l.keys && w.id == l.id && w.pub == l.pub)
       || l.sig != SignedBy(l.pub.key, l.Covered()) {
      return false;
    }
    var inForm := CheckKeyHistory(l.keys, l.id);
    if !inForm {
      return false;
    }
    ok := VerifyEndorsements(l);
  }

  lemma IndexOfUnique(keys: seq<WitnessKey>, w: WitnessKey)
    requires Distinct(keys) && w in keys
    ensures IndexOf(keys, w.id, 0) < |keys| && keys[IndexOf(keys, w.id, 0)] == w
  {
    var n :| 0 <= n < |keys| && keys[n] == w;
  }

  /** Every list the witness signs verifies. */
  lemma SignedVerifies(keys: seq<WitnessKey>, current: Key, retired: seq<Key>)
    requires Signable(keys, current, retired)
    ensures Verified(Signed(keys, current, retired))
  {
    var l := Signed(keys, current, retired);
    forall e | e in l.endorsements ensures EndorsementHolds(l, e) {
      var i :| 0 <= i < |retired| && e == l.endorsements[i];
      assert ListsRetired(keys, retired[i]);
      var w :| w in keys && w.id == Digest(retired[i]) && w.pub == Raw(retired[i]) && !w.retired.Blank?;
      IndexOfUnique(keys, w);
    }
    var w :| w in keys && w.retired.Blank?;
    assert w.id == l.id && w.pub == l.pub;
  }

  // ---------------------------------------------------------------------------------------------
  // Replacing one list by another
  // ---------------------------------------------------------------------------------------------

  predicate KeptAs(old_: WitnessKey, kept: WitnessKey) {
    && kept.id == old_.id && kept.pub == old_.pub && kept.validFrom == old_.validFrom
    && (!old_.retired.Blank? ==> kept.retired == old_.retired)
  }

  /** newer keeps every key of older, with its public key, start and stated retirement. */
  ghost predicate Keeps(older: seq<WitnessKey>, newer: seq<WitnessKey>) {
    forall w :: w in older ==> exists kept :: kept in newer && KeptAs(w, kept)
  }

  predicate SignedByHolder(prev: KeyList, next: KeyList) {
    (next.id == prev.id && next.pub == prev.pub) || exists e :: e in next.endorsements && e.id == prev.id
  }

  ghost predicate Accepts(prev: KeyList, next: KeyList) {
    Verified(prev) && Verified(next) && SignedByHolder(prev, next) && Keeps(prev.keys, next.keys)
  }

  method VerifyKeyList(prev: KeyList, next: KeyList) returns (ok: bool)
    ensures ok <==> Accepts(prev, next)
  {
    var prevOk := VerifyWitnessKeys(prev);
    var nextOk := VerifyWitnessKeys(next);
    if !prevOk || !nextOk || !SignedByHolder(prev, next) {
      return false;
    }
    for n := 0 to |prev.keys|
      invariant forall j :: 0 <= j < n ==> exists kept :: kept in next.keys && KeptAs(prev.keys[j], kept)
    {
      var w := prev.keys[n];
      var i := IndexOf(next.keys, w.id, 0);
      if i == |next.keys| || !KeptAs(w, next.keys[i]) {
        assert w in prev.keys;
        return false;
      }
      assert next.keys[i] in next.keys;
    }
    ok := true;
  }

  /** The entry under id, provided its period covers the instant. */
  function KeyAt(keys: seq<WitnessKey>, id: KeyID, at: int): Option<WitnessKey> {
    var i := IndexOf(keys, id, 0);
    if i == |keys| then None
    else
      var p := KeyPeriod(keys[i]);
      if p.None? || at < p.value.from || (p.value.until != 0 && at >= p.value.until) then None else Some(keys[i])
  }

  /** Key k signed exactly this content, in the list's own signature or in an endorsement it carries. */
  predicate CarriesSignature(l: KeyList, k: Key) {
    l.sig == SignedBy(k, l.Covered()) || exists e :: e in l.endorsements && e.sig == SignedBy(k, l.Covered())
  }

  /**
    No list passes a client without the word of the key it trusts. Whoever made the list and whatever it
    says, it is accepted only if the key the held list names current signed its very content.
  */
  lemma AcceptedIsSigned(prev: KeyList, next: KeyList)
    requires Accepts(prev, next)
    ensures prev.pub.Raw? && prev.id == Digest(prev.pub.key) && CarriesSignature(next, prev.pub.key)
  {
    if e :| e in next.endorsements && e.id == prev.id {
      assert EndorsementHolds(next, e);
    }
  }

  /**
    What a verified list is: its current key signed it, that key is the one and only key it shows in use,
    every key is listed once under its own digest with a sound period, and every endorsement is by a
    different key it shows retired, over the same content.
  */
  lemma VerifiedTells(l: KeyList, i: nat, n: nat)
    requires Verified(l) && i < |l.keys|
    ensures l.tag == KeysVersion && l.pub.Raw? && l.id == Digest(l.pub.key) && l.sig == SignedBy(l.pub.key, l.Covered())
    ensures exists j :: 0 <= j < |l.keys| && l.keys[j].id == l.id && l.keys[j].pub == l.pub && l.keys[j].retired.Blank?
    ensures var w := l.keys[i];
            && w.pub.Raw? && w.id == Digest(w.pub.key) && w.validFrom.At?
            && (w.retired.Blank? || (w.retired.At? && w.validFrom.time <= w.retired.time))
            && (w.retired.Blank? <==> w.id == l.id)
            && forall j :: 0 <= j < |l.keys| && j != i ==> l.keys[j].id != w.id
    ensures n < |l.endorsements| ==>
              var e := l.endorsements[n];
              && (forall m :: 0 <= m < |l.endorsements| && m != n ==> l.endorsements[m].id != e.id)
              && exists j :: 0 <= j < |l.keys| && !l.keys[j].retired.Blank? && l.keys[j].id == e.id
                             && e.sig == SignedBy(l.keys[j].pub.key, l.Covered())
  {
    assert l.keys[i] in l.keys;
    var used :| used in l.keys && used.retired.Blank?;
    var j :| 0 <= j < |l.keys| && l.keys[j] == used;
    if n < |l.endorsements| {
      var e := l.endorsements[n];
      assert e in l.endorsements;
      var at := IndexOf(l.keys, e.id, 0);
      assert l.keys[at].id == e.id;
    }
  }

  lemma KeepsTransitive(a: seq<WitnessKey>, b: seq<WitnessKey>, c: seq<WitnessKey>)
    requires Keeps(a, b) && Keeps(b, c)
    ensures Keeps(a, c)
  {
    forall w | w in a ensures exists kept :: kept in c && KeptAs(w, kept) {
      var v :| v in b && KeptAs(w, v);
      var u :| u in c && KeptAs(v, u);
      assert KeptAs(w, u);
    }
  }

  /** Along any chain of lists each accepted in place of the one before, the last keeps the first. */
  lemma {:induction false} ChainKeeps(lists: seq<KeyList>, i: nat, j: nat)
    requires i <= j < |lists|
    requires forall n :: 0 < n < |lists| ==> Accepts(lists[n - 1], lists[n])
    ensures Keeps(lists[i].keys, lists[j].keys)
    decreases j - i
  {
    if i < j {
      ChainKeeps(lists, i, j - 1);
      KeepsTransitive(lists[i].keys, lists[j - 1].keys, lists[j].keys);
    } else {
      forall w | w in lists[i].keys ensures exists kept :: kept in lists[j].keys && KeptAs(w, kept) {
        assert KeptAs(w, w);
      }
    }
  }

  lemma KeyAtKept(a: seq<WitnessKey>, b: seq<WitnessKey>, w: WitnessKey, kept: WitnessKey, at: int)
    requires Distinct(a) && Distinct(b) && w in a && kept in b && KeptAs(w, kept)
    ensures !w.retired.Blank? ==> KeyAt(b, w.id, at) == KeyAt(a, w.id, at)
    ensures KeyAt(b, w.id, at).Some? ==> KeyAt(b, w.id, at) == Some(kept) && KeyAt(a, w.id, at) == Some(w)
  {
    IndexOfUnique(a, w);
    IndexOfUnique(b, kept);
  }

  lemma AcceptedAlong(lists: seq<KeyList>, n: nat)
    requires n < |lists| && Verified(lists[0])
    requires forall m :: 0 < m < |lists| ==> Accepts(lists[m - 1], lists[m])
    ensures Distinct(lists[n].keys)
  {
    assert n > 0 ==> Accepts(lists[n - 1], lists[n]);
  }

  /**
    What a list said of a key stays said. Along any accepted chain, once a list shows a key retired,
    every later list answers KeyAt for it exactly alike at every time; and a key still in use only
    ever loses times, never gains them.
  */
  lemma KeyAtNeverRewritten(lists: seq<KeyList>, i: nat, j: nat, w: WitnessKey, at: int)
    requires i <= j < |lists| && w in lists[i].keys && Verified(lists[0])
    requires forall n :: 0 < n < |lists| ==> Accepts(lists[n - 1], lists[n])
    ensures !w.retired.Blank? ==> KeyAt(lists[j].keys, w.id, at) == KeyAt(lists[i].keys, w.id, at)
    ensures KeyAt(lists[j].keys, w.id, at).Some? ==>
              KeyAt(lists[i].keys, w.id, at) == Some(w) && KeyAt(lists[j].keys, w.id, at).value.pub == w.pub
  {
    ChainKeeps(lists, i, j);
    AcceptedAlong(lists, i);
    AcceptedAlong(lists, j);
    var kept :| kept in lists[j].keys && KeptAs(w, kept);
    KeyAtKept(lists[i].keys, lists[j].keys, w, kept, at);
  }
}
