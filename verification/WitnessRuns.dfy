/**
  A witness over its whole life: its key directory and one record together. Rotations, discarded keys
  and restarts come between pushes, and every start reads the keyring the directory then holds.
*/
module WitnessRuns {
  import opened Options
  import opened SnocLists
  import opened PushRules
  import opened KeyLists
  import opened Keyring
  import KeyringRuns
  import opened KeyringWord
  import KeyringHeld
  import opened Record
  import RecordRuns

  datatype Witness = Witness(dir: KeyDir, record: RecordRuns.Service)

  datatype Event =
    | OnRecord(e: RecordRuns.Event)
    | OnKeys(k: KeyringRuns.Event)
    | Restarts(now: int)

  ghost function Step(rec: Enrolled, w: Witness, e: Event): Witness
    requires KeyringRuns.Sound(w.dir)
  {
    match e
    case OnRecord(r) => w.(record := RecordRuns.Step(rec, w.record, r))
    case OnKeys(k) => w.(dir := KeyringRuns.Apply(w.dir, k))
    case Restarts(now) =>
      KeyringRuns.RestartKeeps(w.dir);
      var dir := KeyringRuns.Apply(w.dir, KeyringRuns.Restart);
      Witness(dir, RecordRuns.Step(rec, w.record, RecordRuns.Starts(KeyringRuns.Ring(dir), now)))
  }

  /**
    What RotateKey asks of its operator, and no more: a key is retired after the newest adoption, and a
    process that judges a push holds the keyring its directory holds.
  */
  ghost predicate Orderly(w: Witness, e: Event)
    requires KeyringRuns.Sound(w.dir)
  {
    match e
    case OnRecord(r) => r.now > 0 && !r.Starts? && (r.Arrives? && w.record.memory.Some? ==> w.record.ring == KeyringRuns.Ring(w.dir))
    case OnKeys(k) => k.Rotate? ==> k.now > 0 && (w.record.disk.checkpoint.Some? ==> k.now > w.record.disk.checkpoint.value.observedAt)
    case Restarts(now) => now > 0
  }

  /** The events, in this order and each in order, lead from w to v. */
  ghost predicate Leads(rec: Enrolled, w: Witness, events: List<Event>, v: Witness) {
    match events
    case End => w == v
    case More(front, e) =>
      exists m :: Leads(rec, w, front, m) && KeyringRuns.Sound(m.dir) && Orderly(m, e) && v == Step(rec, m, e)
  }

  ghost predicate Inv(rec: Enrolled, w: Witness) {
    && KeyringRuns.Sound(w.dir) && RecordRuns.Inv(rec, w.record)
    && MemoryReads(KeyringRuns.Ring(w.dir), w.record.disk.checkpoint)
  }

  /** One event of the keys, after the newest adoption, leaves the saved memory readable. */
  lemma KeysKeep(rec: Enrolled, w: Witness, k: KeyringRuns.Event)
    requires Inv(rec, w) && Orderly(w, OnKeys(k))
    ensures Inv(rec, w.(dir := KeyringRuns.Apply(w.dir, k)))
  {
    KeyringRuns.ApplyKeeps(w.dir, k);
    OneEvent(w.dir, k);
    var c := w.record.disk.checkpoint;
    if c.Some? {
      MemoryStillLoads(w.dir, [k], c.value.signer.value, c.value.observedAt);
    }
  }

  lemma OneEvent(d: KeyDir, k: KeyringRuns.Event)
    ensures KeyringRuns.Run(d, [k]) == KeyringRuns.Apply(d, k)
  {
    assert [k][..0] == [];
  }

  lemma RecordKeeps(rec: Enrolled, w: Witness, e: RecordRuns.Event)
    requires Inv(rec, w) && Orderly(w, OnRecord(e))
    ensures Inv(rec, Step(rec, w, OnRecord(e)))
  {
    RecordRuns.StepKeeps(rec, w.record, e);
    var s := w.record;
    if e.Arrives? && s.memory.Some? {
      RecordRuns.HoldForward(rec, s.ring, s.disk, s.memory.value, e.p, e.now, e.allowed, e.fates);
    }
  }

  lemma RestartLoads(rec: Enrolled, w: Witness, now: int)
    requires Inv(rec, w) && now > 0
    ensures Inv(rec, Step(rec, w, Restarts(now))) && Step(rec, w, Restarts(now)).record.memory.Some?
  {
    KeysKeep(rec, w, KeyringRuns.Restart);
    var dir := KeyringRuns.Apply(w.dir, KeyringRuns.Restart);
    RecordRuns.StepKeeps(rec, w.record, RecordRuns.Starts(KeyringRuns.Ring(dir), now));
  }

  lemma {:induction false} RunKeeps(rec: Enrolled, w: Witness, events: List<Event>, v: Witness)
    requires Inv(rec, w) && Leads(rec, w, events, v)
    ensures Inv(rec, v)
  {
    if events.More? {
      var e := events.last;
      var m :| Leads(rec, w, events.front, m) && KeyringRuns.Sound(m.dir) && Orderly(m, e) && v == Step(rec, m, e);
      RunKeeps(rec, w, events.front, m);
      match e
      case OnRecord(r) => RecordKeeps(rec, m, r);
      case OnKeys(k) => KeysKeep(rec, m, k);
      case Restarts(now) => RestartLoads(rec, m, now);
    }
  }

  /** A record just enrolled by a witness running on its directory's keyring. */
  ghost function Enroll(rec: Enrolled, dir: KeyDir, startedAt: int): Witness
    requires KeyringRuns.Sound(dir)
  {
    Witness(dir, RecordRuns.Enroll(rec, KeyringRuns.Ring(dir), startedAt))
  }

  lemma EnrollKeeps(rec: Enrolled, dir: KeyDir, startedAt: int)
    requires KeyringRuns.Sound(dir)
    ensures Inv(rec, Enroll(rec, dir, startedAt))
  {
  }

  /** Over every orderly life, however many keys it has been through, every start loads the record. */
  lemma EveryStartLoads(rec: Enrolled, dir: KeyDir, startedAt: int, events: List<Event>, v: Witness, now: int)
    requires KeyringRuns.Sound(dir) && Leads(rec, Enroll(rec, dir, startedAt), events, v) && now > 0
    ensures KeyringRuns.Sound(v.dir) && Step(rec, v, Restarts(now)).record.memory.Some?
  {
    EnrollKeeps(rec, dir, startedAt);
    RunKeeps(rec, Enroll(rec, dir, startedAt), events, v);
    RestartLoads(rec, v, now);
  }

  /**
    A witness left running over its own rotation may strand its memory: what it adopts with the retired
    key loads at the next start exactly when it was adopted before the rotation.
  */
  lemma LeftRunningStrands(rec: Enrolled, d: KeyDir, made: Key, at: int, stop: nat, disk: Disk)
    requires KeyringRuns.Sound(d) && at > 0 && Commits(d, made, at, stop)
    requires RecordRuns.DiskGood(rec, disk) && disk.checkpoint.Some?
    requires disk.checkpoint.value.signer == Some(KeyringRuns.Ring(d).current)
    ensures KeyringRuns.Sound(AfterRotate(d, made, at, stop))
    ensures Record.Load(rec, KeyringRuns.Ring(AfterRotate(d, made, at, stop)), disk).Some? <==> disk.checkpoint.value.observedAt < at
  {
    KeyringRuns.RotateKeeps(d, made, at, stop);
    CurrentIsLast(d);
    var after, last := AfterRotate(d, made, at, stop), |KeyringRuns.Ring(d).history| - 1;
    var w := KeyringRuns.Ring(after).history[last];
    MemoryLoadsExactly(after, w, disk.checkpoint.value.observedAt);
  }

  // ---------------------------------------------------------------------------------------------
  // A retry, a life later
  // ---------------------------------------------------------------------------------------------

  /** What the run did to the keys. */
  function KeyPart(events: List<Event>): seq<KeyringRuns.Event> {
    match events
    case End => []
    case More(front, OnRecord(_)) => KeyPart(front)
    case More(front, OnKeys(k)) => KeyPart(front) + [k]
    case More(front, Restarts(_)) => KeyPart(front) + [KeyringRuns.Restart]
  }

  /** The run leads from w to v, and the saved checkpoint is c throughout. */
  ghost predicate LeadsHolding(rec: Enrolled, w: Witness, events: List<Event>, v: Witness, c: Checkpoint) {
    && v.record.disk.checkpoint == Some(c)
    && match events
       case End => w == v
       case More(front, e) =>
         exists m :: LeadsHolding(rec, w, front, m, c) && KeyringRuns.Sound(m.dir) && Orderly(m, e) && v == Step(rec, m, e)
  }

  lemma RunSnoc(d: KeyDir, before: seq<KeyringRuns.Event>, k: KeyringRuns.Event)
    ensures KeyringRuns.Run(d, before + [k]) == KeyringRuns.Apply(KeyringRuns.Run(d, before), k)
  {
    assert (before + [k])[..|before|] == before;
  }

  lemma StepDir(rec: Enrolled, w: Witness, e: Event)
    requires KeyringRuns.Sound(w.dir)
    ensures Step(rec, w, e).dir == match e
                                   case OnRecord(_) => w.dir
                                   case OnKeys(k) => KeyringRuns.Apply(w.dir, k)
                                   case Restarts(_) => KeyringRuns.Apply(w.dir, KeyringRuns.Restart)
  {
  }

  lemma {:induction false} HoldingKeys(rec: Enrolled, w: Witness, events: List<Event>, v: Witness, c: Checkpoint)
    requires LeadsHolding(rec, w, events, v, c)
    ensures Leads(rec, w, events, v) && v.dir == KeyringRuns.Run(w.dir, KeyPart(events))
    ensures KeyringRuns.Clocked(KeyPart(events)) && RotatesAfter(KeyPart(events), c.observedAt)
  {
    if events.More? {
      var e := events.last;
      var m :| LeadsHolding(rec, w, events.front, m, c) && KeyringRuns.Sound(m.dir) && Orderly(m, e) && v == Step(rec, m, e);
      HoldingKeys(rec, w, events.front, m, c);
      HoldingStep(rec, w, events.front, m, e, c);
    }
  }

  lemma HoldingStep(rec: Enrolled, w: Witness, front: List<Event>, m: Witness, e: Event, c: Checkpoint)
    requires KeyringRuns.Sound(m.dir) && Orderly(m, e) && m.record.disk.checkpoint == Some(c)
    requires m.dir == KeyringRuns.Run(w.dir, KeyPart(front))
    requires KeyringRuns.Clocked(KeyPart(front)) && RotatesAfter(KeyPart(front), c.observedAt)
    ensures Step(rec, m, e).dir == KeyringRuns.Run(w.dir, KeyPart(More(front, e)))
    ensures KeyringRuns.Clocked(KeyPart(More(front, e))) && RotatesAfter(KeyPart(More(front, e)), c.observedAt)
  {
    StepDir(rec, m, e);
    match e
    case OnRecord(_) =>
    case OnKeys(k) => RunSnoc(w.dir, KeyPart(front), k);
    case Restarts(_) => RunSnoc(w.dir, KeyPart(front), KeyringRuns.Restart);
  }

  /**
    A retry answers what the first attempt did, a life later. A push adopted under the directory's
    keyring and pushed again after any orderly run that left it held is countersigned with the same two
    attestations, while the witness can sign with the adopting key and that key's listed start is not
    after the adoption.
  */
  lemma RetryAfterLife(rec: Enrolled, w: Witness, events: List<Event>, v: Witness, c: Checkpoint, p: Push,
                       raised: seq<Finding>, now: int, fates: Fates)
    requires Inv(rec, w) && LeadsHolding(rec, w, events, v, c) && v.record.memory.Some?
    requires KeyringRuns.Sound(v.dir) && v.record.ring == KeyringRuns.Ring(v.dir)
    requires HoldsPush(Some(c), p) && WellFormed(p) && p.installID == rec.name != "" && !Lapsed(rec, now)
    requires w.record.disk.checkpoint == Some(c) && c.signer == Some(KeyringRuns.Ring(w.dir).current)
    requires var keys := KeyringRuns.Ring(w.dir).history; keys[|keys| - 1].validFrom.time <= c.observedAt
    ensures var first := Countersign(c, KeyringRuns.Ring(w.dir), raised, c.observedAt);
            CanSign(v.record.ring, KeyringRuns.Ring(w.dir).current) ==>
              first.Countersigned?
              && Judge(rec, v.record.ring, v.record.disk, v.record.memory.value, p, now, true, fates)
                 == Outcome(v.record.disk, v.record.memory, first.(raised := []))
  {
    HoldingKeys(rec, w, events, v, c);
    RunKeeps(rec, w, events, v);
    RecordRuns.RetryAnswersAlike(rec, w.dir, KeyPart(events), v.record.disk, v.record.memory.value, p, raised, now, fates);
  }

  /** And it does so in every such life in which nobody deleted the adopting key's file. */
  lemma RetryAnswersForLife(rec: Enrolled, w: Witness, events: List<Event>, v: Witness, c: Checkpoint, p: Push,
                            raised: seq<Finding>, now: int, fates: Fates)
    requires Inv(rec, w) && LeadsHolding(rec, w, events, v, c) && v.record.memory.Some?
    requires KeyringRuns.Sound(v.dir) && v.record.ring == KeyringRuns.Ring(v.dir)
    requires HoldsPush(Some(c), p) && WellFormed(p) && p.installID == rec.name != "" && !Lapsed(rec, now)
    requires w.record.disk.checkpoint == Some(c) && c.signer == Some(KeyringRuns.Ring(w.dir).current)
    requires var keys := KeyringRuns.Ring(w.dir).history; keys[|keys| - 1].validFrom.time <= c.observedAt
    requires KeyringHeld.KeepsFile(KeyPart(events), KeyringRuns.Ring(w.dir).current)
    ensures var first := Countersign(c, KeyringRuns.Ring(w.dir), raised, c.observedAt);
            && first.Countersigned?
            && Judge(rec, v.record.ring, v.record.disk, v.record.memory.value, p, now, true, fates)
               == Outcome(v.record.disk, v.record.memory, first.(raised := []))
  {
    HoldingKeys(rec, w, events, v, c);
    KeyringHeld.StillSigns(w.dir, KeyPart(events), KeyringRuns.Ring(w.dir).current);
    RetryAfterLife(rec, w, events, v, c, p, raised, now, fates);
  }
}
