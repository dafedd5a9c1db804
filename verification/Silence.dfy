/**
  Silence, over every run of a record. What a start rebuilds of when the install was last heard from is
  never later than the truth, and a silence is noted once, with a judged push before the next note,
  unless some start forgets it; when one does is said exactly.
*/
module Silence {
  import opened Options
  import opened SnocLists
  import opened Merkle
  import opened PushRules
  import HonestInstall
  import opened Keyring
  import opened Record
  import opened RecordRuns

  /** The latest a judged push arrived, or the enrollment before any. */
  ghost function LastJudged(rec: Enrolled, marks: List<Mark>): int {
    match marks
    case End => rec.at
    case More(front, last) => if last.PushJudged? then Later(last.at, LastJudged(rec, front)) else LastJudged(rec, front)
  }

  /** Silence was noted, and no push judged since. */
  ghost predicate Quiet(marks: List<Mark>) {
    marks.More? && marks.last.SilenceNoted?
  }

  /** No two silence notes in a row. */
  ghost predicate Alternates(marks: List<Mark>) {
    marks.More? ==> Alternates(marks.front) && !(marks.last.SilenceNoted? && Quiet(marks.front))
  }

  // ---------------------------------------------------------------------------------------------
  // What a start rebuilds of the last push
  // ---------------------------------------------------------------------------------------------

  /** The time of the newest silence note, zero with none. */
  lemma {:induction false} LastSilentExactly(log: List<Recorded>)
    ensures forall r :: Contains(log, r) && r.kind.Silent_Install? ==> r.at <= LastSilent(log)
    ensures LastSilent(log) == ZERO_TIME || exists r :: Contains(log, r) && r.kind.Silent_Install? && r.at == LastSilent(log)
  {
    if log.More? {
      LastSilentExactly(log.front);
      assert Contains(log, log.last);
      if r :| Contains(log.front, r) && r.kind.Silent_Install? && r.at == LastSilent(log.front) {
        assert Contains(log, r);
      }
    }
  }

  /** A finding a push left: not the sweep's note, nor the one a restore leaves. */
  predicate PushLeft(r: Recorded) {
    !r.kind.Silent_Install? && !r.kind.Memory_Restored?
  }

  /** The time of the newest finding a push left, zero with none. */
  lemma {:induction false} LastPushExactly(log: List<Recorded>)
    ensures forall r :: Contains(log, r) && PushLeft(r) ==> r.at <= LastPush(log)
    ensures LastPush(log) == ZERO_TIME || exists r :: Contains(log, r) && PushLeft(r) && r.at == LastPush(log)
  {
    if log.More? {
      LastPushExactly(log.front);
      assert Contains(log, log.last);
      if r :| Contains(log.front, r) && PushLeft(r) && r.at == LastPush(log.front) {
        assert Contains(log, r);
      }
    }
  }

  /**
    What a start rebuilds of the last push is the newest of three traces, the enrollment, what a push left
    on record and the adoption, and a silence is known exactly when some note is no older than that.
  */
  lemma RebuiltExactly(rec: Enrolled, ring: Keyring, d: Disk, t: int)
    requires Record.Load(rec, ring, d).Some? && rec.at > 0
    ensures var m := Record.Load(rec, ring, d).value;
            && (t >= m.lastSeen <==> t >= rec.at && t >= LastPush(d.findings) && (d.checkpoint.Some? ==> t >= d.checkpoint.value.observedAt))
            && (m.silent <==> exists r :: Contains(d.findings, r) && r.kind.Silent_Install? && r.at >= m.lastSeen)
  {
    LastSilentExactly(d.findings);
  }

  lemma {:induction false} ClassifiedAt(log: List<Recorded>, found: List<Finding>, now: int)
    ensures LastPush(Append(log, Classify(found, now))) <= Later(now, LastPush(log))
  {
    if found.More? {
      ClassifiedAt(log, found.front, now);
    }
  }

  lemma WriteFindingsTrace(rec: Enrolled, d: Disk, m: Memory, found: seq<Finding>, now: int, fate: Fate)
    ensures var s := WriteFindings(d, m, found, now, fate);
            LastTrace(rec, if s.Go? then s.disk else s.outcome.disk) <= Later(now, LastTrace(rec, d))
  {
    ClassifiedAt(d.findings, FreshOf(m.delta, found, |found|), now);
  }

  lemma AdoptTrace(rec: Enrolled, d: Disk, m: Memory, ring: Keyring, p: Push, next: Checkpoint, found: seq<Finding>, now: int, fates: Fates)
    requires next.observedAt == now
    ensures LastTrace(rec, Adopt(d, m, ring, p, next, found, now, fates).disk) <= Later(now, LastTrace(rec, d))
  {
    var s := WriteHead(d, m, HeadLine(now, Pushed(p)), fates.heads);
    if s.Go? {
      WriteFindingsTrace(rec, s.disk, s.memory, found, now, fates.findings);
    }
  }

  /** A push leaves no trace later than its own time, and one that is not judged leaves none at all. */
  lemma HoldTrace(rec: Enrolled, ring: Keyring, d: Disk, m: Memory, p: Push, now: int, allowed: bool, fates: Fates)
    requires Good(rec, d, Some(m)) && now > 0
    ensures LastTrace(rec, Hold(rec, ring, d, m, p, now, allowed, fates).disk) <= Later(now, LastTrace(rec, d))
    ensures !IsJudged(rec, ring, d, p, now, allowed) ==>
              var o := Hold(rec, ring, d, m, p, now, allowed, fates); o.disk == d && (o.memory.Some? ==> o.memory.value == m)
  {
    if IsJudged(rec, ring, d, p, now, allowed) {
      var r := CheckPush(d.checkpoint, rec.name, p, now);
      if HoldsPush(Some(r.next), p) {
        AdoptedSaved(rec, d, p, now);
        AdoptTrace(rec, d, m, ring, p, r.next, r.found, now, fates);
      } else {
        WriteFindingsTrace(rec, d, m, r.found, now, fates.findings);
      }
    }
  }

  lemma StepTrace(rec: Enrolled, s: Service, e: Event)
    requires Inv(rec, s) && e.now > 0 && LastTrace(rec, s.disk) <= LastJudged(rec, s.marks)
    ensures LastTrace(rec, Step(rec, s, e).disk) <= LastJudged(rec, Step(rec, s, e).marks)
  {
    if e.Arrives? && s.memory.Some? {
      HoldTrace(rec, s.ring, s.disk, s.memory.value, e.p, e.now, e.allowed, e.fates);
    }
  }

  lemma {:induction false} RunTrace(rec: Enrolled, s: Service, events: List<Event>)
    requires Inv(rec, s) && Dated(rec, events) && LastTrace(rec, s.disk) <= LastJudged(rec, s.marks)
    ensures LastTrace(rec, Run(rec, s, events).disk) <= LastJudged(rec, Run(rec, s, events).marks)
  {
    if events.More? {
      RunTrace(rec, s, events.front);
      RunKeeps(rec, s, events.front);
      StepTrace(rec, Run(rec, s, events.front), events.last);
    }
  }

  /**
    Over every run, whatever the clock does, and under whatever keyring a start then reads the record,
    the time it rebuilds for the last push is no later than the last judged push or the enrollment.
  */
  lemma RebuiltNeverLater(rec: Enrolled, ring: Keyring, startedAt: int, events: List<Event>, other: Keyring)
    requires Dated(rec, events)
    requires Record.Load(rec, other, Run(rec, Enroll(rec, ring, startedAt), events).disk).Some?
    ensures var s := Run(rec, Enroll(rec, ring, startedAt), events);
            Record.Load(rec, other, s.disk).value.lastSeen <= LastJudged(rec, s.marks)
  {
    DatedStart(rec, events);
    RunTrace(rec, Enroll(rec, ring, startedAt), events);
  }

  lemma {:induction false} DatedStart(rec: Enrolled, events: List<Event>)
    requires Dated(rec, events)
    ensures rec.at > 0
  {
    if events.More? {
      DatedStart(rec, events.front);
    }
  }

  /**
    What the sweep notes: an install not yet known silent, quiet for more than a day since it was last
    heard from and since the service started, is noted, and no other is.
  */
  lemma SweepNotesExactly(d: Disk, m: Memory, startedAt: int, now: int)
    ensures var o := Record.Sweep(d, m, startedAt, now, Works);
            if !m.silent && now > m.lastSeen + 24 * 3600 && now > startedAt + 24 * 3600
            then o == Outcome(d.(findings := More(d.findings, Recorded(now, Silent_Install))), Some(m.(notes := m.notes + 1, silent := true)), NoReply)
            else o == Outcome(d, Some(m), NoReply)
  {
  }

  /** A note the process dies at is on disk whole or not at all, and one that fails leaves all as it was. */
  lemma NoteFates(d: Disk, m: Memory, kind: Kind, now: int, written: bool)
    ensures var works := WriteNote(d, m, kind, now, Works);
            && works.disk == d.(findings := More(d.findings, Recorded(now, kind)))
            && WriteNote(d, m, kind, now, Fails) == Outcome(d, Some(m), NoReply)
            && WriteNote(d, m, kind, now, Fate.Dies(written)) == Outcome(if written then works.disk else d, None, NoReply)
  {
  }

  // ---------------------------------------------------------------------------------------------
  // When silence is noted once, and exactly when it is not
  // ---------------------------------------------------------------------------------------------

  /** The one way a noted silence is lost: a start that finds the newest note older than the newest trace of the install. */
  ghost predicate Forgets(rec: Enrolled, s: Service, e: Event) {
    && e.Starts? && Quiet(s.marks) && Record.Load(rec, e.ring, s.disk).Some?
    && LastSilent(s.disk.findings) < LastTrace(rec, s.disk)
  }

  ghost predicate NeverForgets(rec: Enrolled, s: Service, events: List<Event>) {
    events.More? ==> NeverForgets(rec, s, events.front) && !Forgets(rec, Run(rec, s, events.front), events.last)
  }

  /** A noted silence is on disk, and a living memory knows of it unless some start forgot. */
  ghost predicate NoteKnown(s: Service, remembered: bool) {
    Quiet(s.marks) ==> 0 < LastSilent(s.disk.findings) && (remembered && s.memory.Some? ==> s.memory.value.silent)
  }

  lemma ArrivesKnown(rec: Enrolled, s: Service, e: Event, remembered: bool)
    requires Inv(rec, s) && e.now > 0 && e.Arrives? && NoteKnown(s, remembered)
    ensures NoteKnown(Step(rec, s, e), remembered)
  {
    if s.memory.Some? {
      HoldTrace(rec, s.ring, s.disk, s.memory.value, e.p, e.now, e.allowed, e.fates);
    }
  }

  lemma NotesKnown(rec: Enrolled, s: Service, e: Event, remembered: bool)
    requires e.now > 0 && (e.Sweeps? || e.NotesRestore?) && NoteKnown(s, remembered)
    ensures NoteKnown(Step(rec, s, e), remembered)
  {
  }

  lemma StepKnown(rec: Enrolled, s: Service, e: Event, remembered: bool)
    requires Inv(rec, s) && e.now > 0 && NoteKnown(s, remembered) && (remembered ==> !Forgets(rec, s, e))
    ensures NoteKnown(Step(rec, s, e), remembered)
    ensures remembered && Alternates(s.marks) ==> Alternates(Step(rec, s, e).marks)
  {
    if e.Arrives? {
      ArrivesKnown(rec, s, e, remembered);
    } else if e.Sweeps? || e.NotesRestore? {
      NotesKnown(rec, s, e, remembered);
    }
  }

  lemma {:induction false} RunKnown(rec: Enrolled, s: Service, events: List<Event>, remembered: bool)
    requires Inv(rec, s) && s.marks == End && Dated(rec, events) && (remembered ==> NeverForgets(rec, s, events))
    ensures NoteKnown(Run(rec, s, events), remembered)
    ensures remembered ==> Alternates(Run(rec, s, events).marks)
  {
    if events.More? {
      RunKnown(rec, s, events.front, remembered);
      RunKeeps(rec, s, events.front);
      StepKnown(rec, Run(rec, s, events.front), events.last, remembered);
    }
  }

  /**
    Silence is noted once per silence. Over every run in which no start forgets, whatever the clock
    does, two silence notes never follow one another without a judged push between them.
  */
  lemma SilenceNotedOnce(rec: Enrolled, ring: Keyring, startedAt: int, events: List<Event>, i: nat)
    requires Dated(rec, events) && NeverForgets(rec, Enroll(rec, ring, startedAt), events)
    ensures var marks := Run(rec, Enroll(rec, ring, startedAt), events).marks;
            i + 1 < |AsSeq(marks)| ==> !(AsSeq(marks)[i].SilenceNoted? && AsSeq(marks)[i + 1].SilenceNoted?)
  {
    RunKnown(rec, Enroll(rec, ring, startedAt), events, true);
    var marks := Run(rec, Enroll(rec, ring, startedAt), events).marks;
    if i + 1 < |AsSeq(marks)| {
      AlternatesAt(marks, i);
    }
  }

  lemma {:induction false} AlternatesAt(marks: List<Mark>, i: nat)
    requires Alternates(marks) && i + 1 < |AsSeq(marks)|
    ensures !(AsSeq(marks)[i].SilenceNoted? && AsSeq(marks)[i + 1].SilenceNoted?)
  {
    if i + 1 < |AsSeq(marks.front)| {
      AlternatesAt(marks.front, i);
    } else {
      assert AsSeq(marks.front)[i] == marks.front.last;
    }
  }

  /** Started at now, a sweep at later notes the silence again. */
  ghost predicate NotedAgain(rec: Enrolled, s: Service, ring: Keyring, now: int, later: int) {
    Step(rec, Step(rec, s, Starts(ring, now)), Sweeps(later, Works)).marks == More(s.marks, SilenceNoted(later))
  }

  /**
    The exact condition. After any run that noted a silence no push has ended, a start under a keyring
    that reads the record can be followed by a second note of it if and only if the start finds the
    newest note older than the newest trace of the install.
  */
  lemma ForgottenExactly(rec: Enrolled, first: Keyring, startedAt: int, events: List<Event>, ring: Keyring, now: int)
    requires Dated(rec, events) && now > 0
    requires var s := Run(rec, Enroll(rec, first, startedAt), events); Quiet(s.marks) && Record.Load(rec, ring, s.disk).Some?
    ensures var s := Run(rec, Enroll(rec, first, startedAt), events);
            (exists later :: later > 0 && NotedAgain(rec, s, ring, now, later))
              <==> LastSilent(s.disk.findings) < LastTrace(rec, s.disk)
  {
    var s := Run(rec, Enroll(rec, first, startedAt), events);
    RunKnown(rec, Enroll(rec, first, startedAt), events, false);
    StartThenSweep(rec, s, ring, now);
  }

  lemma StartThenSweep(rec: Enrolled, s: Service, ring: Keyring, now: int)
    requires now > 0 && Quiet(s.marks) && 0 < LastSilent(s.disk.findings) && Record.Load(rec, ring, s.disk).Some?
    ensures (exists later :: later > 0 && NotedAgain(rec, s, ring, now, later))
              <==> LastSilent(s.disk.findings) < LastTrace(rec, s.disk)
  {
    var started := Step(rec, s, Starts(ring, now));
    if LastSilent(s.disk.findings) < LastTrace(rec, s.disk) {
      var later := Later(LastTrace(rec, s.disk), now) + STALE_AFTER + 1;
      assert FallsSilent(started.memory.value, now, later);
      assert NotedAgain(rec, s, ring, now, later);
    } else {
      forall later | later > 0 ensures !NotedAgain(rec, s, ring, now, later) {
        assert Step(rec, started, Sweeps(later, Works)).marks == s.marks;
        assert Count(More(s.marks, SilenceNoted(later))) == Count(s.marks) + 1;
      }
    }
  }

  // ---------------------------------------------------------------------------------------------
  // A clock that never moves back never forgets
  // ---------------------------------------------------------------------------------------------

  /** The clock reads a real time and never moves back. */
  ghost predicate Timely(rec: Enrolled, s: Service, events: List<Event>) {
    match events
    case End => 0 < rec.at <= s.clock
    case More(front, last) => Timely(rec, s, front) && Run(rec, s, front).clock <= last.now
  }

  lemma {:induction false} TimelyDated(rec: Enrolled, s: Service, events: List<Event>)
    requires Timely(rec, s, events)
    ensures Dated(rec, events) && 0 < rec.at <= s.clock <= Run(rec, s, events).clock
  {
    if events.More? {
      TimelyDated(rec, s, events.front);
    }
  }

  /** The newest note is no older than the last judged push. */
  ghost predicate NotesNewer(rec: Enrolled, s: Service) {
    && LastJudged(rec, s.marks) <= s.clock
    && (Quiet(s.marks) ==> LastJudged(rec, s.marks) <= LastSilent(s.disk.findings))
  }

  lemma StepNotesNewer(rec: Enrolled, s: Service, e: Event)
    requires Inv(rec, s) && NotesNewer(rec, s) && 0 < s.clock <= e.now
    ensures NotesNewer(rec, Step(rec, s, e))
  {
    if e.Arrives? && s.memory.Some? {
      HoldTrace(rec, s.ring, s.disk, s.memory.value, e.p, e.now, e.allowed, e.fates);
    }
  }

  lemma {:induction false} TimelyNeverForgets(rec: Enrolled, s: Service, events: List<Event>)
    requires Inv(rec, s) && s.marks == End && LastTrace(rec, s.disk) <= rec.at && Timely(rec, s, events)
    ensures NotesNewer(rec, Run(rec, s, events)) && NeverForgets(rec, s, events)
  {
    if events.More? {
      TimelyNeverForgets(rec, s, events.front);
      TimelyDated(rec, s, events.front);
      RunKeeps(rec, s, events.front);
      RunTrace(rec, s, events.front);
      StepNotesNewer(rec, Run(rec, s, events.front), events.last);
    }
  }

  /** Under a clock that never moves back silence is noted once per silence, with nothing else asked. */
  lemma TimelyNotedOnce(rec: Enrolled, ring: Keyring, startedAt: int, events: List<Event>, i: nat)
    requires Timely(rec, Enroll(rec, ring, startedAt), events)
    ensures var marks := Run(rec, Enroll(rec, ring, startedAt), events).marks;
            i + 1 < |AsSeq(marks)| ==> !(AsSeq(marks)[i].SilenceNoted? && AsSeq(marks)[i + 1].SilenceNoted?)
  {
    var s := Enroll(rec, ring, startedAt);
    TimelyDated(rec, s, events);
    TimelyNeverForgets(rec, s, events);
    SilenceNotedOnce(rec, ring, startedAt, events, i);
  }

  // ---------------------------------------------------------------------------------------------
  // A run that forgets
  // ---------------------------------------------------------------------------------------------

  const ALL_WORK := Fates(Works, Works, Works, true)

  lemma {:induction false} ClassifiedSilentAt(log: List<Recorded>, found: List<Finding>, now: int)
    ensures LastSilent(Append(log, Classify(found, now))) <= Later(now, LastSilent(log))
  {
    if found.More? {
      ClassifiedSilentAt(log, found.front, now);
    }
  }

  /** Enrolled at 1000000 by a clock that then stepped back to 10, when the install's first push came. */
  ghost predicate PushedAtTen(rec: Enrolled, ring: Keyring, s: Service) {
    && s.memory.Some? && s.memory.value.lastSeen == 10 && !s.memory.value.silent && s.startedAt == 5
    && LastPush(s.disk.findings) <= 10 && LastSilent(s.disk.findings) <= 10
    && s.disk.checkpoint.Some? && s.disk.checkpoint.value.observedAt == 10
    && s.disk.checkpoint.value.installID == rec.name && s.disk.checkpoint.value.signer == Some(ring.current)
    && s.ring == ring && s.marks == More(End, PushJudged(10))
  }

  lemma FirstPush(rec: Enrolled, ring: Keyring) returns (p: Push)
    requires rec == Enrolled("a", 1000000, ZERO_TIME)
    ensures PushedAtTen(rec, ring, Step(rec, Enroll(rec, ring, 5), Arrives(p, 10, true, ALL_WORK)))
  {
    var h := HonestInstall.History([Leaf(0, 0)], [Leaf(0, 0)], map[1 := 1]);
    p := HonestInstall.PushOf(h, rec.name, 1, 0);
    HonestInstall.HonestPushNeverRefused(None, h, rec.name, 1, 0, 10);
    var s := Enroll(rec, ring, 5);
    AdoptedSaved(rec, s.disk, p, 10);
    var r := CheckPush(None, rec.name, p, 10);
    var fresh_ := FreshOf({}, r.found, |r.found|);
    ClassifiedAt(End, fresh_, 10);
    ClassifiedSilentAt(End, fresh_, 10);
  }

  /** The run after it: a note, a restart that reads the enrollment as newer than the note, and a second note. */
  lemma NotedTwice(rec: Enrolled, ring: Keyring, s: Service)
    requires rec == Enrolled("a", 1000000, ZERO_TIME) && PushedAtTen(rec, ring, s)
    ensures var noted := Step(rec, s, Sweeps(86411, Works));
            var started := Step(rec, noted, Starts(ring, 86412));
            Step(rec, started, Sweeps(1086401, Works)).marks
              == More(More(More(End, PushJudged(10)), SilenceNoted(86411)), SilenceNoted(1086401))
  {
    var noted := Step(rec, s, Sweeps(86411, Works));
    var started := Step(rec, noted, Starts(ring, 86412));
    assert started.memory.Some? && started.memory.value.lastSeen == 1000000 && !started.memory.value.silent;
  }

  function FourEvents(p: Push, ring: Keyring): List<Event> {
    More(More(More(More(End, Arrives(p, 10, true, ALL_WORK)), Sweeps(86411, Works)), Starts(ring, 86412)), Sweeps(1086401, Works))
  }

  lemma RunMore(rec: Enrolled, s: Service, front: List<Event>, e: Event)
    ensures Run(rec, s, More(front, e)) == Step(rec, Run(rec, s, front), e)
  {
  }

  lemma FourSteps(rec: Enrolled, s: Service, p: Push, ring: Keyring)
    ensures Run(rec, s, FourEvents(p, ring))
         == Step(rec, Step(rec, Step(rec, Step(rec, s, Arrives(p, 10, true, ALL_WORK)), Sweeps(86411, Works)), Starts(ring, 86412)), Sweeps(1086401, Works))
  {
    var events := FourEvents(p, ring);
    RunMore(rec, s, End, Arrives(p, 10, true, ALL_WORK));
    RunMore(rec, s, events.front.front.front, Sweeps(86411, Works));
    RunMore(rec, s, events.front.front, Starts(ring, 86412));
    RunMore(rec, s, events.front, Sweeps(1086401, Works));
  }

  lemma FourDated(rec: Enrolled, p: Push, ring: Keyring)
    requires rec.at > 0
    ensures Dated(rec, FourEvents(p, ring))
  {
    var events := FourEvents(p, ring);
    assert Dated(rec, events.front.front.front);
    assert Dated(rec, events.front.front);
  }

  lemma FourUntimely(rec: Enrolled, s: Service, p: Push, ring: Keyring)
    requires s.clock > 10
    ensures !Timely(rec, s, FourEvents(p, ring))
  {
    var first := More(End, Arrives(p, 10, true, ALL_WORK));
    assert !Timely(rec, s, first);
    assert !Timely(rec, s, More(first, Sweeps(86411, Works)));
    assert !Timely(rec, s, More(More(first, Sweeps(86411, Works)), Starts(ring, 86412)));
  }

  /**
    Some start does forget. Under every keyring there is a run with real times, the clock once stepping
    back, in which silence is noted twice with no judged push between.
  */
  lemma SilenceNeedsTheClock(ring: Keyring) returns (rec: Enrolled, events: List<Event>)
    ensures Dated(rec, events) && !Timely(rec, Enroll(rec, ring, 5), events)
    ensures !Alternates(Run(rec, Enroll(rec, ring, 5), events).marks) && !NeverForgets(rec, Enroll(rec, ring, 5), events)
  {
    rec := Enrolled("a", 1000000, ZERO_TIME);
    var p := FirstPush(rec, ring);
    var s := Enroll(rec, ring, 5);
    events := FourEvents(p, ring);
    NotedTwice(rec, ring, Step(rec, s, Arrives(p, 10, true, ALL_WORK)));
    FourSteps(rec, s, p, ring);
    FourUntimely(rec, s, p, ring);
    FourDated(rec, p, ring);
    TwiceInARow(Run(rec, s, events).marks);
    if NeverForgets(rec, s, events) {
      RunKnown(rec, s, events, true);
    }
  }

  lemma TwiceInARow(marks: List<Mark>)
    requires marks.More? && marks.last.SilenceNoted? && Quiet(marks.front)
    ensures !Alternates(marks)
  {
  }
}
