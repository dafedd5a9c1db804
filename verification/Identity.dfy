/**
  Creating an identity file once, by any number of processes that start, stop and die at any point.

  A process writes its own temporary file, bytes at a time, and links it under the shared name; the
  name and the temporary file are then one file. The first link wins and the rest read what won.
*/
module Identity {
  import opened Options
  import opened SnocLists

  datatype Seed = Bytes(n: nat) | BadSeed(text: string)

  /** An install id as stored: left blank, named, or derived from a key. */
  datatype InstallID = Blank | Named(text: string) | Born(n: nat)

  datatype Stored = Stored(seed: Seed, installID: InstallID)

  /** A file's bytes: a stored identity in full, or anything that does not parse as one. */
  datatype Content = Whole(stored: Stored) | Cut

  datatype Identity = Identity(seed: nat, installID: InstallID)

  function IdentityFromSeed(seed: Seed, installID: InstallID): Option<Identity> {
    if seed.BadSeed? then None
    else Some(Identity(seed.n, if installID == Blank then Born(seed.n) else installID))
  }

  /** What a reader makes of a file that is there. */
  function Parse(c: Content): Option<Identity> {
    if c.Cut? then None else IdentityFromSeed(c.stored.seed, c.stored.installID)
  }

  /** Where one call of loadNamed stands. temp is the number of its temporary file. */
  datatype Process =
    | Starting
    | Absent
    | Drawn(seed: nat)
    | Writing(seed: nat, temp: nat)
    | Closed(seed: nat, temp: nat)
    | Lost
    | Returned(id: Identity)
    | Failed

  /** files are the files ever made, and path is the one the shared name is linked to. */
  datatype State = State(files: seq<Content>, path: Option<nat>, processes: seq<Process>)

  datatype Event =
    | Spawn
    | Read(p: nat)
    | Draw(p: nat, seed: nat)
    | Create(p: nat)
    | WriteSome(p: nat)
    | WriteRest(p: nat)
    | Link(p: nat)
    | Stop(p: nat)

  function Now(s: State, p: nat): Process {
    if p < |s.processes| then s.processes[p] else Failed
  }

  function Become(s: State, p: nat, q: Process): State {
    if p < |s.processes| then s.(processes := s.processes[p := q]) else s
  }

  /** A read of the shared name, first or after losing the link. */
  function ReadPath(s: State): Process {
    if s.path.None? then Absent
    else if s.path.value < |s.files| && Parse(s.files[s.path.value]).Some? then Returned(Parse(s.files[s.path.value]).value)
    else Failed
  }

  /** One step of one process. A step the process is not at changes nothing. */
  function Step(s: State, e: Event): State {
    match e
    case Spawn => s.(processes := s.processes + [Starting])
    case Read(p) =>
      if Now(s, p) == Starting then Become(s, p, ReadPath(s))
      else if Now(s, p) == Lost then Become(s, p, if ReadPath(s) == Absent then Failed else ReadPath(s))
      else s
    case Draw(p, seed) => if Now(s, p) == Absent then Become(s, p, Drawn(seed)) else s
    case Create(p) =>
      if Now(s, p).Drawn? then Become(s, p, Writing(Now(s, p).seed, |s.files|)).(files := s.files + [Cut]) else s
    case WriteSome(p) =>
      if Now(s, p).Writing? && Now(s, p).temp < |s.files| then s.(files := s.files[Now(s, p).temp := Cut]) else s
    case WriteRest(p) =>
      if Now(s, p).Writing? && Now(s, p).temp < |s.files|
      then Become(s, p, Closed(Now(s, p).seed, Now(s, p).temp)).(files := s.files[Now(s, p).temp := Fresh(Now(s, p).seed)])
      else s
    case Link(p) =>
      if !Now(s, p).Closed? then s
      else if s.path.Some? then Become(s, p, Lost)
      else Become(s, p, Returned(Identity(Now(s, p).seed, Born(Now(s, p).seed)))).(path := Some(Now(s, p).temp))
    case Stop(p) => if Now(s, p).Returned? then s else Become(s, p, Failed)
  }

  /** What a process that drew seed writes. */
  function Fresh(seed: nat): Content {
    Whole(Stored(Bytes(seed), Born(seed)))
  }

  function Run(s: State, events: List<Event>): State {
    match events
    case End => s
    case More(front, e) => Step(Run(s, front), e)
  }

  // ---------------------------------------------------------------------------------------------
  // What every step keeps
  // ---------------------------------------------------------------------------------------------

  predicate Holds(q: Process, file: nat) {
    (q.Writing? || q.Closed?) && q.temp == file
  }

  /** One process alone, against the files. */
  ghost predicate Sound(files: seq<Content>, path: Option<nat>, q: Process) {
    match q
    case Writing(_, temp) => temp < |files| && path != Some(temp)
    case Closed(seed, temp) => temp < |files| && path != Some(temp) && files[temp] == Fresh(seed)
    case Lost => path.Some?
    case Returned(id) => path.Some? && path.value < |files| && Parse(files[path.value]) == Some(id)
    case _ => true
  }

  ghost predicate Inv(s: State) {
    && (s.path.Some? ==> s.path.value < |s.files|)
    && (forall p :: 0 <= p < |s.processes| ==> Sound(s.files, s.path, s.processes[p]))
    && (forall p, q, f :: 0 <= p < q < |s.processes| && Holds(s.processes[p], f) ==> !Holds(s.processes[q], f))
  }

  /** The shared name, once it names a file, names that file with those bytes. */
  ghost predicate Settled(s: State, t: State) {
    s.path.Some? && s.path.value < |s.files| ==>
      t.path == s.path && |s.files| <= |t.files| && t.files[s.path.value] == s.files[s.path.value]
  }

  /** A process that gives up its file, or holds the same one, keeps the invariant. */
  lemma BecomeKeeps(s: State, p: nat, q: Process)
    requires Inv(s) && p < |s.processes| && Sound(s.files, s.path, q)
    requires forall f :: Holds(q, f) ==> Holds(s.processes[p], f)
    ensures Inv(Become(s, p, q)) && Settled(s, Become(s, p, q))
  {
  }

  /** The holder of a file changes its bytes; nobody else sees them. */
  lemma WriteKeeps(s: State, p: nat, c: Content)
    requires Inv(s) && p < |s.processes| && s.processes[p].Writing?
    ensures var t := s.(files := s.files[s.processes[p].temp := c]); Inv(t) && Settled(s, t)
  {
    var temp := s.processes[p].temp;
    var t := s.(files := s.files[temp := c]);
    assert Holds(s.processes[p], temp);
    forall q | 0 <= q < |t.processes| ensures Sound(t.files, t.path, t.processes[q]) {
      assert Sound(s.files, s.path, s.processes[q]);
      assert q != p ==> !Holds(s.processes[q], temp);
    }
  }

  lemma CreateKeeps(s: State, p: nat)
    requires Inv(s) && p < |s.processes| && s.processes[p].Drawn?
    ensures Inv(Step(s, Create(p))) && Settled(s, Step(s, Create(p)))
  {
    var t := Step(s, Create(p));
    forall q | 0 <= q < |t.processes| ensures Sound(t.files, t.path, t.processes[q]) {
      assert Sound(s.files, s.path, s.processes[q]);
    }
  }

  lemma LinkKeeps(s: State, p: nat)
    requires Inv(s) && p < |s.processes| && s.processes[p].Closed? && s.path.None?
    ensures Inv(Step(s, Link(p))) && Settled(s, Step(s, Link(p)))
  {
    var t := Step(s, Link(p));
    var temp := s.processes[p].temp;
    assert Holds(s.processes[p], temp);
    forall q | 0 <= q < |t.processes| ensures Sound(t.files, t.path, t.processes[q]) {
      assert Sound(s.files, s.path, s.processes[q]);
      assert q != p ==> !Holds(s.processes[q], temp);
    }
  }

  lemma StepKeeps(s: State, e: Event)
    requires Inv(s)
    ensures Inv(Step(s, e)) && Settled(s, Step(s, e))
  {
    if Step(s, e) != s {
      match e
      case Spawn =>
      case Read(p) => BecomeKeeps(s, p, Step(s, e).processes[p]);
      case Draw(p, seed) => BecomeKeeps(s, p, Drawn(seed));
      case Create(p) => CreateKeeps(s, p);
      case WriteSome(p) => WriteKeeps(s, p, Cut);
      case WriteRest(p) =>
        var q := s.processes[p];
        WriteKeeps(s, p, Fresh(q.seed));
        BecomeKeeps(s.(files := s.files[q.temp := Fresh(q.seed)]), p, Closed(q.seed, q.temp));
      case Link(p) =>
        if s.path.None? { LinkKeeps(s, p); } else { BecomeKeeps(s, p, Lost); }
      case Stop(p) => BecomeKeeps(s, p, Failed);
    }
  }

  lemma {:induction false} RunKeeps(s: State, events: List<Event>)
    requires Inv(s)
    ensures Inv(Run(s, events)) && Settled(s, Run(s, events))
  {
    if events.More? {
      RunKeeps(s, events.front);
      StepKeeps(Run(s, events.front), events.last);
    }
  }

  /**
    A process that comes second adopts the winner. One that finds the name taken when it links, reads the
    file that took it, and returns that file's identity if it is sound; it never returns its own.
  */
  lemma LoserAdopts(s: State, p: nat)
    requires Inv(s) && Now(s, p).Closed? && s.path.Some?
    ensures var t := Step(Step(s, Link(p)), Read(p));
            && t.files == s.files && t.path == s.path
            && Now(t, p) == match Parse(s.files[s.path.value]) case Some(id) => Returned(id) case None => Failed
  {
    assert p < |s.processes|;
  }

  /** A process that comes first wins: its own identity is what it returns and what the name then holds. */
  lemma WinnerKeeps(s: State, p: nat)
    requires Inv(s) && Now(s, p).Closed? && s.path.None?
    ensures var t, mine := Step(s, Link(p)), Identity(Now(s, p).seed, Born(Now(s, p).seed));
            t.path == Some(Now(s, p).temp) && t.path.value < |t.files| && Parse(t.files[t.path.value]) == Some(mine) && Now(t, p) == Returned(mine)
  {
    assert p < |s.processes| && Sound(s.files, s.path, s.processes[p]);
  }

  /** A process that finds the file there returns what it holds, or fails if it is no identity, and makes nothing. */
  lemma FinderReads(s: State, p: nat)
    requires Inv(s) && Now(s, p) == Starting && s.path.Some?
    ensures var t := Step(s, Read(p));
            && t.files == s.files && t.path == s.path
            && Now(t, p) == match Parse(s.files[s.path.value]) case Some(id) => Returned(id) case None => Failed
  {
    assert p < |s.processes|;
  }

  /** What a stored identity reads as: the key and the id it names, or the id the key was born to; no identity without a sound seed. */
  lemma ParseExactly(seed: nat, text: string, installID: InstallID)
    ensures Parse(Whole(Stored(Bytes(seed), installID))) == Some(Identity(seed, if installID.Blank? then Born(seed) else installID))
    ensures Parse(Whole(Stored(BadSeed(text), installID))) == None && Parse(Cut) == None
  {
  }

  /** A process that comes to an empty directory and is not stopped makes the file and returns what it made. */
  lemma FirstComer(s: State, seed: nat)
    requires Inv(s) && s.path.None?
    ensures var p := |s.processes|;
            var drawn := Step(Step(Step(s, Spawn), Read(p)), Draw(p, seed));
            var writing := Step(Step(drawn, Create(p)), WriteSome(p));
            var t := Step(Step(writing, WriteRest(p)), Link(p));
            && Now(drawn, p) == Drawn(seed)
            && Now(writing, p) == Writing(seed, |s.files|) && |writing.files| == |s.files| + 1 && Parse(writing.files[|s.files|]) == None
            && Now(t, p) == Returned(Identity(seed, Born(seed))) && t.path == Some(|s.files|) && t.files[|s.files|] == Fresh(seed)
  {
  }

  /** Stopping a process changes no file, and takes nothing back that it returned. */
  lemma StoppingHarmless(s: State, p: nat)
    ensures var t := Step(s, Stop(p));
            && t.files == s.files && t.path == s.path
            && (p < |s.processes| ==> Now(t, p) == if s.processes[p].Returned? then s.processes[p] else Failed)
  {
  }

  /** A step a process is not at changes nothing. */
  lemma StepsInOrder(s: State, p: nat, seed: nat)
    ensures Now(s, p) != Starting && Now(s, p) != Lost ==> Step(s, Read(p)) == s
    ensures Now(s, p) != Absent ==> Step(s, Draw(p, seed)) == s
    ensures !Now(s, p).Drawn? ==> Step(s, Create(p)) == s
    ensures !Now(s, p).Writing? ==> Step(s, WriteSome(p)) == s && Step(s, WriteRest(p)) == s
    ensures !Now(s, p).Closed? ==> Step(s, Link(p)) == s
  {
  }

  /** A directory before any of these processes came: nothing under the name, or some file, sound or not. */
  ghost predicate Quiet(s: State) {
    s.processes == [] && (s.path.Some? ==> s.path.value < |s.files|)
  }

  /** Every call that succeeds, in any process at any time, returned the one identity the file holds. */
  lemma AllAgree(s: State, events: List<Event>, p: nat)
    requires Quiet(s) && Now(Run(s, events), p).Returned?
    ensures var t := Run(s, events);
            t.path.Some? && t.path.value < |t.files| && Parse(t.files[t.path.value]) == Some(Now(t, p).id)
  {
    RunKeeps(s, events);
  }

  /** The file never changes once it is there, whoever comes later and however they end. */
  lemma FileNeverChanges(s: State, events: List<Event>, more: List<Event>)
    requires Quiet(s) && Run(s, events).path.Some?
    ensures var t, u := Run(s, events), Run(Run(s, events), more);
            t.path.value < |t.files| <= |u.files| && u.path == t.path && u.files[t.path.value] == t.files[t.path.value]
  {
    RunKeeps(s, events);
    RunKeeps(Run(s, events), more);
  }

  /** A file these processes put there is complete, and its id is the one its own key was born to. */
  lemma {:induction false} FileComplete(s: State, events: List<Event>)
    requires Quiet(s) && s.path.None? && Run(s, events).path.Some?
    ensures var t := Run(s, events);
            t.path.value < |t.files| && exists seed :: t.files[t.path.value] == Fresh(seed)
  {
    if events.More? {
      var t := Run(s, events.front);
      RunKeeps(s, events.front);
      if t.path.Some? {
        FileComplete(s, events.front);
        StepKeeps(t, events.last);
      }
    }
  }
}
