/**
  Every record the witness keeps: enrolling, renewing, pushing, and deleting what outlived its license,
  under two locks and with a crash possible anywhere.

  Each step is one critical section. A section under an install's own lock touches that install's
  directory; one under the service's write lock may touch the map too. A process that dies inside a
  section leaves the disk as some failing write in it would, so a crash is a section with that fate
  followed by Crash. A push holds on to the object it looked up for as long as it likes, so a push may
  arrive through any object the process ever made.
*/
module Registry {
  import opened Options
  import opened SnocLists
  import opened KeyLists
  import Record

  // ---------------------------------------------------------------------------------------------
  // Data
  // ---------------------------------------------------------------------------------------------

  const NO_TERM := 0

  datatype License = Unlicensed | Licensed(id: nat)

  datatype Enrollment = Enrollment(key: Key, name: string, license: License, expires: int, enrolledAt: int)

  /** A record directory. made numbers the directory itself, so a later one of the same name differs. */
  datatype Dir = Dir(made: nat, enrollment: Option<Enrollment>, disk: Record.Disk)

  /** An install object. made is the directory it was created over. */
  datatype Object = Object(key: Key, made: nat, rec: Enrollment, gone: bool)

  /** Where the one sweeping goroutine stands; the last of todo is the install it is at. */
  datatype Sweep =
    | Resting
    | Looking(todo: List<nat>, now: int)
    | Due(todo: List<nat>, now: int)
    | Noting(todo: List<nat>, now: int)

  datatype State = State(up: bool, clock: int, objects: seq<Object>, installs: map<Key, nat>,
                         live: map<Key, Dir>, retired: map<Key, Dir>, makes: nat, sweep: Sweep)

  /** later adds LapseReadOnlyMonths to an instant by the calendar. */
  datatype Config = Config(maxInstalls: nat, later: int -> int)

  /** What is decided of a request outside the locks: enrollment is open, the request is signed by a key born to its label, the policy grants it, the rate limiter allows it. */
  datatype Checks = Checks(open: bool, signed: bool, granted: bool, allowed: bool)

  datatype Request = Request(key: Key, name: string, license: License, expires: int, checks: Checks)

  /** Whether each disk step of an enrollment succeeds. */
  datatype EnrollFates = EnrollFates(mkdir: bool, write: bool, remove: bool)

  /** Whether each disk step of a deletion succeeds; cleared is what a failing removal still removed. */
  datatype RetireFates = RetireFates(clear: bool, cleared: bool, rename: bool, remove: bool)

  datatype Answer = Enrolled(rec: Enrollment) | Closed | NotSigned | NotGranted | Lapsed | Limited | OtherLabel | AtCapacity | NotWritten

  /** The order of terms: no term at all is the top. */
  predicate LaterTerm(a: int, b: int) {
    b != NO_TERM && (a == NO_TERM || a > b)
  }

  /** The instant retention runs out, zero when it never does. */
  function DeleteAfter(c: Config, expires: int): int {
    if expires == NO_TERM then 0 else c.later(expires + Record.LAPSE_GRACE)
  }

  predicate RetentionEnded(c: Config, expires: int, now: int) {
    DeleteAfter(c, expires) != 0 && now > DeleteAfter(c, expires)
  }

  /** Every reference the service holds is to an object it made. */
  ghost predicate Indexed(s: State) {
    && (forall n :: n in s.installs ==> s.installs[n] < |s.objects|)
    && (!s.sweep.Resting? ==> Below(s.sweep.todo, |s.objects|))
  }

  ghost predicate Below(todo: List<nat>, n: nat) {
    todo.End? || (todo.last < n && Below(todo.front, n))
  }

  // ---------------------------------------------------------------------------------------------
  // Enrolling
  // ---------------------------------------------------------------------------------------------

  /** The records licensed under l in memory, leaving out except. */
  function Holders(objects: seq<Object>, installs: map<Key, nat>, l: License, except: Option<Key>): set<Key>
    requires forall n :: n in installs ==> installs[n] < |objects|
  {
    set n | n in installs && Some(n) != except && objects[installs[n]].rec.license == l
  }

  predicate AtCap(c: Config, s: State, l: License, except: Option<Key>)
    requires Indexed(s)
  {
    l != Unlicensed && |Holders(s.objects, s.installs, l, except)| >= c.maxInstalls
  }

  datatype Result = Result(state: State, answer: Answer)

  /** The key is held already: same answer, or a later term recorded. */
  function Renew(c: Config, s: State, r: Request, f: EnrollFates): Result
    requires Indexed(s) && r.key in s.installs
  {
    var i := s.installs[r.key];
    var rec := s.objects[i].rec;
    if rec.name != r.name then Result(s, OtherLabel)
    else if !LaterTerm(r.expires, rec.expires) then Result(s, Enrolled(rec))
    else if r.license != rec.license && AtCap(c, s, r.license, Some(r.key)) then Result(s, AtCapacity)
    else if !f.write || r.key !in s.live then Result(s, NotWritten)
    else
      var renewed := rec.(license := r.license, expires := r.expires);
      Result(s.(objects := s.objects[i := s.objects[i].(rec := renewed)],
                live := s.live[r.key := s.live[r.key].(enrollment := Some(renewed))]),
             Enrolled(renewed))
  }

  /** What is on disk once the directory was made. */
  function Made(s: State, key: Key): State {
    if key in s.live then s else s.(live := s.live[key := Dir(s.makes, None, Record.EMPTY)], makes := s.makes + 1)
  }

  /** The key is new: its directory, its enrollment, and its object. */
  function Admit(c: Config, s: State, r: Request, f: EnrollFates): Result
    requires Indexed(s)
  {
    if AtCap(c, s, r.license, None) then Result(s, AtCapacity)
    else if !f.mkdir then Result(s, NotWritten)
    else
      var made := Made(s, r.key);
      if !f.write then Result(if f.remove && made.live[r.key].enrollment.None? then made.(live := made.live - {r.key}) else made, NotWritten)
      else
        var rec := Enrollment(r.key, r.name, r.license, r.expires, s.clock);
        var dir := made.live[r.key].(enrollment := Some(rec));
        Result(made.(live := made.live[r.key := dir],
                     objects := s.objects + [Object(r.key, dir.made, rec, false)],
                     installs := s.installs[r.key := |s.objects|]),
               Enrolled(rec))
  }

  function Enroll(c: Config, s: State, r: Request, f: EnrollFates): Result
    requires Indexed(s)
  {
    if !r.checks.open then Result(s, Closed)
    else if !r.checks.signed then Result(s, NotSigned)
    else if !r.checks.granted then Result(s, NotGranted)
    else if r.expires != NO_TERM && s.clock > r.expires then Result(s, Lapsed)
    else if !r.checks.allowed then Result(s, Limited)
    else if r.key in s.installs then Renew(c, s, r, f)
    else Admit(c, s, r, f)
  }

  // ---------------------------------------------------------------------------------------------
  // Pushing, sweeping, starting
  // ---------------------------------------------------------------------------------------------

  /** Leaves disk in the directory an object writes to, whatever directory that is by now. */
  function Write(s: State, i: nat, disk: Record.Disk): State
    requires i < |s.objects|
  {
    var key := s.objects[i].key;
    if key !in s.live then s
    else s.(live := s.live[key := s.live[key].(disk := disk)])
  }

  /** A push under the install's lock; disk is the record with whatever of it was written. */
  function Push(s: State, i: nat, name: string, disk: Record.Disk): State
    requires i < |s.objects|
  {
    var o := s.objects[i];
    if o.gone || o.rec.name != name || (o.rec.expires != NO_TERM && s.clock > o.rec.expires + Record.LAPSE_GRACE) then s
    else Write(s, i, disk)
  }

  /** The sweep's first look: it decides whether a second is worth the write lock. */
  function Look(c: Config, s: State): State
    requires Indexed(s) && s.sweep.Looking? && s.sweep.todo.More?
  {
    var i := s.sweep.todo.last;
    s.(sweep := if RetentionEnded(c, s.objects[i].rec.expires, s.sweep.now) then Due(s.sweep.todo, s.sweep.now)
                else Noting(s.sweep.todo, s.sweep.now))
  }

  /** deleteRecord: the rename decides. None is a deletion that did not happen. */
  function Delete(s: State, i: nat, f: RetireFates): (r: Option<State>)
    requires i < |s.objects|
  {
    var key := s.objects[i].key;
    if !f.clear || !f.rename || key !in s.live then None
    else
      Some(s.(live := s.live - {key},
              retired := if f.remove then s.retired - {key} else s.retired[key := s.live[key]],
              installs := s.installs - {key},
              objects := s.objects[i := s.objects[i].(gone := true)]))
  }

  /** The second look, under both locks, and the deletion. */
  function Retire(c: Config, s: State, f: RetireFates): State
    requires Indexed(s) && s.sweep.Due? && s.sweep.todo.More?
  {
    var todo, now := s.sweep.todo, s.sweep.now;
    var o := s.objects[todo.last];
    if o.gone then s.(sweep := Looking(todo.front, now))
    else if !RetentionEnded(c, o.rec.expires, now) then s.(sweep := Noting(todo, now))
    else
      var deleted := Delete(s, todo.last, f);
      if deleted.Some? then deleted.value.(sweep := Looking(todo.front, now))
      else s.(sweep := Noting(todo, now),
              retired := if f.clear || f.cleared then s.retired - {o.key} else s.retired)
  }

  /** The silence note of an install that was not deleted; disk is the record as before when none is due or the write failed. */
  function Note(s: State, disk: Record.Disk): State
    requires Indexed(s) && s.sweep.Noting? && s.sweep.todo.More?
  {
    Write(s, s.sweep.todo.last, disk).(sweep := Looking(s.sweep.todo.front, s.sweep.now))
  }

  datatype Loaded = Loaded(objects: seq<Object>, installs: map<Key, nat>)

  /** The first k directories read at a start. None is a record that stops the start. */
  function LoadFirst(live: map<Key, Dir>, order: seq<Key>, k: nat): (l: Option<Loaded>)
    requires k <= |order| && forall j :: 0 <= j < |order| ==> order[j] in live
    ensures l.Some? ==> forall n :: n in l.value.installs ==> l.value.installs[n] < |l.value.objects|
  {
    if k == 0 then Some(Loaded([], map[]))
    else
      var before := LoadFirst(live, order, k - 1);
      if before.None? then None else LoadOne(before.value, order[k - 1], live[order[k - 1]])
  }

  /** One directory read at a start: skipped with no enrollment, refused when it holds another key. */
  function LoadOne(l: Loaded, key: Key, dir: Dir): Option<Loaded> {
    if dir.enrollment.None? then Some(l)
    else if dir.enrollment.value.key != key then None
    else Some(Loaded(l.objects + [Object(key, dir.made, dir.enrollment.value, false)], l.installs[key := |l.objects|]))
  }

  /** order lists the record directories once each. */
  ghost predicate Lists(order: seq<Key>, live: map<Key, Dir>) {
    && (forall j :: 0 <= j < |order| ==> order[j] in live)
    && (forall i, j :: 0 <= i < j < |order| ==> order[i] != order[j])
    && (forall n :: n in live ==> n in order)
  }

  /** A start: what an earlier deletion left is removed or stays, and only live directories are read. */
  function Start(s: State, order: seq<Key>, left: set<Key>): State
    requires Lists(order, s.live)
  {
    var cleared := s.(retired := map n | n in s.retired && n in left :: s.retired[n]);
    match LoadFirst(s.live, order, |order|)
    case None => cleared
    case Some(l) => cleared.(up := true, objects := l.objects, installs := l.installs, sweep := Resting)
  }

  // ---------------------------------------------------------------------------------------------
  // Runs
  // ---------------------------------------------------------------------------------------------

  datatype Event =
    | Tick(to: int)  // the clock reads to from here on, which may be earlier than before
    | Enrolling(r: Request, ef: EnrollFates)
    | Pushing(i: nat, name: string, disk: Record.Disk)
    | SweepStart(todo: List<nat>)
    | SweepLook
    | SweepRetire(rf: RetireFates)
    | SweepNote(note: Record.Disk)
    | SweepEnd
    | Crash
    | Starting(order: seq<Key>, left: set<Key>)

  ghost predicate Has(todo: List<nat>, i: nat) {
    todo.More? && (todo.last == i || Has(todo.front, i))
  }

  ghost predicate Once(todo: List<nat>) {
    todo.End? || (!Has(todo.front, todo.last) && Once(todo.front))
  }

  /** The sweep's list: mapped installs, each once. */
  ghost predicate InstallList(s: State, todo: List<nat>) {
    && Once(todo) && Below(todo, |s.objects|)
    && forall i :: Has(todo, i) ==> i in s.installs.Values
  }

  /** Records are appended to: what a writer leaves still holds what it found. */
  ghost predicate Keeping(s: State, i: nat, disk: Record.Disk)
    requires i < |s.objects|
  {
    s.objects[i].key in s.live ==> Record.Adds(s.live[s.objects[i].key].disk, disk)
  }

  /** Whether an event can happen here. */
  ghost predicate Enabled(s: State, e: Event) {
    match e
    case Tick(_) => true
    case Enrolling(_, _) => s.up
    case Pushing(i, _, disk) => s.up && i < |s.objects| && Keeping(s, i, disk)
    case SweepStart(todo) => s.up && s.sweep.Resting? && InstallList(s, todo)
    case SweepLook => s.up && s.sweep.Looking? && s.sweep.todo.More?
    case SweepRetire(_) => s.up && s.sweep.Due? && s.sweep.todo.More?
    case SweepNote(disk) => s.up && s.sweep.Noting? && s.sweep.todo.More? && (s.sweep.todo.last < |s.objects| ==> Keeping(s, s.sweep.todo.last, disk))
    case SweepEnd => s.up && s.sweep.Looking? && s.sweep.todo.End?
    case Crash => true
    case Starting(order, _) => !s.up && Lists(order, s.live)
  }

  ghost function Step(c: Config, s: State, e: Event): State
    requires Indexed(s) && Enabled(s, e)
  {
    match e
    case Tick(to) => s.(clock := to)
    case Enrolling(r, f) => Enroll(c, s, r, f).state
    case Pushing(i, name, disk) => Push(s, i, name, disk)
    case SweepStart(todo) => s.(sweep := Looking(todo, s.clock))
    case SweepLook => Look(c, s)
    case SweepRetire(f) => Retire(c, s, f)
    case SweepNote(disk) => Note(s, disk)
    case SweepEnd => s.(sweep := Resting)
    case Crash => s.(up := false, objects := [], installs := map[], sweep := Resting)
    case Starting(order, left) => Start(s, order, left)
  }

  lemma {:induction false} BelowGrows(todo: List<nat>, n: nat, m: nat)
    requires Below(todo, n) && n <= m
    ensures Below(todo, m)
  {
    if todo.More? { BelowGrows(todo.front, n, m); }
  }
}
