/**
  What every run of the record keeper keeps: one living object per directory, the cap per license, and
  nothing deleted early or read again.
*/
module RegistryRuns {
  import opened Options
  import opened SnocLists
  import opened KeyLists
  import opened Registry
  import Record

  // ---------------------------------------------------------------------------------------------
  // The invariant
  // ---------------------------------------------------------------------------------------------

  /** The object and the live directory of its name are one record. */
  ghost predicate Keeps(live: map<Key, Dir>, o: Object) {
    && !o.gone && o.key in live
    && live[o.key].made == o.made && live[o.key].enrollment == Some(o.rec)
  }

  /** Whatever the map holds is a living object over the directory of its name. */
  ghost predicate Tied(s: State) {
    forall n :: n in s.installs ==> s.installs[n] < |s.objects| && s.objects[s.installs[n]].key == n
                                    && Keeps(s.live, s.objects[s.installs[n]])
  }

  /** Whatever lives is in the map. */
  ghost predicate Mapped(s: State) {
    forall i :: 0 <= i < |s.objects| && !s.objects[i].gone ==>
      s.objects[i].key in s.installs && s.installs[s.objects[i].key] == i
  }

  /** A running service holds every record on disk, and a stopped one holds nothing. */
  ghost predicate Complete(s: State) {
    && (s.up ==> forall n :: n in s.live && s.live[n].enrollment.Some? ==> n in s.installs)
    && (!s.up ==> s.objects == [] && s.installs == map[] && s.sweep.Resting?)
  }

  /** A directory is filed under the key it holds, and one with no enrollment holds nothing at all. */
  ghost predicate Filed(live: map<Key, Dir>, makes: nat) {
    forall n :: n in live ==>
      && live[n].made < makes
      && match live[n].enrollment
         case Some(rec) => rec.key == n
         case None => live[n].disk == Record.EMPTY
  }

  /** The records under one license, on disk. */
  function Licensees(live: map<Key, Dir>, l: License): set<Key> {
    set n | n in live && live[n].enrollment.Some? && live[n].enrollment.value.license == l
  }

  ghost predicate Capped(c: Config, live: map<Key, Dir>) {
    forall l: License :: l != Unlicensed ==> |Licensees(live, l)| <= c.maxInstalls
  }

  /** Only the sweep ends an object, so whatever it has still to visit lives. */
  ghost predicate Alive(objects: seq<Object>, todo: List<nat>) {
    todo.More? ==> todo.last < |objects| && !objects[todo.last].gone && Alive(objects, todo.front)
  }

  ghost predicate Sweeping(s: State) {
    s.sweep.Resting? || (Alive(s.objects, s.sweep.todo) && Once(s.sweep.todo))
  }

  ghost predicate Inv(c: Config, s: State) {
    Tied(s) && Mapped(s) && Complete(s) && Filed(s.live, s.makes) && Capped(c, s.live) && Sweeping(s)
  }

  lemma {:induction false} AliveBelow(objects: seq<Object>, todo: List<nat>)
    requires Alive(objects, todo)
    ensures Below(todo, |objects|)
  {
    if todo.More? { AliveBelow(objects, todo.front); }
  }

  lemma InvIndexed(c: Config, s: State)
    requires Inv(c, s)
    ensures Indexed(s)
  {
    if !s.sweep.Resting? { AliveBelow(s.objects, s.sweep.todo); }
  }

  // ---------------------------------------------------------------------------------------------
  // The cap
  // ---------------------------------------------------------------------------------------------

  /** Memory and disk count the same records under a license. */
  lemma HoldersOnDisk(s: State, l: License, except: Option<Key>)
    requires Indexed(s) && Tied(s) && Complete(s) && s.up
    ensures Holders(s.objects, s.installs, l, except) == set n | n in Licensees(s.live, l) && Some(n) != except
  {
    var a, b := Holders(s.objects, s.installs, l, except), set n | n in Licensees(s.live, l) && Some(n) != except;
    forall n | n in b ensures n in a { assert n in s.installs; }
    forall n | n in a ensures n in b { assert Keeps(s.live, s.objects[s.installs[n]]); }
  }

  lemma Fewer(small: set<Key>, large: set<Key>)
    requires small <= large
    ensures |small| <= |large|
  {
    assert large == small + (large - small);
  }

  /** Recording a license for one key keeps the cap when the others under it are fewer. */
  lemma RelicenseCapped(c: Config, live: map<Key, Dir>, key: Key, dir: Dir, others: set<Key>)
    requires Capped(c, live) && dir.enrollment.Some?
    requires var l := dir.enrollment.value.license;
             l != Unlicensed ==> key in Licensees(live, l)
                                 || (|others| < c.maxInstalls && Licensees(live, l) - {key} <= others)
    ensures Capped(c, live[key := dir])
  {
    var next := live[key := dir];
    forall l: License | l != Unlicensed ensures |Licensees(next, l)| <= c.maxInstalls {
      var before, after := Licensees(live, l), Licensees(next, l);
      if l != dir.enrollment.value.license || key in before {
        assert after <= before;
        Fewer(after, before);
      } else {
        assert after <= others + {key};
        Fewer(after, others + {key});
      }
    }
  }

  /** A change that adds no licensee keeps the cap. */
  lemma SameLicensesCapped(c: Config, live: map<Key, Dir>, next: map<Key, Dir>)
    requires Capped(c, live)
    requires forall n :: n in next && next[n].enrollment.Some? ==> n in live && next[n].enrollment == live[n].enrollment
    ensures Capped(c, next)
  {
    forall l: License | l != Unlicensed ensures |Licensees(next, l)| <= c.maxInstalls {
      assert Licensees(next, l) <= Licensees(live, l);
      Fewer(Licensees(next, l), Licensees(live, l));
    }
  }

  // ---------------------------------------------------------------------------------------------
  // Every step
  // ---------------------------------------------------------------------------------------------

  /** Objects that still live after a change of the heap still live for the sweep. */
  lemma {:induction false} StillAlive(before: seq<Object>, after: seq<Object>, todo: List<nat>)
    requires Alive(before, todo) && |before| <= |after|
    requires forall i :: 0 <= i < |before| && Has(todo, i) && !before[i].gone ==> !after[i].gone
    ensures Alive(after, todo)
  {
    if todo.More? {
      assert Has(todo, todo.last);
      forall i | 0 <= i < |before| && Has(todo.front, i) && !before[i].gone ensures !after[i].gone {
        assert Has(todo, i);
      }
      StillAlive(before, after, todo.front);
    }
  }

  lemma RenewKeeps(c: Config, s: State, r: Request, f: EnrollFates)
    requires Inv(c, s) && Indexed(s) && s.up && r.key in s.installs
    ensures Inv(c, Renew(c, s, r, f).state)
  {
    var i := s.installs[r.key];
    var o := s.objects[i];
    assert Keeps(s.live, o);
    var t := Renew(c, s, r, f).state;
    if t != s {
      var dir := t.live[r.key];
      assert t.live == s.live[r.key := dir];
      HoldersOnDisk(s, r.license, Some(r.key));
      var others := Holders(s.objects, s.installs, r.license, Some(r.key));
      assert Licensees(s.live, r.license) - {r.key} <= others;
      RelicenseCapped(c, s.live, r.key, dir, others);
      if !s.sweep.Resting? { StillAlive(s.objects, t.objects, s.sweep.todo); }
      RenewTies(s, t, i, o, t.objects[i].rec, dir);
    }
  }

  /** Changing one living object and its directory alike keeps every tie. */
  lemma RenewTies(s: State, t: State, i: nat, o: Object, rec: Enrollment, dir: Dir)
    requires Tied(s) && Mapped(s) && i < |s.objects| && s.objects[i] == o && !o.gone
    requires t.objects == s.objects[i := o.(rec := rec)] && t.live == s.live[o.key := dir] && t.installs == s.installs
    requires dir.made == o.made && dir.enrollment == Some(rec)
    ensures Tied(t) && Mapped(t)
  {
    forall n | n in t.installs
      ensures t.objects[t.installs[n]].key == n && Keeps(t.live, t.objects[t.installs[n]])
    {
      assert Keeps(s.live, s.objects[s.installs[n]]);
    }
  }

  lemma AdmitKeeps(c: Config, s: State, r: Request, f: EnrollFates)
    requires Inv(c, s) && Indexed(s) && s.up && r.key !in s.installs
    ensures Inv(c, Admit(c, s, r, f).state)
  {
    if !AtCap(c, s, r.license, None) && f.mkdir {
      if f.write {
        AdmittedKeeps(c, s, r, f);
      } else {
        NotAdmittedKeeps(c, s, r, f);
      }
    }
  }

  /** A directory made for a record that could not be written, kept or removed again. */
  lemma NotAdmittedKeeps(c: Config, s: State, r: Request, f: EnrollFates)
    requires Inv(c, s) && Indexed(s) && s.up && r.key !in s.installs
    requires !AtCap(c, s, r.license, None) && f.mkdir && !f.write
    ensures Inv(c, Admit(c, s, r, f).state)
  {
    var t := Admit(c, s, r, f).state;
    assert r.key in s.live ==> s.live[r.key].enrollment.None?;
    SameLicensesCapped(c, s.live, t.live);
    LiveTies(s, t);
  }

  lemma AdmittedKeeps(c: Config, s: State, r: Request, f: EnrollFates)
    requires Inv(c, s) && Indexed(s) && s.up && r.key !in s.installs
    requires !AtCap(c, s, r.license, None) && f.mkdir && f.write
    ensures Inv(c, Admit(c, s, r, f).state)
  {
    var t := Admit(c, s, r, f).state;
    AdmittedShape(c, s, r, f);
    AdmittedCapped(c, s, r, t.live[r.key]);
    if !s.sweep.Resting? { StillAlive(s.objects, t.objects, s.sweep.todo); }
    AdmitTies(s, t, t.objects[|s.objects|]);
  }

  /** What an admission changes: one directory, one object, one entry of the map. */
  lemma AdmittedShape(c: Config, s: State, r: Request, f: EnrollFates)
    requires Indexed(s) && Filed(s.live, s.makes) && !AtCap(c, s, r.license, None) && f.mkdir && f.write
    ensures var t := Admit(c, s, r, f).state;
            && r.key in t.live && t.live == s.live[r.key := t.live[r.key]] && t.live[r.key].made < t.makes && s.makes <= t.makes
            && t.live[r.key].enrollment == Some(Enrollment(r.key, r.name, r.license, r.expires, s.clock))
            && t.objects == s.objects + [Object(r.key, t.live[r.key].made, t.live[r.key].enrollment.value, false)]
            && t.installs == s.installs[r.key := |s.objects|] && t.up == s.up && t.sweep == s.sweep
  {
  }

  lemma AdmittedCapped(c: Config, s: State, r: Request, dir: Dir)
    requires Inv(c, s) && Indexed(s) && s.up && r.key !in s.installs && !AtCap(c, s, r.license, None)
    requires dir.enrollment.Some? && dir.enrollment.value.license == r.license
    ensures Capped(c, s.live[r.key := dir])
  {
    HoldersOnDisk(s, r.license, None);
    var others := Holders(s.objects, s.installs, r.license, None);
    assert Licensees(s.live, r.license) - {r.key} <= others;
    RelicenseCapped(c, s.live, r.key, dir, others);
  }

  lemma AdmitTies(s: State, t: State, o: Object)
    requires Tied(s) && Mapped(s) && o.key !in s.installs
    requires t.objects == s.objects + [o] && t.installs == s.installs[o.key := |s.objects|]
    requires Keeps(t.live, o) && forall n :: n in s.live && n != o.key ==> n in t.live && t.live[n] == s.live[n]
    ensures Tied(t) && Mapped(t)
  {
    forall n | n in t.installs
      ensures t.installs[n] < |t.objects| && t.objects[t.installs[n]].key == n && Keeps(t.live, t.objects[t.installs[n]])
    {
      if n != o.key { assert Keeps(s.live, s.objects[s.installs[n]]); }
    }
  }

  /** A change of directories that leaves every mapped record its directory and enrollment keeps every tie. */
  lemma LiveTies(s: State, t: State)
    requires Tied(s) && Mapped(s) && t.objects == s.objects && t.installs == s.installs
    requires forall n :: n in s.installs && n in s.live ==>
      n in t.live && t.live[n].made == s.live[n].made && t.live[n].enrollment == s.live[n].enrollment
    ensures Tied(t) && Mapped(t)
  {
    forall n | n in t.installs
      ensures t.objects[t.installs[n]].key == n && Keeps(t.live, t.objects[t.installs[n]])
    {
      assert Keeps(s.live, s.objects[s.installs[n]]);
    }
  }

  lemma WriteKeeps(c: Config, s: State, i: nat, disk: Record.Disk)
    requires Inv(c, s) && i < |s.objects| && !s.objects[i].gone
    ensures Inv(c, Write(s, i, disk))
  {
    var t := Write(s, i, disk);
    assert Keeps(s.live, s.objects[s.installs[s.objects[i].key]]);
    SameLicensesCapped(c, s.live, t.live);
    LiveTies(s, t);
  }

  lemma DeleteKeeps(c: Config, s: State, f: RetireFates)
    requires Inv(c, s) && Indexed(s) && s.sweep.Due? && s.sweep.todo.More? && s.up
    requires Delete(s, s.sweep.todo.last, f).Some?
    ensures Inv(c, Delete(s, s.sweep.todo.last, f).value.(sweep := Looking(s.sweep.todo.front, s.sweep.now)))
  {
    var i := s.sweep.todo.last;
    var t := Delete(s, i, f).value.(sweep := Looking(s.sweep.todo.front, s.sweep.now));
    var key := s.objects[i].key;
    SameLicensesCapped(c, s.live, t.live);
    StillAlive(s.objects, t.objects, s.sweep.todo.front);
    DeleteTies(s, t, i);
  }

  lemma DeleteTies(s: State, t: State, i: nat)
    requires Tied(s) && Mapped(s) && i < |s.objects| && !s.objects[i].gone
    requires t.objects == s.objects[i := s.objects[i].(gone := true)]
    requires t.installs == s.installs - {s.objects[i].key} && t.live == s.live - {s.objects[i].key}
    ensures Tied(t) && Mapped(t)
  {
    forall n | n in t.installs
      ensures t.installs[n] < |t.objects| && t.objects[t.installs[n]].key == n && Keeps(t.live, t.objects[t.installs[n]])
    {
      assert Keeps(s.live, s.objects[s.installs[n]]);
    }
  }

  lemma RetireKeeps(c: Config, s: State, f: RetireFates)
    requires Inv(c, s) && Indexed(s) && s.sweep.Due? && s.sweep.todo.More? && s.up
    ensures Inv(c, Retire(c, s, f))
  {
    if Delete(s, s.sweep.todo.last, f).Some? {
      DeleteKeeps(c, s, f);
    }
  }

  lemma NoteKeeps(c: Config, s: State, disk: Record.Disk)
    requires Inv(c, s) && Indexed(s) && s.sweep.Noting? && s.sweep.todo.More? && s.up
    ensures Inv(c, Note(s, disk))
  {
    WriteKeeps(c, s, s.sweep.todo.last, disk);
  }

  // ---------------------------------------------------------------------------------------------
  // Starting
  // ---------------------------------------------------------------------------------------------

  /** What the first k directories read have built. */
  ghost predicate Building(live: map<Key, Dir>, order: seq<Key>, k: nat, l: Loaded)
    requires k <= |order|
  {
    && (forall n :: n in l.installs ==> l.installs[n] < |l.objects| && l.objects[l.installs[n]].key == n)
    && (forall j :: k <= j < |order| ==> order[j] !in l.installs)
    && (forall i :: 0 <= i < |l.objects| ==>
          Keeps(live, l.objects[i]) && l.objects[i].key in l.installs && l.installs[l.objects[i].key] == i)
    && (forall j :: 0 <= j < k ==> order[j] in live && (live[order[j]].enrollment.Some? ==> order[j] in l.installs))
  }

  lemma {:induction false} LoadBuilds(live: map<Key, Dir>, makes: nat, order: seq<Key>, k: nat) returns (l: Loaded)
    requires k <= |order| && Lists(order, live) && Filed(live, makes)
    ensures LoadFirst(live, order, k) == Some(l) && Building(live, order, k, l)
  {
    if k == 0 {
      l := Loaded([], map[]);
    } else {
      var before := LoadBuilds(live, makes, order, k - 1);
      LoadFirstStep(live, order, k, before);
      l := BuildOne(live, makes, order, k - 1, before);
    }
  }

  lemma LoadFirstStep(live: map<Key, Dir>, order: seq<Key>, k: nat, l: Loaded)
    requires 0 < k <= |order| && Lists(order, live) && LoadFirst(live, order, k - 1) == Some(l)
    ensures LoadFirst(live, order, k) == LoadOne(l, order[k - 1], live[order[k - 1]])
  {
  }

  lemma BuildOne(live: map<Key, Dir>, makes: nat, order: seq<Key>, k: nat, l: Loaded) returns (next: Loaded)
    requires k < |order| && Lists(order, live) && Filed(live, makes) && Building(live, order, k, l)
    ensures LoadOne(l, order[k], live[order[k]]) == Some(next) && Building(live, order, k + 1, next)
  {
    next := LoadOne(l, order[k], live[order[k]]).value;
  }

  lemma StartKeeps(c: Config, s: State, order: seq<Key>, left: set<Key>)
    requires Inv(c, s) && !s.up && Lists(order, s.live)
    ensures Inv(c, Start(s, order, left)) && Start(s, order, left).up
  {
    var _ := LoadBuilds(s.live, s.makes, order, |order|);
    var t := Start(s, order, left);
    forall n | n in t.live && t.live[n].enrollment.Some? ensures n in t.installs {
      assert n in order;
    }
  }

  /** A start reads its directories exactly when each is filed under the key it holds. */
  lemma {:induction false} LoadsExactly(live: map<Key, Dir>, order: seq<Key>, k: nat)
    requires k <= |order| && Lists(order, live)
    ensures LoadFirst(live, order, k).Some? <==>
              forall j :: 0 <= j < k && live[order[j]].enrollment.Some? ==> live[order[j]].enrollment.value.key == order[j]
  {
    if k > 0 {
      LoadsExactly(live, order, k - 1);
    }
  }

  lemma StartReads(c: Config, s: State, order: seq<Key>, left: set<Key>)
    requires Inv(c, s) && !s.up && Lists(order, s.live)
    ensures Inv(c, Start(s, order, left)) && LoadFirst(s.live, order, |order|).Some?
  {
    StartKeeps(c, s, order, left);
    var _ := LoadBuilds(s.live, s.makes, order, |order|);
  }

  // ---------------------------------------------------------------------------------------------
  // Every run
  // ---------------------------------------------------------------------------------------------

  lemma {:induction false} ListAlive(s: State, todo: List<nat>)
    requires Tied(s) && InstallList(s, todo)
    ensures Alive(s.objects, todo)
  {
    if todo.More? {
      assert Has(todo, todo.last);
      var n :| n in s.installs && s.installs[n] == todo.last;
      assert Keeps(s.live, s.objects[s.installs[n]]);
      forall i | Has(todo.front, i) ensures i in s.installs.Values { assert Has(todo, i); }
      ListAlive(s, todo.front);
    }
  }

  lemma EnrollKeeps(c: Config, s: State, r: Request, f: EnrollFates)
    requires Inv(c, s) && Indexed(s) && s.up
    ensures Inv(c, Enroll(c, s, r, f).state)
  {
    if r.key in s.installs { RenewKeeps(c, s, r, f); } else { AdmitKeeps(c, s, r, f); }
  }

  lemma PushKeeps(c: Config, s: State, i: nat, name: string, disk: Record.Disk)
    requires Inv(c, s) && i < |s.objects|
    ensures Inv(c, Push(s, i, name, disk))
  {
    if !s.objects[i].gone { WriteKeeps(c, s, i, disk); }
  }

  lemma StepKeeps(c: Config, s: State, e: Event)
    requires Inv(c, s) && Indexed(s) && Enabled(s, e)
    ensures Inv(c, Step(c, s, e))
  {
    match e
    case Tick(to) =>
    case Enrolling(r, f) => EnrollKeeps(c, s, r, f);
    case Pushing(i, name, disk) => PushKeeps(c, s, i, name, disk);
    case SweepStart(todo) => ListAlive(s, todo);
    case SweepLook =>
    case SweepRetire(f) => RetireKeeps(c, s, f);
    case SweepNote(disk) => NoteKeeps(c, s, disk);
    case SweepEnd =>
    case Crash =>
    case Starting(order, left) => StartKeeps(c, s, order, left);
  }

  /** The events, in this order, lead from s to t. */
  ghost predicate Leads(c: Config, s: State, events: List<Event>, t: State) {
    match events
    case End => s == t
    case More(front, e) => exists m :: Leads(c, s, front, m) && Indexed(m) && Enabled(m, e) && t == Step(c, m, e)
  }

  lemma {:induction false} RunKeeps(c: Config, s: State, events: List<Event>, t: State)
    requires Inv(c, s) && Leads(c, s, events, t)
    ensures Inv(c, t)
  {
    if events.More? {
      var m :| Leads(c, s, events.front, m) && Indexed(m) && Enabled(m, events.last) && t == Step(c, m, events.last);
      RunKeeps(c, s, events.front, m);
      StepKeeps(c, m, events.last);
    }
  }

  /** A witness that never started, over an empty state directory. */
  function Empty(clock: int): State {
    State(false, clock, [], map[], map[], map[], 0, Resting)
  }

  ghost predicate Reachable(c: Config, s: State) {
    exists clock, events :: Leads(c, Empty(clock), events, s)
  }

  lemma EmptyKeeps(c: Config, clock: int)
    ensures Inv(c, Empty(clock))
  {
    var s := Empty(clock);
    forall l: License | l != Unlicensed ensures |Licensees(s.live, l)| <= c.maxInstalls {
      assert Licensees(s.live, l) == {};
    }
  }

  lemma ReachableKeeps(c: Config, s: State)
    requires Reachable(c, s)
    ensures Inv(c, s) && Indexed(s)
  {
    var clock, events :| Leads(c, Empty(clock), events, s);
    EmptyKeeps(c, clock);
    RunKeeps(c, Empty(clock), events, s);
    InvIndexed(c, s);
  }

  /** Two living objects never share a directory, and the one that lives is the one a lookup finds. */
  lemma OneKeeper(c: Config, s: State, i: nat, j: nat)
    requires Reachable(c, s) && i < |s.objects| && j < |s.objects|
    requires s.objects[i].key == s.objects[j].key && !s.objects[i].gone && !s.objects[j].gone
    ensures i == j && s.objects[i].key in s.installs && s.installs[s.objects[i].key] == i && Keeps(s.live, s.objects[i])
  {
    ReachableKeeps(c, s);
    assert Keeps(s.live, s.objects[s.installs[s.objects[i].key]]);
  }

  /** No license ever holds more records than one may, renewals that move a record included. */
  lemma CapHolds(c: Config, s: State, l: License)
    requires Reachable(c, s) && Indexed(s) && l != Unlicensed
    ensures |Licensees(s.live, l)| <= c.maxInstalls
    ensures |Holders(s.objects, s.installs, l, None)| <= c.maxInstalls
  {
    ReachableKeeps(c, s);
    if s.up {
      HoldersOnDisk(s, l, None);
      assert Holders(s.objects, s.installs, l, None) == Licensees(s.live, l);
    } else {
      assert Holders(s.objects, s.installs, l, None) == {};
    }
  }

  /** No state the witness leaves on disk stops its next start, and the start finds every record. */
  lemma StartsAgain(c: Config, s: State, order: seq<Key>, left: set<Key>)
    requires Reachable(c, s) && !s.up && Lists(order, s.live)
    ensures var t := Start(s, order, left);
            && t.up && t.live == s.live && t.clock == s.clock && t.sweep == Resting
            && (forall n :: n in t.retired <==> n in s.retired && n in left)
            && (forall n :: n in t.installs <==> n in s.live && s.live[n].enrollment.Some?)
            && (forall n :: n in t.installs ==> t.installs[n] < |t.objects| && t.objects[t.installs[n]].rec == s.live[n].enrollment.value)
  {
    ReachableKeeps(c, s);
    StartKeeps(c, s, order, left);
    var t := Start(s, order, left);
    forall n | n in t.installs ensures Keeps(s.live, t.objects[t.installs[n]]) {}
  }

  /** The object a step acts through. */
  function Actor(s: State, e: Event): Option<nat> {
    match e
    case Enrolling(r, _) => if r.key in s.installs then Some(s.installs[r.key]) else None
    case Pushing(i, _, _) => Some(i)
    case SweepRetire(_) => if !s.sweep.Resting? && s.sweep.todo.More? then Some(s.sweep.todo.last) else None
    case SweepNote(_) => if !s.sweep.Resting? && s.sweep.todo.More? then Some(s.sweep.todo.last) else None
    case _ => None
  }

  /**
    A record changes only through the living object the map holds for it, over the very directory that
    object was made for: a push that looked its install up before a deletion writes nothing into the
    directory a fresh enrollment of the same key now holds.
  */
  lemma OnlyTheKeeperWrites(c: Config, s: State, e: Event, n: Key)
    requires Reachable(c, s) && Indexed(s) && Enabled(s, e) && n in s.live && s.live[n].enrollment.Some?
    requires var t := Step(c, s, e); n !in t.live || t.live[n] != s.live[n]
    ensures n in s.installs && Actor(s, e) == Some(s.installs[n])
    ensures s.installs[n] < |s.objects| && Keeps(s.live, s.objects[s.installs[n]])
  {
    ReachableKeeps(c, s);
    assert Keeps(s.live, s.objects[s.installs[n]]);
    if Actor(s, e) != Some(s.installs[n]) {
      Untouched(c, s, e, n);
    }
  }

  lemma Untouched(c: Config, s: State, e: Event, n: Key)
    requires Mapped(s) && Sweeping(s) && Indexed(s) && Enabled(s, e) && n in s.installs && n in s.live
    requires Actor(s, e) != Some(s.installs[n])
    ensures var t := Step(c, s, e); n in t.live && t.live[n] == s.live[n]
  {
    match e
    case Enrolling(r, f) => EnrollTouches(c, s, r, f, n);
    case Pushing(i, name, disk) => OtherObject(s, i, n);
    case SweepRetire(f) => OtherObject(s, s.sweep.todo.last, n);
    case SweepNote(disk) => OtherObject(s, s.sweep.todo.last, n);
    case _ =>
  }

  /** An object that is not the one mapped for n is gone or of another key. */
  lemma OtherObject(s: State, i: nat, n: Key)
    requires Mapped(s) && i < |s.objects| && n in s.installs && i != s.installs[n]
    ensures s.objects[i].gone || s.objects[i].key != n
  {
  }

  /** An enrollment changes no record but the one of its own key. */
  lemma EnrollTouches(c: Config, s: State, r: Request, f: EnrollFates, n: Key)
    requires Indexed(s) && n in s.installs && n in s.live && n != r.key
    ensures var t := Enroll(c, s, r, f).state; n in t.live && t.live[n] == s.live[n]
  {
  }

  /** What a record keeps for as long as it is held. */
  ghost predicate Grown(before: Dir, after: Dir) {
    && before.enrollment.Some? && after.enrollment.Some? && before.made == after.made
    && Record.Adds(before.disk, after.disk)
    && var a, b := before.enrollment.value, after.enrollment.value;
       && a.key == b.key && a.name == b.name && a.enrolledAt == b.enrolledAt
       && (a.expires == b.expires || LaterTerm(b.expires, a.expires))
  }

  /** One step keeps a record and only adds to it, or deletes it after its current term, grace and year. */
  lemma KeptOrDue(c: Config, s: State, e: Event, n: Key)
    requires Inv(c, s) && Indexed(s) && Enabled(s, e) && n in s.live && s.live[n].enrollment.Some?
    ensures var t := Step(c, s, e);
            if n in t.live then Grown(s.live[n], t.live[n])
            else e.SweepRetire? && RetentionEnded(c, s.live[n].enrollment.value.expires, s.sweep.now)
  {
    match e
    case Enrolling(r, f) => EnrollGrows(c, s, r, f, n);
    case Pushing(i, name, disk) => WriteGrows(s, i, disk, n);
    case SweepRetire(f) => RetireDue(c, s, f, n);
    case SweepNote(disk) => WriteGrows(s, s.sweep.todo.last, disk, n);
    case _ =>
  }

  lemma WriteGrows(s: State, i: nat, disk: Record.Disk, n: Key)
    requires i < |s.objects| && n in s.live && s.live[n].enrollment.Some? && Keeping(s, i, disk)
    ensures var t := Write(s, i, disk); n in t.live && Grown(s.live[n], t.live[n])
  {
  }

  lemma RetireDue(c: Config, s: State, f: RetireFates, n: Key)
    requires Inv(c, s) && Indexed(s) && s.up && s.sweep.Due? && s.sweep.todo.More?
    requires n in s.live && s.live[n].enrollment.Some?
    ensures var t := Retire(c, s, f);
            if n in t.live then Grown(s.live[n], t.live[n])
            else RetentionEnded(c, s.live[n].enrollment.value.expires, s.sweep.now)
  {
    assert Keeps(s.live, s.objects[s.installs[n]]);
  }

  lemma EnrollGrows(c: Config, s: State, r: Request, f: EnrollFates, n: Key)
    requires Inv(c, s) && Indexed(s) && s.up && n in s.live && s.live[n].enrollment.Some?
    ensures var t := Enroll(c, s, r, f).state; n in t.live && Grown(s.live[n], t.live[n])
  {
    if n != r.key {
      EnrollTouches(c, s, r, f, n);
    } else {
      RenewGrows(c, s, r, f);
    }
  }

  lemma RenewGrows(c: Config, s: State, r: Request, f: EnrollFates)
    requires Tied(s) && Indexed(s) && r.key in s.installs
    ensures r.key in s.live && s.live[r.key].enrollment.Some?
    ensures var t := Renew(c, s, r, f).state; r.key in t.live && Grown(s.live[r.key], t.live[r.key])
  {
    assert Keeps(s.live, s.objects[s.installs[r.key]]);
  }

  /**
    Deletion, as a state sees it. A record with no term is never deleted, and one with a term not before
    thirty days and the read-only months after that term have passed on the clock the sweep read.
  */
  lemma NothingDeletedEarly(c: Config, s: State, e: Event, n: Key)
    requires Reachable(c, s) && Indexed(s) && Enabled(s, e) && n in s.live && s.live[n].enrollment.Some?
    ensures n !in Step(c, s, e).live ==>
              var expires := s.live[n].enrollment.value.expires;
              e.SweepRetire? && expires != NO_TERM && s.sweep.now > c.later(expires + 30 * 24 * 3600)
  {
    ReachableKeeps(c, s);
    KeptOrDue(c, s, e, n);
  }

  /**
    And deletion, exactly: of the record the sweep is at with both locks, when it is overdue, what an earlier
    deletion left is cleared and the rename is made. Then its map entry goes and its object is marked gone, and
    otherwise neither is touched.
  */
  lemma DueIsDeleted(c: Config, s: State, f: RetireFates)
    requires Inv(c, s) && Indexed(s) && Enabled(s, SweepRetire(f))
    ensures var o := s.objects[s.sweep.todo.last];
            var t := Retire(c, s, f);
            && o.key in s.live && !o.gone
            && (o.key !in t.live <==> Overdue(c, o, s.sweep.now) && f.clear && f.rename)
            && (o.key !in t.live <==> t.objects[s.sweep.todo.last].gone)
            && (o.key !in t.live <==> o.key !in t.installs)
            && (o.key in t.live ==> t.live == s.live && t.installs == s.installs && t.objects == s.objects)
  {
    assert Keeps(s.live, s.objects[s.installs[s.objects[s.sweep.todo.last].key]]);
  }

  /** A push of a deleted record, under another label, or past the grace, writes nothing; any other leaves what it was given to leave. */
  lemma PushWrites(s: State, i: nat, name: string, disk: Record.Disk)
    requires i < |s.objects| && s.objects[i].key in s.live
    ensures var o, t := s.objects[i], Push(s, i, name, disk);
            if o.gone || o.rec.name != name || (o.rec.expires != NO_TERM && s.clock > o.rec.expires + 30 * 24 * 3600)
            then t == s
            else t == s.(live := s.live[o.key := s.live[o.key].(disk := disk)])
  {
  }

  /** What a deletion leaves beside the live directories: nothing, or the whole old one for the next start to finish; other names are not touched. */
  lemma DeletionLeaves(c: Config, s: State, f: RetireFates, n: Key)
    requires Indexed(s) && s.sweep.Due? && s.sweep.todo.More?
    ensures var key, t := s.objects[s.sweep.todo.last].key, Retire(c, s, f);
            && (n != key ==> (n in t.retired <==> n in s.retired) && (n in t.retired ==> t.retired[n] == s.retired[n]))
            && (key in s.live && key !in t.live ==> if f.remove then key !in t.retired else key in t.retired && t.retired[key] == s.live[key])
            && (key in t.live ==>
                  && (key in t.retired ==> key in s.retired && t.retired[key] == s.retired[key])
                  && (key in s.retired && key !in t.retired ==> f.clear || f.cleared)
                  && (Overdue(c, s.objects[s.sweep.todo.last], s.sweep.now) && !s.objects[s.sweep.todo.last].gone && (f.clear || f.cleared) ==> key !in t.retired))
  {
  }

  /** A record whose retention has run out. */
  ghost predicate Overdue(c: Config, o: Object, now: int) {
    o.rec.expires != NO_TERM && c.later(o.rec.expires + 30 * 24 * 3600) != 0 && now > c.later(o.rec.expires + 30 * 24 * 3600)
  }

  /**
    How the sweep goes through its list: a record that is not overdue at the first look, or at the second,
    or that the disk would not let go, is looked at for silence; a deleted one is not; then comes the next.
    The time it reads stays the one it began with.
  */
  lemma SweepMoves(c: Config, s: State, f: RetireFates, disk: Record.Disk)
    requires Indexed(s) && !s.sweep.Resting? && s.sweep.todo.More?
    ensures var o, todo, now := s.objects[s.sweep.todo.last], s.sweep.todo, s.sweep.now;
            && (s.sweep.Looking? ==> Look(c, s) == s.(sweep := if Overdue(c, o, now) then Due(todo, now) else Noting(todo, now)))
            && (s.sweep.Due? ==> Retire(c, s, f).sweep == if Retire(c, s, f).objects[todo.last].gone then Looking(todo.front, now) else Noting(todo, now))
            && (s.sweep.Noting? ==> Note(s, disk).sweep == Looking(todo.front, now) && Note(s, disk).objects == s.objects)
  {
  }

  /** The order of terms is total, by date, with no term at the top. */
  lemma TermsOrdered(a: int, b: int)
    ensures a != NO_TERM && b != NO_TERM ==> (LaterTerm(a, b) <==> a > b)
    ensures a != NO_TERM ==> LaterTerm(NO_TERM, a)
    ensures !LaterTerm(a, NO_TERM)
  {
  }

  /** An admission that could not be written leaves no record: the directory made for it is removed, or stays with nothing in it. */
  lemma NotWrittenLeaves(c: Config, s: State, r: Request, f: EnrollFates)
    requires Inv(c, s) && Indexed(s) && s.up && r.key !in s.installs && Admit(c, s, r, f).answer.NotWritten?
    ensures var t := Admit(c, s, r, f).state;
            && (!f.mkdir ==> t == s)
            && (f.mkdir && f.remove ==> r.key !in t.live)
            && (f.mkdir && !f.remove ==> r.key in t.live && t.live[r.key].enrollment.None? && t.live[r.key].disk == Record.EMPTY)
            && forall n :: n != r.key ==> (n in t.live <==> n in s.live) && (n in t.live ==> t.live[n] == s.live[n])
  {
    assert r.key in s.live ==> s.live[r.key].enrollment.None?;
  }

  lemma StepNumbers(c: Config, s: State, e: Event)
    requires Indexed(s) && Enabled(s, e)
    ensures s.makes <= Step(c, s, e).makes
  {
  }

  lemma GrownTransitive(a: Dir, b: Dir, d: Dir)
    requires Grown(a, b) && Grown(b, d)
    ensures Grown(a, d)
  {
    BeginsTransitive(a.disk.heads, b.disk.heads, d.disk.heads);
    BeginsTransitive(a.disk.findings, b.disk.findings, d.disk.findings);
  }

  /** The live directory of this name, if any, is not the one numbered made. */
  ghost predicate Absent(live: map<Key, Dir>, n: Key, made: nat) {
    n in live ==> live[n].made != made
  }

  lemma AbsentStays(c: Config, s: State, e: Event, n: Key, made: nat)
    requires Indexed(s) && Enabled(s, e) && made < s.makes && Absent(s.live, n, made)
    ensures Absent(Step(c, s, e).live, n, made)
  {
    if e.Enrolling? {
      EnrollAbsent(c, s, e.r, e.ef, n, made);
    }
  }

  lemma EnrollAbsent(c: Config, s: State, r: Request, f: EnrollFates, n: Key, made: nat)
    requires Indexed(s) && made < s.makes && Absent(s.live, n, made)
    ensures Absent(Enroll(c, s, r, f).state.live, n, made)
  {
  }

  /** A directory that left the live ones never returns, and no living object stands over it. */
  lemma {:induction false} AbsentForGood(c: Config, s: State, events: List<Event>, t: State, n: Key, made: nat)
    requires Inv(c, s) && Leads(c, s, events, t) && made < s.makes && Absent(s.live, n, made)
    ensures made < t.makes && Absent(t.live, n, made)
    ensures forall i :: 0 <= i < |t.objects| && t.objects[i].key == n && t.objects[i].made == made ==> t.objects[i].gone
  {
    if events.More? {
      var e := events.last;
      var m :| Leads(c, s, events.front, m) && Indexed(m) && Enabled(m, e) && t == Step(c, m, e);
      AbsentForGood(c, s, events.front, m, n, made);
      AbsentStays(c, m, e, n, made);
      StepNumbers(c, m, e);
    }
    RunKeeps(c, s, events, t);
    forall i | 0 <= i < |t.objects| && t.objects[i].key == n && !t.objects[i].gone ensures t.objects[i].made != made {
      assert Keeps(t.live, t.objects[t.installs[n]]);
    }
  }

  /**
    Somewhere in the run the sweep took the record held at n, everything it had gathered by then
    included, when the term it held by then, its grace and its read-only months had passed.
  */
  ghost predicate DeletedDue(c: Config, s: State, events: List<Event>, n: Key)
    requires n in s.live
  {
    events.More? && (DeletedDue(c, s, events.front, n) || exists m :: TakenDue(c, s, events.front, m, events.last, n))
  }

  /** m is where the events lead, and e takes the record there. */
  ghost predicate TakenDue(c: Config, s: State, events: List<Event>, m: State, e: Event, n: Key)
    requires n in s.live
  {
    && Leads(c, s, events, m) && Indexed(m) && Enabled(m, e) && e.SweepRetire?
    && n in m.live && Grown(s.live[n], m.live[n]) && n !in Step(c, m, e).live
    && RetentionEnded(c, m.live[n].enrollment.value.expires, m.sweep.now)
  }

  lemma {:induction false} KeptOrDeletedDue(c: Config, s: State, events: List<Event>, t: State, n: Key)
    requires Inv(c, s) && Leads(c, s, events, t) && n in s.live && s.live[n].enrollment.Some?
    ensures (n in t.live && Grown(s.live[n], t.live[n])) || DeletedDue(c, s, events, n)
  {
    if events.More? {
      var e := events.last;
      var m :| Leads(c, s, events.front, m) && Indexed(m) && Enabled(m, e) && t == Step(c, m, e);
      KeptOrDeletedDue(c, s, events.front, m, n);
      if !DeletedDue(c, s, events.front, n) {
        RunKeeps(c, s, events.front, m);
        KeptOrDue(c, m, e, n);
        if n in t.live {
          GrownTransitive(s.live[n], m.live[n], t.live[n]);
        } else {
          assert TakenDue(c, s, events.front, m, e, n);
        }
      }
    }
  }

  /** The events lead from one state to one state. */
  lemma {:induction false} LeadsOnce(c: Config, s: State, events: List<Event>, t: State, u: State)
    requires Leads(c, s, events, t) && Leads(c, s, events, u)
    ensures t == u
  {
    if events.More? {
      var m :| Leads(c, s, events.front, m) && Indexed(m) && Enabled(m, events.last) && t == Step(c, m, events.last);
      var k :| Leads(c, s, events.front, k) && Indexed(k) && Enabled(k, events.last) && u == Step(c, k, events.last);
      LeadsOnce(c, s, events.front, m, k);
    }
  }

  lemma {:induction false} DeletedIsAbsent(c: Config, s: State, events: List<Event>, t: State, n: Key)
    requires Inv(c, s) && Leads(c, s, events, t) && n in s.live && DeletedDue(c, s, events, n)
    ensures Absent(t.live, n, s.live[n].made) && s.live[n].made < t.makes
  {
    var e := events.last;
    var m :| Leads(c, s, events.front, m) && Indexed(m) && Enabled(m, e) && t == Step(c, m, e);
    if DeletedDue(c, s, events.front, n) {
      DeletedIsAbsent(c, s, events.front, m, n);
      AbsentStays(c, m, e, n, s.live[n].made);
    } else {
      var k :| TakenDue(c, s, events.front, k, e, n);
      LeadsOnce(c, s, events.front, m, k);
      RunKeeps(c, s, events.front, m);
    }
    StepNumbers(c, m, e);
  }

  /**
    A record's whole life, over any run, crashes, restarts, renewals and a clock that steps either way
    included. It is held, the same directory under the same key and label, its term never moved earlier
    and nothing written to it lost, exactly until the sweep takes it with its then-current term, grace
    and read-only months all passed. While the directory stands, all of that holds whatever happened.
  */
  lemma RecordSurvives(c: Config, s: State, events: List<Event>, t: State, n: Key)
    requires Inv(c, s) && Leads(c, s, events, t) && n in s.live && s.live[n].enrollment.Some?
    ensures n in t.live && Grown(s.live[n], t.live[n]) <==> !DeletedDue(c, s, events, n)
    ensures n in t.live && t.live[n].made == s.live[n].made ==> Grown(s.live[n], t.live[n])
  {
    KeptOrDeletedDue(c, s, events, t, n);
    if DeletedDue(c, s, events, n) {
      DeletedIsAbsent(c, s, events, t, n);
    }
  }

  /**
    A deletion is final. Once the sweep took a record's directory, no later state holds it live, no start
    reads it, and no living object stands over it, whatever of it a failed removal left on disk.
  */
  lemma RetiredNeverReadAgain(c: Config, s: State, f: RetireFates, n: Key, events: List<Event>, t: State)
    requires Reachable(c, s) && Indexed(s) && Enabled(s, SweepRetire(f)) && n in s.live
    requires Leads(c, Retire(c, s, f), events, t)
    ensures n !in Retire(c, s, f).live ==>
              && (n in t.live ==> t.live[n].made != s.live[n].made)
              && forall i :: 0 <= i < |t.objects| && t.objects[i].key == n && t.objects[i].made == s.live[n].made ==> t.objects[i].gone
  {
    ReachableKeeps(c, s);
    RetireKeeps(c, s, f);
    if n !in Retire(c, s, f).live {
      AbsentForGood(c, Retire(c, s, f), events, t, n, s.live[n].made);
    }
  }

  /** A key the witness does not hold enrolls into an empty memory, whatever crash or deletion came before. */
  lemma FreshMemory(c: Config, s: State, r: Request, f: EnrollFates)
    requires Reachable(c, s) && Indexed(s) && s.up && r.key !in s.installs
    requires Enroll(c, s, r, f).answer.Enrolled?
    ensures var t := Enroll(c, s, r, f).state;
            r.key in t.live && t.live[r.key].disk == Record.EMPTY && t.live[r.key].enrollment == Some(Enroll(c, s, r, f).answer.rec)
  {
    ReachableKeeps(c, s);
  }

  /** No record on disk or in memory differs. */
  ghost predicate SameRecords(s: State, t: State) {
    && s.objects == t.objects && s.installs == t.installs
    && (forall n :: n in s.live && s.live[n].enrollment.Some? ==> n in t.live && t.live[n] == s.live[n])
    && (forall n :: n in t.live && t.live[n].enrollment.Some? ==> n in s.live && t.live[n] == s.live[n])
  }

  /**
    What an enrollment's answer is worth. An admitted key is on record under its own key and label with
    a term no earlier than the one it brought: the answer it had before, or the entitlement it brought.
    Any other answer leaves every record as it was and names its cause.
  */
  /** The request passed everything asked of it before the locks. */
  ghost predicate Welcome(s: State, r: Request) {
    && r.checks.open && r.checks.signed && r.checks.granted && r.checks.allowed
    && (r.expires == NO_TERM || s.clock <= r.expires)
  }

  /** The license has room for the key's record beside the others under it. */
  ghost predicate Room(c: Config, s: State, r: Request) {
    r.license == Unlicensed || |Licensees(s.live, r.license) - {r.key}| < c.maxInstalls
  }

  ghost predicate Worth(c: Config, s: State, r: Request, o: Result) {
    match o.answer
    case Enrolled(rec) =>
      && r.key in o.state.installs && r.key in o.state.live && o.state.live[r.key].enrollment == Some(rec)
      && Welcome(s, r)
      && rec.key == r.key && rec.name == r.name && !LaterTerm(r.expires, rec.expires)
      && ((rec.expires == r.expires && rec.license == r.license)
          || (r.key in s.live && s.live[r.key].enrollment == Some(rec) && o.state == s))
    case OtherLabel => o.state == s && r.key in s.live && s.live[r.key].enrollment.Some? && s.live[r.key].enrollment.value.name != r.name
    case AtCapacity => o.state == s && r.license != Unlicensed && |Licensees(s.live, r.license) - {r.key}| >= c.maxInstalls
    case Lapsed => o.state == s && r.expires != NO_TERM && s.clock > r.expires
    case Closed => o.state == s && !r.checks.open
    case NotSigned => o.state == s && !r.checks.signed
    case NotGranted => o.state == s && !r.checks.granted
    case Limited => o.state == s && !r.checks.allowed
    case NotWritten => SameRecords(s, o.state)
  }

  lemma EnrollOutcome(c: Config, s: State, r: Request, f: EnrollFates)
    requires Inv(c, s) && Indexed(s) && s.up
    ensures Worth(c, s, r, Enroll(c, s, r, f))
  {
    if Welcome(s, r) {
      if r.key in s.installs { RenewOutcome(c, s, r, f); } else { AdmitOutcome(c, s, r, f); }
    }
  }

  lemma RenewOutcome(c: Config, s: State, r: Request, f: EnrollFates)
    requires Tied(s) && Complete(s) && Filed(s.live, s.makes) && Indexed(s) && s.up && r.key in s.installs && Welcome(s, r)
    ensures Worth(c, s, r, Renew(c, s, r, f))
  {
    assert Keeps(s.live, s.objects[s.installs[r.key]]);
    OthersThanHold(s, r.license, r.key);
    RenewWorth(c, s, r, f, s.objects[s.installs[r.key]]);
  }

  /** Nothing is answered before it is written: an enrollment that changes anything was written first, and a renewal that could not be changes nothing. */
  lemma EnrolledWasWritten(c: Config, s: State, r: Request, f: EnrollFates)
    requires Inv(c, s) && Indexed(s) && s.up
    ensures var o := Enroll(c, s, r, f);
            && (o.answer.Enrolled? && o.state != s ==> f.write)
            && (r.key in s.installs && !f.write ==> o.state == s)
            && (r.key !in s.installs && o.answer.Enrolled? ==> f.mkdir && f.write)
  {
  }

  /**
    When an enrollment succeeds. A welcome request whose writes work is enrolled if and only if its key is
    new and the license has room, or its key is held under that label and the term is no later, the
    license the same, or there is room.
  */
  lemma EnrolledExactly(c: Config, s: State, r: Request, f: EnrollFates)
    requires Inv(c, s) && Indexed(s) && s.up && Welcome(s, r) && f.mkdir && f.write
    ensures Enroll(c, s, r, f).answer.Enrolled? <==>
              if r.key in s.live && s.live[r.key].enrollment.Some?
              then var held := s.live[r.key].enrollment.value;
                   && held.name == r.name
                   && (!LaterTerm(r.expires, held.expires) || held.license == r.license || Room(c, s, r))
              else Room(c, s, r)
  {
    if r.key in s.installs {
      assert Keeps(s.live, s.objects[s.installs[r.key]]);
      OthersThanHold(s, r.license, r.key);
    } else {
      OthersHold(s, r.license, r.key);
    }
  }

  lemma RenewWorth(c: Config, s: State, r: Request, f: EnrollFates, o: Object)
    requires Indexed(s) && r.key in s.installs && o == s.objects[s.installs[r.key]] && Welcome(s, r)
    requires o.key == r.key == o.rec.key && Keeps(s.live, o)
    requires Holders(s.objects, s.installs, r.license, Some(r.key)) == Licensees(s.live, r.license) - {r.key}
    ensures Worth(c, s, r, Renew(c, s, r, f))
  {
  }

  lemma OthersThanHold(s: State, l: License, key: Key)
    requires Indexed(s) && Tied(s) && Complete(s) && s.up
    ensures Holders(s.objects, s.installs, l, Some(key)) == Licensees(s.live, l) - {key}
  {
    HoldersOnDisk(s, l, Some(key));
  }

  lemma AdmitOutcome(c: Config, s: State, r: Request, f: EnrollFates)
    requires Tied(s) && Complete(s) && Indexed(s) && s.up && r.key !in s.installs && Welcome(s, r)
    ensures Worth(c, s, r, Admit(c, s, r, f))
  {
    assert r.key in s.live ==> s.live[r.key].enrollment.None?;
    if AtCap(c, s, r.license, None) {
      OthersHold(s, r.license, r.key);
    }
  }

  /** A key that is not on record is not among its license's records. */
  lemma OthersHold(s: State, l: License, key: Key)
    requires Indexed(s) && Tied(s) && Complete(s) && s.up && key !in s.installs
    ensures Holders(s.objects, s.installs, l, None) == Licensees(s.live, l) - {key}
  {
    HoldersOnDisk(s, l, None);
    assert key !in Licensees(s.live, l);
  }
}
