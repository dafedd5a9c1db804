/**
  The record keeper as it runs: the map, the objects and the directories changed in place, one critical
  section a method. Each is held to its account in Registry. Objects are numbered in the order the
  process made them, and the number stands for the pointer.
*/
module Service {
  import opened Options
  import opened KeyLists
  import opened Registry
  import RegistryRuns
  import Record

  class Service {
    const config: Config
    var up: bool
    var clock: int
    var objects: seq<Object>
    var installs: map<Key, nat>
    var live: map<Key, Dir>
    var retired: map<Key, Dir>
    var makes: nat
    var sweep: Sweep

    function View(): State
      reads this
    {
      State(up, clock, objects, installs, live, retired, makes, sweep)
    }

    /** A process about to start over a state directory. */
    constructor (config: Config, clock: int, live: map<Key, Dir>, retired: map<Key, Dir>, makes: nat)
      ensures this.config == config && View() == State(false, clock, [], map[], live, retired, makes, Resting)
    {
      this.config, this.clock, this.live, this.retired, this.makes := config, clock, live, retired, makes;
      up, objects, installs, sweep := false, [], map[], Resting;
    }

    /** Counts the records under a license, one map entry at a time. */
    method CountAtCap(l: License, except: Option<Key>) returns (full: bool)
      requires Indexed(View())
      ensures full <==> AtCap(config, View(), l, except)
    {
      if l == Unlicensed {
        return false;
      }
      var held: nat, rest: map<Key, nat> := 0, installs;
      while rest != map[]
        invariant forall n :: n in rest ==> rest[n] < |objects|
        invariant held + |Holders(objects, rest, l, except)| == |Holders(objects, installs, l, except)|
        decreases |rest|
      {
        var n :| n in rest;
        OneHolder(objects, rest, n, l, except);
        if Some(n) != except && objects[rest[n]].rec.license == l {
          held := held + 1;
        }
        rest := rest - {n};
      }
      assert Holders(objects, rest, l, except) == {};
      return held >= config.maxInstalls;
    }

    /** The service holds its records soundly: one living object a directory, the cap, nothing half on record. */
    ghost predicate Sound()
      reads this
    {
      RegistryRuns.Inv(config, View())
    }

    /** A sound service stays sound, and its answer is worth what an enrollment's answer should be. */
    method Enroll(r: Request, f: EnrollFates) returns (a: Answer)
      requires Indexed(View())
      modifies this
      ensures Result(View(), a) == Registry.Enroll(config, old(View()), r, f)
      ensures old(Sound()) && old(up) ==> Sound() && RegistryRuns.Worth(config, old(View()), r, Result(View(), a))
    {
      if Sound() && up {
        RegistryRuns.EnrollKeeps(config, View(), r, f);
        RegistryRuns.EnrollOutcome(config, View(), r, f);
      }
      if !r.checks.open {
        return Closed;
      }
      if !r.checks.signed {
        return NotSigned;
      }
      if !r.checks.granted {
        return NotGranted;
      }
      if r.expires != NO_TERM && clock > r.expires {
        return Lapsed;
      }
      if !r.checks.allowed {
        return Limited;
      }
      if r.key in installs {
        a := RenewHeld(r, f);
      } else {
        a := AdmitNew(r, f);
      }
    }

    method RenewHeld(r: Request, f: EnrollFates) returns (a: Answer)
      requires Indexed(View()) && r.key in installs
      modifies this
      ensures Result(View(), a) == Renew(config, old(View()), r, f)
    {
      var i := installs[r.key];
      var rec := objects[i].rec;
      if rec.name != r.name {
        return OtherLabel;
      }
      if LaterTerm(r.expires, rec.expires) {
        if r.license != rec.license {
          var full := CountAtCap(r.license, Some(r.key));
          if full {
            return AtCapacity;
          }
        }
        rec := rec.(license := r.license, expires := r.expires);
        if !f.write || r.key !in live {
          return NotWritten;
        }
        live := live[r.key := live[r.key].(enrollment := Some(rec))];
        objects := objects[i := objects[i].(rec := rec)];
      }
      return Enrolled(rec);
    }

    method AdmitNew(r: Request, f: EnrollFates) returns (a: Answer)
      requires Indexed(View())
      modifies this
      ensures Result(View(), a) == Admit(config, old(View()), r, f)
    {
      var full := CountAtCap(r.license, None);
      if full {
        return AtCapacity;
      }
      if !f.mkdir {
        return NotWritten;
      }
      if r.key !in live {
        live, makes := live[r.key := Dir(makes, None, Record.EMPTY)], makes + 1;
      }
      if !f.write {
        if f.remove && live[r.key].enrollment.None? {
          live := live - {r.key};
        }
        return NotWritten;
      }
      var rec := Enrollment(r.key, r.name, r.license, r.expires, clock);
      live := live[r.key := live[r.key].(enrollment := Some(rec))];
      installs := installs[r.key := |objects|];
      objects := objects + [Object(r.key, live[r.key].made, rec, false)];
      return Enrolled(rec);
    }

    /** deleteRecord: clear what an earlier deletion left, rename, forget, remove. */
    method DeleteRecord(i: nat, f: RetireFates) returns (ok: bool)
      requires i < |objects|
      modifies this
      ensures ok <==> Delete(old(View()), i, f).Some?
      ensures ok ==> View() == Delete(old(View()), i, f).value
      ensures !ok ==> View() == old(View()).(retired := if f.clear || f.cleared then old(retired) - {old(objects[i].key)} else old(retired))
    {
      var key := objects[i].key;
      if f.clear || f.cleared {
        retired := retired - {key};
      }
      if !f.clear || !f.rename || key !in live {
        return false;
      }
      retired := retired[key := live[key]];
      live := live - {key};
      installs := installs - {key};
      objects := objects[i := objects[i].(gone := true)];
      if f.remove {
        retired := retired - {key};
      }
      return true;
    }

    /** retireIfDue once the first look found the record due, and where the sweep goes next. */
    method RetireDue(f: RetireFates) returns (gone: bool)
      requires Indexed(View()) && sweep.Due? && sweep.todo.More?
      modifies this
      ensures View() == Retire(config, old(View()), f)
      ensures gone <==> objects[old(sweep).todo.last].gone
      ensures old(Sound()) && old(up) ==>
                Sound() && forall n :: n in old(live) && n !in live && old(live)[n].enrollment.Some? ==>
                             RetentionEnded(config, old(live)[n].enrollment.value.expires, old(sweep).now)
    {
      if Sound() && up {
        RegistryRuns.RetireKeeps(config, View(), f);
        forall n | n in live && live[n].enrollment.Some? && n !in Retire(config, View(), f).live
          ensures RetentionEnded(config, live[n].enrollment.value.expires, sweep.now)
        {
          RegistryRuns.RetireDue(config, View(), f, n);
        }
      }
      var todo, now := sweep.todo, sweep.now;
      gone := objects[todo.last].gone;
      if !gone && RetentionEnded(config, objects[todo.last].rec.expires, now) {
        gone := DeleteRecord(todo.last, f);
      }
      sweep := if gone then Looking(todo.front, now) else Noting(todo, now);
    }

    /** loadInstalls: finish what was retired, then read each live directory. */
    method LoadInstalls(order: seq<Key>, left: set<Key>) returns (ok: bool)
      requires Lists(order, live)
      modifies this
      ensures View() == Start(old(View()), order, left)
      ensures ok <==> LoadFirst(live, order, |order|).Some?
      ensures old(Sound()) && !old(up) ==> ok && Sound()
    {
      if Sound() && !up {
        RegistryRuns.StartReads(config, View(), order, left);
      }
      retired := map n | n in retired && n in left :: retired[n];
      var loaded := ReadRecords(order);
      if loaded.None? {
        return false;
      }
      up, objects, installs, sweep := true, loaded.value.objects, loaded.value.installs, Resting;
      return true;
    }

    /** Reads every live directory, in the order listed. */
    method ReadRecords(order: seq<Key>) returns (l: Option<Loaded>)
      requires Lists(order, live)
      ensures l == LoadFirst(live, order, |order|)
    {
      var loaded, k := Loaded([], map[]), 0;
      while k < |order|
        invariant 0 <= k <= |order|
        invariant LoadFirst(live, order, k) == Some(loaded)
      {
        var dir := live[order[k]];
        if dir.enrollment.Some? {
          if dir.enrollment.value.key != order[k] {
            LoadStops(live, order, k + 1, |order|);
            return None;
          }
          loaded := Loaded(loaded.objects + [Object(order[k], dir.made, dir.enrollment.value, false)],
                           loaded.installs[order[k] := |loaded.objects|]);
        }
        k := k + 1;
      }
      l := Some(loaded);
    }
  }

  lemma OneHolder(objects: seq<Object>, rest: map<Key, nat>, n: Key, l: License, except: Option<Key>)
    requires n in rest && forall m :: m in rest ==> rest[m] < |objects|
    ensures |rest - {n}| < |rest|
    ensures |Holders(objects, rest, l, except)|
         == |Holders(objects, rest - {n}, l, except)| + if Some(n) != except && objects[rest[n]].rec.license == l then 1 else 0
  {
    var all, others := Holders(objects, rest, l, except), Holders(objects, rest - {n}, l, except);
    assert others == all - {n};
    assert |rest| == |rest.Keys| && |rest - {n}| == |(rest - {n}).Keys|;
    assert (rest - {n}).Keys == rest.Keys - {n};
  }

  /** A record that stops a start stops it whatever follows. */
  lemma {:induction false} LoadStops(live: map<Key, Dir>, order: seq<Key>, k: nat, m: nat)
    requires k <= m <= |order| && Lists(order, live) && LoadFirst(live, order, k).None?
    ensures LoadFirst(live, order, m).None?
  {
    if k < m { LoadStops(live, order, k, m - 1); }
  }
}
