/**
  The rate limiter: a token bucket per key that keeps one instant, the time the key's budget is whole
  again. Times and intervals are whole units of one clock.
*/
module Limiter {
  import opened Options
  import opened SnocLists

  const LIMITER_PRUNE := 4096

  datatype Limits = Limits(burst: int, every: int)

  ghost predicate Sane(l: Limits) {
    l.burst >= 1 && l.every > 0
  }

  /** The kept instant as now reads it: never before now, and now itself for a key nothing is kept of. */
  function Whole(full: Option<int>, now: int): int {
    if full.None? || full.value < now then now else full.value
  }

  predicate Admits(l: Limits, full: Option<int>, now: int) {
    Whole(full, now) - now <= (l.burst - 1) * l.every
  }

  /** What is kept of a key after a request at now: a refusal spends nothing. */
  function Spend(l: Limits, full: Option<int>, now: int): Option<int> {
    if Admits(l, full, now) then Some(Whole(full, now) + l.every) else full
  }

  /** The delay a refusal names. */
  function Wait(l: Limits, full: Option<int>, now: int): int {
    if Admits(l, full, now) then 0 else Whole(full, now) - now - (l.burst - 1) * l.every
  }

  function Kept(full: map<string, int>, key: string): Option<int> {
    if key in full then Some(full[key]) else None
  }

  datatype Request = Request(key: string, now: int)

  /** Whatever subset of budgets that are whole at now pruning forgets. */
  ghost predicate Prunes(full: map<string, int>, pruned: map<string, int>, now: int) {
    && (forall k :: k in pruned ==> k in full && pruned[k] == full[k])
    && (forall k :: k in full && k !in pruned ==> full[k] <= now)
  }

  /** What a limiter keeps once a request was answered. */
  function Asked(l: Limits, full: map<string, int>, r: Request): map<string, int> {
    if Admits(l, Kept(full, r.key), r.now) then full[r.key := Whole(Kept(full, r.key), r.now) + l.every] else full
  }

  class Limiter {
    const limits: Limits
    var full: map<string, int>

    constructor (burst: int, every: int)
      requires burst >= 1 && every > 0
      ensures limits == Limits(burst, every) && full == map[]
    {
      limits, full := Limits(burst, every), map[];
    }

    /** One request at now. With many keys kept, those whose budget is whole are forgotten first. */
    method Allow(key: string, now: int) returns (ok: bool, wait: int)
      requires Sane(limits)
      modifies this
      ensures ok == Admits(limits, old(Kept(full, key)), now) && wait == Wait(limits, old(Kept(full, key)), now)
      ensures exists pruned :: Prunes(old(full), pruned, now) && full == Asked(limits, pruned, Request(key, now))
      ensures |old(full)| <= LIMITER_PRUNE ==> full == Asked(limits, old(full), Request(key, now))
    {
      if |full| > LIMITER_PRUNE {
        var keys := full.Keys;
        while keys != {}
          invariant keys <= full.Keys <= old(full).Keys
          invariant forall k :: k in full ==> full[k] == old(full)[k]
          invariant forall k :: k in old(full) && k !in full ==> old(full)[k] <= now
          decreases |keys|
        {
          var k :| k in keys;
          keys := keys - {k};
          if full[k] <= now {
            full := full - {k};
          }
        }
      }
      assert Prunes(old(full), full, now);
      var whole := Whole(Kept(full, key), now);
      var room := (limits.burst - 1) * limits.every;
      if whole - now > room {
        return false, whole - now - room;
      }
      full := full[key := whole + limits.every];
      return true, 0;
    }
  }

  // ---------------------------------------------------------------------------------------------
  // One key over a run of requests
  // ---------------------------------------------------------------------------------------------

  /** What is kept of a key after requests at these times, none forgotten. */
  function After(l: Limits, full: Option<int>, times: List<int>): Option<int> {
    match times
    case End => full
    case More(front, now) => Spend(l, After(l, full, front), now)
  }

  /** How many of the requests from start on were admitted. */
  function Admitted(l: Limits, full: Option<int>, times: List<int>, start: int): nat {
    match times
    case End => 0
    case More(front, now) =>
      Admitted(l, full, front, start) + if start <= now && Admits(l, After(l, full, front), now) then 1 else 0
  }

  /** Times that never fall, none after end. */
  ghost predicate Rising(times: List<int>, end: int) {
    match times
    case End => true
    case More(front, now) => Rising(front, now) && now <= end
  }

  /** Each admission moves the kept instant one interval past the window's start, and the last admission bounds it. */
  lemma {:induction false} AdmissionsAdvance(l: Limits, full: Option<int>, times: List<int>, start: int, end: int)
    requires Sane(l) && Rising(times, end)
    ensures Admitted(l, full, times, start) > 0 ==>
              var kept := After(l, full, times);
              kept.Some? && start + Admitted(l, full, times, start) * l.every <= kept.value
    ensures Admitted(l, full, times, start) > 0 ==>
              start + Admitted(l, full, times, start) * l.every <= end + l.burst * l.every
  {
    if times.More? {
      AdmissionsAdvance(l, full, times.front, start, times.last);
      OneMoreAdvances(l, After(l, full, times.front), Admitted(l, full, times.front, start), start, times.last);
    }
  }

  lemma OneMoreAdvances(l: Limits, full: Option<int>, n: nat, start: int, now: int)
    requires Sane(l) && (n > 0 ==> full.Some? && start + n * l.every <= full.value)
    ensures Admits(l, full, now) && start <= now ==>
              && start + (n + 1) * l.every <= Spend(l, full, now).value
              && Spend(l, full, now).value <= now + l.burst * l.every
    ensures n > 0 ==> Spend(l, full, now).Some? && start + n * l.every <= Spend(l, full, now).value
  {
    Next(n, l.every);
    Next(l.burst - 1, l.every);
    assert n == 0 ==> n * l.every == 0;
  }

  /**
    The limiter's bound. Whatever came before, any window of length end - start admits at most burst
    requests and one more for every whole interval in it.
  */
  lemma WindowBound(l: Limits, full: Option<int>, times: List<int>, start: int, end: int)
    requires Sane(l) && Rising(times, end) && start <= end
    ensures Admitted(l, full, times, start) <= l.burst + (end - start) / l.every
  {
    AdmissionsAdvance(l, full, times, start, end);
    var n := Admitted(l, full, times, start);
    if n > 0 {
      FitsWhole(n, l.burst, l.every, end - start);
    } else {
      FitsWhole(0, 0, l.every, end - start);
    }
  }

  lemma FitsWhole(n: int, burst: int, every: int, d: int)
    requires every > 0 && n * every <= d + burst * every
    ensures n <= burst + d / every
  {
    var q := d / every;
    assert d < (q + 1) * every by { Next(q, every); }
    assert n * every < (q + 1) * every + burst * every;
    assert (q + 1) * every + burst * every == (q + 1 + burst) * every;
    Cancel(n, q + 1 + burst, every);
  }

  lemma Next(q: int, every: int)
    ensures (q + 1) * every == q * every + every
  {
  }

  lemma Cancel(x: int, y: int, every: int)
    requires every > 0 && x * every < y * every
    ensures x < y
  {
    if x >= y {
      Scaled(y, x, every);
    }
  }

  lemma Scaled(x: int, y: int, every: int)
    requires every > 0 && x <= y
    ensures x * every <= y * every
  {
    assert 0 <= (y - x) * every == y * every - x * every;
  }

  /** n requests at once. */
  function Copies(n: nat, now: int): List<int> {
    if n == 0 then End else More(Copies(n - 1, now), now)
  }

  /** The bound is met: a fresh key asked burst times at once is admitted every time. */
  lemma {:induction false} BurstAdmitted(l: Limits, n: nat, now: int)
    requires Sane(l) && n <= l.burst
    ensures Admitted(l, None, Copies(n, now), now) == n
    ensures After(l, None, Copies(n, now)) == if n == 0 then None else Some(now + n * l.every)
  {
    if n > 0 {
      BurstAdmitted(l, n - 1, now);
      OneMoreAdmitted(l, After(l, None, Copies(n - 1, now)), n - 1, now);
    }
  }

  lemma OneMoreAdmitted(l: Limits, full: Option<int>, n: nat, now: int)
    requires Sane(l) && n < l.burst && full == if n == 0 then None else Some(now + n * l.every)
    ensures Admits(l, full, now) && Spend(l, full, now) == Some(now + (n + 1) * l.every)
  {
    Scaled(0, n, l.every);
    Scaled(n, l.burst - 1, l.every);
    Next(n, l.every);
    assert n == 0 ==> n * l.every == 0;
    assert Whole(full, now) == now + n * l.every;
  }

  /** An admitted request waits for nothing and spends one interval; a refused one spends nothing. */
  lemma SpendExactly(l: Limits, full: Option<int>, now: int)
    requires Sane(l)
    ensures Admits(l, full, now) ==> Wait(l, full, now) == 0 && Spend(l, full, now) == Some((if full.Some? && full.value > now then full.value else now) + l.every)
    ensures !Admits(l, full, now) ==> Spend(l, full, now) == full && full.Some? && full.value > now + (l.burst - 1) * l.every
  {
    Scaled(0, l.burst - 1, l.every);
  }

  /** The wait a refusal names is exact: not admitted any sooner, and admitted then. */
  lemma WaitExact(l: Limits, full: Option<int>, now: int, later: int)
    requires Sane(l) && !Admits(l, full, now) && now <= later
    ensures Admits(l, full, later) <==> later >= now + Wait(l, full, now)
    ensures Wait(l, full, now) > 0
  {
    assert (l.burst - 1) * l.every >= 0;
  }

  // ---------------------------------------------------------------------------------------------
  // Many keys, with pruning
  // ---------------------------------------------------------------------------------------------

  /** full is some state a limiter may be in after the requests, pruning whenever it likes. */
  ghost predicate Reaches(l: Limits, requests: List<Request>, full: map<string, int>) {
    match requests
    case End => full == map[]
    case More(front, r) =>
      exists before, pruned :: Reaches(l, front, before) && Prunes(before, pruned, r.now) && full == Asked(l, pruned, r)
  }

  lemma AskedKeeps(l: Limits, full: map<string, int>, r: Request, key: string)
    ensures Kept(Asked(l, full, r), key) == if r.key == key then Spend(l, Kept(full, key), r.now) else Kept(full, key)
  {
  }

  /** Two kept instants that read alike now are spent alike now and read alike ever after. */
  lemma SpendAlike(l: Limits, a: Option<int>, b: Option<int>, now: int, later: int)
    requires Sane(l) && now <= later && Whole(a, now) == Whole(b, now)
    ensures Whole(a, later) == Whole(b, later)
    ensures Whole(Spend(l, a, now), later) == Whole(Spend(l, b, now), later)
  {
  }

  lemma PruneAlike(full: map<string, int>, pruned: map<string, int>, now: int, key: string)
    requires Prunes(full, pruned, now)
    ensures Whole(Kept(pruned, key), now) == Whole(Kept(full, key), now)
  {
  }

  /** The times key was asked for. */
  function TimesOf(requests: List<Request>, key: string): List<int> {
    match requests
    case End => End
    case More(front, r) => if r.key == key then More(TimesOf(front, key), r.now) else TimesOf(front, key)
  }

  ghost predicate Ordered(requests: List<Request>, end: int) {
    match requests
    case End => true
    case More(front, r) => Ordered(front, r.now) && r.now <= end
  }

  /**
    Pruning never changes a decision, and keys never touch each other: after any run of requests the
    limiter answers each key exactly as if it had been asked alone and nothing was ever forgotten.
  */
  lemma {:induction false} PruningInvisible(l: Limits, requests: List<Request>, full: map<string, int>, key: string, now: int)
    requires Sane(l) && Ordered(requests, now) && Reaches(l, requests, full)
    ensures Whole(Kept(full, key), now) == Whole(After(l, None, TimesOf(requests, key)), now)
    ensures Admits(l, Kept(full, key), now) == Admits(l, After(l, None, TimesOf(requests, key)), now)
  {
    if requests.More? {
      var front, r := requests.front, requests.last;
      var before, pruned :| Reaches(l, front, before) && Prunes(before, pruned, r.now) && full == Asked(l, pruned, r);
      PruningInvisible(l, front, before, key, r.now);
      PruneAlike(before, pruned, r.now, key);
      AskedKeeps(l, pruned, r, key);
      SpendAlike(l, Kept(pruned, key), After(l, None, TimesOf(front, key)), r.now, now);
    }
  }

  function Tally(l: Limits, full: map<string, int>, r: Request, key: string, start: int, served: nat): nat {
    if r.key == key && start <= r.now && Admits(l, Kept(full, key), r.now) then served + 1 else served
  }

  /** A run of a limiter that admitted key served times from start on. */
  ghost predicate Serves(l: Limits, requests: List<Request>, full: map<string, int>, key: string, start: int, served: nat) {
    match requests
    case End => full == map[] && served == 0
    case More(front, r) =>
      exists before, pruned, fewer: nat ::
        && Serves(l, front, before, key, start, fewer) && Prunes(before, pruned, r.now) && full == Asked(l, pruned, r)
        && served == Tally(l, pruned, r, key, start, fewer)
  }

  lemma {:induction false} ServesAsAlone(l: Limits, requests: List<Request>, full: map<string, int>, key: string, start: int, served: nat, end: int)
    requires Sane(l) && Ordered(requests, end) && Serves(l, requests, full, key, start, served)
    ensures Reaches(l, requests, full)
    ensures Rising(TimesOf(requests, key), end)
    ensures served == Admitted(l, None, TimesOf(requests, key), start)
  {
    if requests.More? {
      var front, r := requests.front, requests.last;
      var before, pruned, fewer: nat :|
        && Serves(l, front, before, key, start, fewer) && Prunes(before, pruned, r.now) && full == Asked(l, pruned, r)
        && served == Tally(l, pruned, r, key, start, fewer);
      ServesAsAlone(l, front, before, key, start, fewer, r.now);
      RisingLonger(TimesOf(front, key), r.now, end);
      PruningInvisible(l, front, before, key, r.now);
      PruneAlike(before, pruned, r.now, key);
    }
  }

  lemma RisingLonger(times: List<int>, end: int, later: int)
    requires Rising(times, end) && end <= later
    ensures Rising(times, later)
  {
  }

  /** The bound over the limiter itself: any run over any keys, pruning as it goes, and any window of it. */
  lemma RunBound(l: Limits, requests: List<Request>, full: map<string, int>, key: string, start: int, served: nat, end: int)
    requires Sane(l) && start <= end && Ordered(requests, end) && Serves(l, requests, full, key, start, served)
    ensures served <= l.burst + (end - start) / l.every
  {
    ServesAsAlone(l, requests, full, key, start, served, end);
    WindowBound(l, None, TimesOf(requests, key), start, end);
  }
}
