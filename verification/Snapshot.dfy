/**
  What adoption reads between showing its plan and recording it: every first answer is kept, and kept
  answers are what later reads get, until the adoption record's append begins.
*/
module Snapshot {
  import opened Options
  import opened SnocLists

  /** Ids and rows only ever compare equal or not. */
  type ID = nat
  type Row = nat

  /** What a read asks for. */
  datatype Key = RowOf(id: ID) | StepsOf(id: ID) | NonTerminal | EntryOf(id: ID)

  /** What a store, or the snapshot, answers. Broke is any error but not found. */
  datatype Answer = One(row: Row) | Many(rows: seq<Row>) | NotFound | Broke

  datatype Config = Config(recordID: ID, decisions: map<ID, Row>)

  /** What the snapshot keeps: the first answers to each kind of read. */
  datatype Cache = Cache(live: bool, rows: map<ID, Option<Row>>, steps: map<ID, seq<Row>>, nonTerminal: Option<seq<Row>>)

  const NOTHING_KEPT := Cache(false, map[], map[], None)

  /** An answer worth keeping: rows for any read, and not found for a single row. */
  predicate Keepable(k: Key, a: Answer) {
    match k
    case RowOf(_) => a.One? || a.NotFound?
    case StepsOf(_) => a.Many?
    case NonTerminal => a.Many?
    case EntryOf(_) => false
  }

  function Kept(s: Cache, k: Key): Option<Answer> {
    match k
    case RowOf(id) => if id !in s.rows then None else if s.rows[id].None? then Some(NotFound) else Some(One(s.rows[id].value))
    case StepsOf(id) => if id !in s.steps then None else Some(Many(s.steps[id]))
    case NonTerminal => if s.nonTerminal.None? then None else Some(Many(s.nonTerminal.value))
    case EntryOf(_) => None
  }

  function Keep(s: Cache, k: Key, a: Answer): Cache
    requires Keepable(k, a)
  {
    match k
    case RowOf(id) => s.(rows := s.rows[id := if a.One? then Some(a.row) else None])
    case StepsOf(id) => s.(steps := s.steps[id := a.rows])
    case NonTerminal => s.(nonTerminal := Some(a.rows))
  }

  /** Keeping an answer keeps it under its own key and disturbs no other. */
  lemma KeepKeeps(s: Cache, k: Key, a: Answer, other: Key)
    requires Keepable(k, a)
    ensures Kept(Keep(s, k, a), other) == if other == k then Some(a) else Kept(s, other)
  {
  }

  /** One read, when the store would answer store now. */
  function Read(c: Config, s: Cache, k: Key, store: Answer): Answer {
    if k.EntryOf? then
      if k.id == c.recordID || s.live then store
      else if k.id in c.decisions then One(c.decisions[k.id])
      else NotFound
    else if s.live || Kept(s, k).None? then store
    else Kept(s, k).value
  }

  /** What the snapshot keeps after that read. */
  function AfterRead(s: Cache, k: Key, store: Answer): Cache {
    if s.live || Kept(s, k).Some? || !Keepable(k, store) then s else Keep(s, k, store)
  }

  datatype Event = Asking(k: Key, store: Answer) | Appending(id: ID)

  function Step(c: Config, s: Cache, e: Event): Cache {
    match e
    case Asking(k, store) => AfterRead(s, k, store)
    case Appending(id) => if id == c.recordID then s.(live := true) else s
  }

  function Run(c: Config, s: Cache, events: List<Event>): Cache {
    match events
    case End => s
    case More(front, e) => Step(c, Run(c, s, front), e)
  }

  ghost predicate RecordBegun(c: Config, events: List<Event>) {
    events.More? && (events.last == Appending(c.recordID) || RecordBegun(c, events.front))
  }

  lemma StepKept(c: Config, s: Cache, e: Event, k: Key)
    requires !s.live && e != Appending(c.recordID)
    ensures !Step(c, s, e).live
    ensures Kept(s, k).Some? ==> Kept(Step(c, s, e), k) == Kept(s, k)
    ensures Kept(Step(c, s, e), k) == Kept(s, k) || (e.Asking? && e.k == k && Kept(Step(c, s, e), k) == Some(e.store))
  {
    if e.Asking? && Keepable(e.k, e.store) {
      KeepKeeps(s, e.k, e.store, k);
    }
  }

  lemma {:induction false} KeptStays(c: Config, s: Cache, events: List<Event>, k: Key)
    requires !s.live && !RecordBegun(c, events)
    ensures !Run(c, s, events).live
    ensures Kept(s, k).Some? ==> Kept(Run(c, s, events), k) == Kept(s, k)
  {
    if events.More? {
      KeptStays(c, s, events.front, k);
      StepKept(c, Run(c, s, events.front), events.last, k);
    }
  }

  /**
    Reads repeat. Once a read of a key was answered, every later read of that key gets that answer,
    whatever the store would say by then and whatever else was read or appended, until the adoption
    record's append begins. The record itself is always read from the chain.
  */
  lemma ReadsRepeat(c: Config, s: Cache, k: Key, first: Answer, between: List<Event>, later: Answer)
    requires !s.live && !RecordBegun(c, between) && k != EntryOf(c.recordID)
    requires match k
             case RowOf(_) => Kept(s, k).Some? || first.One? || first.NotFound?
             case StepsOf(_) => Kept(s, k).Some? || first.Many?
             case NonTerminal => Kept(s, k).Some? || first.Many?
             case EntryOf(_) => true
    ensures Read(c, Run(c, AfterRead(s, k, first), between), k, later) == Read(c, s, k, first)
  {
    if Keepable(k, first) {
      KeepKeeps(s, k, first, k);
    }
    KeptStays(c, AfterRead(s, k, first), between, k);
  }

  /** Before the record, an entry is read from the walk that verified the chain, or is not there; the record is read from the chain. */
  lemma EntryReads(c: Config, s: Cache, id: ID, store: Answer)
    ensures id == c.recordID || s.live ==> Read(c, s, EntryOf(id), store) == store
    ensures id != c.recordID && !s.live ==> Read(c, s, EntryOf(id), store) == if id in c.decisions then One(c.decisions[id]) else NotFound
    ensures AfterRead(s, EntryOf(id), store) == s
  {
  }

  /** A first read answers what the store says, whatever that is, and an error is never kept. */
  lemma FirstReadAnswers(c: Config, s: Cache, k: Key, store: Answer)
    requires !k.EntryOf? && Kept(s, k).None?
    ensures Read(c, s, k, store) == store
    ensures store == Broke || s.live ==> AfterRead(s, k, store) == s
  {
  }

  /** Nothing is invented: what is kept for a key is an answer the store itself gave to some read of it. */
  lemma {:induction false} KeptWasAnswered(c: Config, events: List<Event>, k: Key)
    requires Kept(Run(c, NOTHING_KEPT, events), k).Some?
    ensures Answered(events, k, Kept(Run(c, NOTHING_KEPT, events), k).value)
  {
    if events.More? {
      var before := Run(c, NOTHING_KEPT, events.front);
      if Kept(before, k).Some? {
        KeptWasAnswered(c, events.front, k);
      }
      if events.last.Asking? && Keepable(events.last.k, events.last.store) {
        KeepKeeps(before, events.last.k, events.last.store, k);
      }
    }
  }

  ghost predicate Answered(events: List<Event>, k: Key, a: Answer) {
    events.More? && (events.last == Asking(k, a) || Answered(events.front, k, a))
  }

  /** Once the record's append began, every read goes to the stores, for good. */
  lemma {:induction false} LiveReadsStore(c: Config, s: Cache, events: List<Event>, k: Key, store: Answer)
    requires s.live || RecordBegun(c, events)
    ensures Run(c, s, events).live && Read(c, Run(c, s, events), k, store) == store
  {
    if events.More? && (s.live || RecordBegun(c, events.front)) {
      LiveReadsStore(c, s, events.front, k, store);
    }
  }

  // ---------------------------------------------------------------------------------------------
  // The snapshot object
  // ---------------------------------------------------------------------------------------------

  /** A run as stores and readers pass it around: one that can be changed in place. */
  class RunRow {
    var row: Row

    constructor (row: Row)
      ensures this.row == row
    {
      this.row := row;
    }
  }

  /** What a store call returned: objects the store or anybody else may still change. */
  datatype Got = GotOne(run: RunRow) | GotMany(runs: seq<RunRow>) | GotNotFound | GotBroke

  ghost function Rows(runs: seq<RunRow>): seq<Row>
    reads runs
  {
    seq(|runs|, i requires 0 <= i < |runs| reads runs => runs[i].row)
  }

  ghost function Value(g: Got): Answer
    reads if g.GotOne? then {g.run} else {}, if g.GotMany? then g.runs else []
  {
    match g
    case GotOne(run) => One(run.row)
    case GotMany(runs) => Many(Rows(runs))
    case GotNotFound => NotFound
    case GotBroke => Broke
  }

  method CloneRuns(runs: seq<RunRow>) returns (out: seq<RunRow>)
    ensures forall r :: r in out ==> fresh(r)
    ensures Rows(out) == old(Rows(runs))
  {
    out := [];
    for i := 0 to |runs|
      invariant |out| == i && forall r :: r in out ==> fresh(r)
      invariant forall j :: 0 <= j < i ==> out[j].row == runs[j].row
    {
      var c := new RunRow(runs[i].row);
      out := out + [c];
    }
  }

  class AdoptSnapshot {
    const config: Config
    var live: bool
    var nonTerminal: Option<seq<RunRow>>
    var rows: map<ID, Option<RunRow>>
    var steps: map<ID, seq<RunRow>>

    /** The objects the snapshot keeps for itself. */
    ghost var held: set<RunRow>
    /** What they say. */
    ghost var rowsSay: map<ID, Option<Row>>
    ghost var stepsSay: map<ID, seq<Row>>
    ghost var nonTerminalSays: Option<seq<Row>>

    ghost predicate RowsSay()
      reads this, held
    {
      && rows.Keys == rowsSay.Keys
      && forall id :: id in rows ==>
           if rows[id].None? then rowsSay[id] == None
           else rows[id].value in held && rowsSay[id] == Some(rows[id].value.row)
    }

    ghost predicate StepsSay()
      reads this, held
    {
      && steps.Keys == stepsSay.Keys
      && forall id :: id in steps ==> Within(steps[id], held) && stepsSay[id] == Rows(steps[id])
    }

    ghost predicate NonTerminalSays()
      reads this, held
    {
      match nonTerminal
      case None => nonTerminalSays == None
      case Some(runs) => Within(runs, held) && nonTerminalSays == Some(Rows(runs))
    }

    ghost predicate Valid()
      reads this, held
    {
      RowsSay() && StepsSay() && NonTerminalSays()
    }

    ghost function View(): Cache
      reads this
    {
      Cache(live, rowsSay, stepsSay, nonTerminalSays)
    }

    constructor (config: Config)
      ensures this.config == config && Valid() && held == {} && View() == NOTHING_KEPT
    {
      this.config, live, nonTerminal, rows, steps := config, false, None, map[], map[];
      held, rowsSay, stepsSay, nonTerminalSays := {}, map[], map[], None;
    }

    /**
      Get, given what the store would answer. Before the record, what comes back is an object nobody
      else has, so a reader that changes it changes nothing the snapshot keeps.
    */
    method Get(id: ID, store: Got) returns (r: Got)
      requires Valid() && !store.GotMany?
      modifies this
      ensures Valid() && fresh(held - old(held)) && old(held) <= held
      ensures View() == AfterRead(old(View()), RowOf(id), old(Value(store)))
      ensures Value(r) == Read(config, old(View()), RowOf(id), old(Value(store)))
      ensures !live && r.GotOne? ==> fresh(r.run) && r.run !in held
    {
      if live {
        return store;
      }
      if id !in rows {
        match store {
          case GotOne(run) =>
            KeepRow(id, run);
          case GotNotFound =>
            PutRow(id, None);
          case GotBroke =>
            return store;
        }
      }
      if rows[id].None? {
        return GotNotFound;
      }
      var c := new RunRow(rows[id].value.row);
      return GotOne(c);
    }

    method KeepRow(id: ID, run: RunRow)
      requires Valid() && id !in rows
      modifies this
      ensures Valid() && fresh(held - old(held)) && old(held) <= held
      ensures id in rows && rows[id].Some? && View() == old(View()).(rows := old(rowsSay)[id := Some(old(run.row))])
    {
      var mine := new RunRow(run.row);
      PutRow(id, Some(mine));
    }

    method PutRow(id: ID, mine: Option<RunRow>)
      requires Valid() && id !in rows
      modifies this
      ensures Valid() && held == old(held) + (if mine.Some? then {mine.value} else {})
      ensures id in rows && rows[id] == mine
      ensures View() == old(View()).(rows := old(rowsSay)[id := if mine.Some? then Some(mine.value.row) else None])
    {
      held := held + (if mine.Some? then {mine.value} else {});
      rows, rowsSay := rows[id := mine], rowsSay[id := if mine.Some? then Some(mine.value.row) else None];
    }

    /** Steps of one workflow, given what the store would answer. */
    method Steps(id: ID, store: Got) returns (r: Got)
      requires Valid() && (store.GotMany? || store.GotBroke?)
      modifies this
      ensures Valid() && fresh(held - old(held)) && old(held) <= held
      ensures View() == AfterRead(old(View()), StepsOf(id), old(Value(store)))
      ensures Value(r) == Read(config, old(View()), StepsOf(id), old(Value(store)))
      ensures !live && r.GotMany? ==> forall x :: x in r.runs ==> fresh(x) && x !in held
    {
      if live {
        return store;
      }
      if id !in steps {
        if store.GotBroke? {
          return store;
        }
        KeepSteps(id, store.runs);
      }
      var out := CloneRuns(steps[id]);
      return GotMany(out);
    }

    method KeepSteps(id: ID, runs: seq<RunRow>)
      requires Valid() && id !in steps
      modifies this
      ensures Valid() && fresh(held - old(held)) && old(held) <= held
      ensures id in steps && View() == old(View()).(steps := old(stepsSay)[id := old(Rows(runs))])
    {
      var mine := CloneRuns(runs);
      PutSteps(id, mine);
    }

    method PutSteps(id: ID, mine: seq<RunRow>)
      requires Valid() && id !in steps
      modifies this
      ensures Valid() && held == old(held) + (set x | x in mine)
      ensures id in steps && View() == old(View()).(steps := old(stepsSay)[id := Rows(mine)])
    {
      steps, held, stepsSay := steps[id := mine], held + (set x | x in mine), stepsSay[id := Rows(mine)];
    }

    /** Every run not ended, given what the store would answer. An empty answer is kept like any other. */
    method AllNonTerminal(store: Got) returns (r: Got)
      requires Valid() && (store.GotMany? || store.GotBroke?)
      modifies this
      ensures Valid() && fresh(held - old(held)) && old(held) <= held
      ensures View() == AfterRead(old(View()), NonTerminal, old(Value(store)))
      ensures Value(r) == Read(config, old(View()), NonTerminal, old(Value(store)))
      ensures !live && r.GotMany? ==> forall x :: x in r.runs ==> fresh(x) && x !in held
    {
      if live {
        return store;
      }
      if nonTerminal.None? {
        if store.GotBroke? {
          return store;
        }
        KeepNonTerminal(store.runs);
      }
      var out := CloneRuns(nonTerminal.value);
      return GotMany(out);
    }

    method KeepNonTerminal(runs: seq<RunRow>)
      requires Valid() && nonTerminal.None?
      modifies this
      ensures Valid() && fresh(held - old(held)) && old(held) <= held
      ensures nonTerminal.Some? && View() == old(View()).(nonTerminal := Some(old(Rows(runs))))
    {
      var mine := CloneRuns(runs);
      PutNonTerminal(mine);
    }

    method PutNonTerminal(mine: seq<RunRow>)
      requires Valid() && nonTerminal.None?
      modifies this
      ensures Valid() && held == old(held) + (set x | x in mine)
      ensures nonTerminal.Some? && View() == old(View()).(nonTerminal := Some(Rows(mine)))
    {
      nonTerminal, held, nonTerminalSays := Some(mine), held + (set x | x in mine), Some(Rows(mine));
    }

    /** Append: the switch comes before the record reaches the chain. */
    method Append(id: ID)
      requires Valid()
      modifies this`live
      ensures Valid() && View() == Step(config, old(View()), Appending(id))
    {
      if id == config.recordID {
        live := true;
      }
    }
  }

  ghost predicate Within(runs: seq<RunRow>, held: set<RunRow>) {
    forall x :: x in runs ==> x in held
  }
}
