/** The in-memory routing cache and its refresh protocol (src/astropath/cache.py:82-131, 174-211,
    src/astropath/api/deps.py:138-155).

    Writers commit and then call `refresh`; refreshes take a lock, load the tables one query at
    a time, each query seeing the commits made so far, and swap the result in.  A load can fail
    at any query, and it fails when a domain names a backend that the earlier query did not see. */
module RoutingCache {
  import opened Wrappers
  import opened Names

  // ---------------------------------------------------------------- contents

  /** One committed state of the database; every domain names an existing backend. */
  datatype Tables = Tables(tsigKeys: map<Name, int>, backends: map<int, string>, domains: map<Name, int>)

  predicate ForeignKeys(backends: map<int, string>, domains: map<Name, int>) {
    forall zone :: zone in domains ==> domains[zone] in backends
  }

  /** What the data plane serves from. */
  datatype Snapshot = Snapshot(keyring: set<Name>, backends: map<int, string>, domains: map<Name, int>,
      keyIds: map<Name, int>)

  function View(db: Tables): Snapshot {
    Snapshot(db.tsigKeys.Keys, db.backends, db.domains, db.tsigKeys)
  }

  // ---------------------------------------------------------------- key ids

  datatype KeyRow = KeyRow(id: Option<int>, name: Name)

  /** Row `i` is the last one with an id whose canonical name is `name`. */
  ghost predicate LastRowFor(rows: seq<KeyRow>, name: Name, i: int) {
    && 0 <= i < |rows| && rows[i].id.Some? && Canonical(rows[i].name) == name
    && forall j :: i < j < |rows| ==> !(rows[j].id.Some? && Canonical(rows[j].name) == name)
  }

  /** `ids` holds the canonical names of the rows with an id, each with the id of its last row. */
  ghost predicate IdsOf(rows: seq<KeyRow>, ids: map<Name, int>) {
    && (forall name :: name in ids <==> exists i :: LastRowFor(rows, name, i))
    && (forall name, i :: LastRowFor(rows, name, i) ==> name in ids && ids[name] == rows[i].id.value)
  }

  /** `load_tsig_key_ids`: canonical names to row ids, the last row winning. */
  method LoadTsigKeyIds(rows: seq<KeyRow>) returns (ids: map<Name, int>)
    ensures IdsOf(rows, ids)
  {
    ids := map[];
    var i := 0;
    while i < |rows|
      invariant 0 <= i <= |rows|
      invariant forall name :: name in ids ==>
                  exists j :: LastRowFor(rows[..i], name, j) && ids[name] == rows[j].id.value
      invariant forall j :: 0 <= j < i && rows[j].id.Some? ==> Canonical(rows[j].name) in ids
    {
      var row := rows[i];
      ghost var before := ids;
      if row.id.Some? {
        ids := ids[Canonical(row.name) := row.id.value];
      }
      forall name | name in ids
        ensures exists j :: LastRowFor(rows[..i + 1], name, j) && ids[name] == rows[j].id.value
      {
        if row.id.Some? && name == Canonical(row.name) {
          assert LastRowFor(rows[..i + 1], name, i);
        } else {
          var j :| LastRowFor(rows[..i], name, j) && before[name] == rows[j].id.value;
          assert LastRowFor(rows[..i + 1], name, j);
        }
      }
      i := i + 1;
    }
    assert rows[..i] == rows;
    forall name, k | LastRowFor(rows, name, k) ensures name in ids && ids[name] == rows[k].id.value {
      var j :| LastRowFor(rows, name, j) && ids[name] == rows[j].id.value;
      assert j == k;
    }
  }

  // ---------------------------------------------------------------- the protocol

  /** How many commits each of the four queries of a load saw. */
  datatype Stamps = Stamps(tsig: nat, backends: nat, domains: nat, ids: nat)

  /** `tid` is the refresh that loaded it. */
  datatype Loaded = Loaded(tid: nat, stamps: Stamps, snapshot: Snapshot)

  /** The queries made so far by the refresh that holds the lock. */
  datatype Load =
    | Begun
    | HasTsig(tsig: nat)
    | HasBackends(tsig: nat, backends: nat)
    | HasDomains(tsig: nat, backends: nat, domains: nat)
    | HasAll(stamps: Stamps)

  /** `calledAt`: how many commits there were when `refresh` was called. */
  datatype Task = Waiting(calledAt: nat) | Loading(calledAt: nat, load: Load) | Returned(calledAt: nat) | Raised

  /** `db[i]` is the database after `i` commits. */
  datatype State = State(db: seq<Tables>, holder: Option<nat>, tasks: map<nat, Task>, current: Option<Loaded>)

  datatype Step =
    | Commit(db: Tables)
    | Call(tid: nat) | Acquire(tid: nat)
    | Query(tid: nat) | QueryFails(tid: nat)
    | Swap(tid: nat)

  function Now(s: State): nat
    requires s.db != []
  {
    |s.db| - 1
  }

  predicate LoadingNow(s: State, t: nat) {
    s.holder == Some(t) && t in s.tasks && s.tasks[t].Loading?
  }

  predicate Enabled(s: State, step: Step) {
    && s.db != []
    && match step
       case Commit(db) => ForeignKeys(db.backends, db.domains)
       case Call(t) => t !in s.tasks
       case Acquire(t) => s.holder == None && t in s.tasks && s.tasks[t].Waiting?
       case Query(t) => LoadingNow(s, t) && !s.tasks[t].load.HasAll?
       case QueryFails(t) => LoadingNow(s, t)
       case Swap(t) => LoadingNow(s, t) && s.tasks[t].load.HasAll?
  }

  function Raise(s: State, t: nat): State {
    s.(tasks := s.tasks[t := Raised], holder := None)
  }

  function NextLoad(load: Load, now: nat): Load {
    match load
    case Begun => HasTsig(now)
    case HasTsig(a) => HasBackends(a, now)
    case HasBackends(a, b) => HasDomains(a, b, now)
    case HasDomains(a, b, c) => HasAll(Stamps(a, b, c, now))
    case HasAll(_) => load
  }

  /** The rows read so far fit together: every domain's backend was read. */
  predicate Fits(db: seq<Tables>, load: Load) {
    load.HasDomains? && load.backends < |db| && load.domains < |db| ==>
      ForeignKeys(db[load.backends].backends, db[load.domains].domains)
  }

  /** The snapshot that rows read at these moments make. */
  function Build(db: seq<Tables>, st: Stamps): Snapshot
    requires st.tsig < |db| && st.backends < |db| && st.domains < |db| && st.ids < |db|
  {
    Snapshot(db[st.tsig].tsigKeys.Keys, db[st.backends].backends, db[st.domains].domains, db[st.ids].tsigKeys)
  }

  /** The stamps are moments that have been; `Invariant` says that they always are. */
  predicate InRange(st: Stamps, now: int) {
    st.tsig <= now && st.backends <= now && st.domains <= now && st.ids <= now
  }

  function Do(s: State, step: Step): State
    requires Enabled(s, step)
  {
    match step
    case Commit(db) => s.(db := s.db + [db])
    case Call(t) => s.(tasks := s.tasks[t := Waiting(Now(s))])
    case Acquire(t) => s.(tasks := s.tasks[t := Loading(s.tasks[t].calledAt, Begun)], holder := Some(t))
    case Query(t) =>
      var load := NextLoad(s.tasks[t].load, Now(s));
      if Fits(s.db, load) then s.(tasks := s.tasks[t := s.tasks[t].(load := load)]) else Raise(s, t)
    case QueryFails(t) => Raise(s, t)
    case Swap(t) =>
      var st := s.tasks[t].load.stamps;
      if InRange(st, Now(s)) then
        s.(tasks := s.tasks[t := Returned(s.tasks[t].calledAt)], holder := None,
           current := Some(Loaded(t, st, Build(s.db, st))))
      else Raise(s, t)
  }

  function Initial(db: Tables): State {
    State([db], None, map[], None)
  }

  // ---------------------------------------------------------------- the object

  function InForce(s: State): Option<Snapshot> {
    if s.current.Some? then Some(s.current.value.snapshot) else None
  }

  /** The load of the refresh that holds the lock ends in this step, with this result. */
  predicate LoadEnds(s: State, step: Step, loaded: Option<Snapshot>) {
    && Enabled(s, step) && (step.Query? || step.QueryFails? || step.Swap?)
    && !Do(s, step).tasks[step.tid].Loading?
    && loaded == if Do(s, step).tasks[step.tid].Returned? then InForce(Do(s, step)) else None
  }

  class Cache {
    var snapshot: Option<Snapshot>
    var holder: Option<nat>  // of the refresh lock

    constructor (ghost db: Tables)
      ensures Shows(Initial(db))
    {
      snapshot, holder := None, None;
    }

    ghost predicate Shows(s: State)
      reads this
    {
      snapshot == InForce(s) && holder == s.holder
    }

    method TakeLock(t: nat, ghost s: State)
      requires Shows(s) && Enabled(s, Acquire(t))
      modifies this
      ensures Shows(Do(s, Acquire(t)))
    {
      holder := Some(t);
    }

    /** `refresh` from where the loader has returned, or raised (`None`): the object moves as the
        machine does, only a normal return swaps, and the lock is released either way. */
    method Refresh(loaded: Option<Snapshot>, ghost s: State, ghost step: Step) returns (ok: bool)
      requires Shows(s) && LoadEnds(s, step, loaded)
      modifies this
      ensures Shows(Do(s, step)) && holder == None
      ensures ok <==> Do(s, step).tasks[step.tid].Returned?
    {
      if loaded.Some? {
        snapshot := loaded;
      }
      holder := None;
      return loaded.Some?;
    }

    /** A request's key name, in any letter case, finds the last row of that name. */
    method TsigKeyIdFor(name: Name, ghost rows: seq<KeyRow>) returns (id: Option<int>)
      ensures snapshot == None ==> id == None
      ensures snapshot.Some? && IdsOf(rows, snapshot.value.keyIds) ==>
                && (id == None <==> forall i :: 0 <= i < |rows| && rows[i].id.Some? ==>
                    Canonical(rows[i].name) != Canonical(name))
                && forall i :: LastRowFor(rows, Canonical(name), i) ==> id == rows[i].id
    {
      LastRowExists(rows, Canonical(name));
      if snapshot == None || Canonical(name) !in snapshot.value.keyIds {
        return None;
      }
      return Some(snapshot.value.keyIds[Canonical(name)]);
    }
  }

  lemma {:induction false} LastRowExists(rows: seq<KeyRow>, name: Name)
    ensures (exists i :: LastRowFor(rows, name, i)) <==>
            exists i :: 0 <= i < |rows| && rows[i].id.Some? && Canonical(rows[i].name) == name
  {
    if rows != [] {
      var n := |rows| - 1;
      LastRowExists(rows[..n], name);
      if rows[n].id.Some? && Canonical(rows[n].name) == name {
        assert LastRowFor(rows, name, n);
      } else if i :| LastRowFor(rows[..n], name, i) {
        assert LastRowFor(rows, name, i);
      }
    }
  }

  ghost predicate Legal(s0: State, steps: seq<Step>)
    decreases |steps|, 0
  {
    steps == [] ||
    (Legal(s0, steps[..|steps| - 1]) && Enabled(After(s0, steps[..|steps| - 1]), steps[|steps| - 1]))
  }

  ghost function After(s0: State, steps: seq<Step>): State
    requires Legal(s0, steps)
    decreases |steps|, 1
  {
    if steps == [] then s0 else Do(After(s0, steps[..|steps| - 1]), steps[|steps| - 1])
  }

  // ---------------------------------------------------------------- what every step keeps

  /** At least as new as commit `n`, in every table. */
  predicate AtLeast(st: Stamps, n: nat) {
    n <= st.tsig && n <= st.backends && n <= st.domains && n <= st.ids
  }

  /** Both are nondecreasing in query order, and `b` starts no earlier than `a` ended. */
  predicate NotBefore(a: Stamps, b: Stamps) {
    a.tsig <= b.tsig && a.backends <= b.backends && a.domains <= b.domains && a.ids <= b.ids
  }

  /** The queries of one load see ever later commits, none before `from`. */
  predicate LoadOk(load: Load, from: nat, now: nat) {
    match load
    case Begun => true
    case HasTsig(a) => from <= a <= now
    case HasBackends(a, b) => from <= a <= b <= now
    case HasDomains(a, b, c) => from <= a <= b <= c <= now
    case HasAll(st) => from <= st.tsig <= st.backends <= st.domains <= st.ids <= now
  }

  /** What the snapshot in force owes a task. */
  ghost predicate TaskOk(task: Task, t: nat, now: nat, holder: Option<nat>, current: Option<Loaded>) {
    match task
    case Waiting(calledAt) => calledAt <= now
    case Loading(calledAt, load) =>
      && holder == Some(t) && calledAt <= now
      && LoadOk(load, calledAt, now)
      && (current.Some? ==> LoadOk(load, current.value.stamps.ids, now))
    case Returned(calledAt) => current.Some? && AtLeast(current.value.stamps, calledAt)
    case Raised => true
  }

  ghost predicate TasksOk(s: State)
    requires s.db != []
  {
    forall t :: t in s.tasks ==> TaskOk(s.tasks[t], t, Now(s), s.holder, s.current)
  }

  /** A snapshot comes from a refresh that returned, and its queries saw ever later commits. */
  ghost predicate CurrentOk(s: State)
    requires s.db != []
  {
    s.current.Some? ==>
      var Loaded(t, st, snapshot) := s.current.value;
      && t in s.tasks && s.tasks[t].Returned?
      && Nondecreasing(st) && st.ids <= Now(s) && snapshot == Build(s.db, st)
  }

  predicate Nondecreasing(st: Stamps) {
    st.tsig <= st.backends <= st.domains <= st.ids
  }

  ghost predicate Consistent(db: seq<Tables>) {
    forall i :: 0 <= i < |db| ==> ForeignKeys(db[i].backends, db[i].domains)
  }

  ghost predicate Invariant(s: State) {
    && s.db != [] && Consistent(s.db) && TasksOk(s) && CurrentOk(s)
    && (s.holder.Some? ==> LoadingNow(s, s.holder.value))
  }

  /** Time passing and a newer snapshot take nothing from a task that is not loading. */
  lemma TaskStays(task: Task, t: nat, now: nat, now': nat, holder: Option<nat>, holder': Option<nat>,
                  current: Option<Loaded>, current': Option<Loaded>)
    requires TaskOk(task, t, now, holder, current) && now <= now'
    requires task.Loading? ==> holder' == holder && current' == current
    requires current.Some? ==> current'.Some? && NotBefore(current.value.stamps, current'.value.stamps)
    ensures TaskOk(task, t, now', holder', current')
  {
  }

  lemma StepIsNewer(s: State, step: Step)
    requires Invariant(s) && Enabled(s, step)
    ensures s.current.Some? ==>
              Do(s, step).current.Some? && NotBefore(s.current.value.stamps, Do(s, step).current.value.stamps)
    ensures Do(s, step).db != [] && Now(s) <= Now(Do(s, step))
    ensures !step.Swap? ==> Do(s, step).current == s.current
  {
    if step.Swap? { assert TaskOk(s.tasks[step.tid], step.tid, Now(s), s.holder, s.current); }
  }

  lemma StepKeepsOther(s: State, step: Step, t: nat)
    requires Invariant(s) && Enabled(s, step) && t in s.tasks
    requires step.Commit? || step.tid != t
    ensures var s' := Do(s, step);
            t in s'.tasks && s'.tasks[t] == s.tasks[t] && s'.db != []
                && TaskOk(s'.tasks[t], t, Now(s'), s'.holder, s'.current)
  {
    var s' := Do(s, step);
    assert TaskOk(s.tasks[t], t, Now(s), s.holder, s.current);
    StepIsNewer(s, step);
    TaskStays(s.tasks[t], t, Now(s), Now(s'), s.holder, s'.holder, s.current, s'.current);
  }

  lemma NextLoadOk(load: Load, from: nat, now: nat)
    requires LoadOk(load, from, now) && from <= now
    ensures LoadOk(NextLoad(load, now), from, now)
  {
  }

  /** The caller's task after a step, given that it was in order before. */
  lemma StepKeepsOwn(s: State, step: Step)
    requires Invariant(s) && Enabled(s, step) && !step.Commit?
    ensures var s' := Do(s, step);
            step.tid in s'.tasks && s'.db != [] && TaskOk(s'.tasks[step.tid], step.tid, Now(s'), s'.holder, s'.current)
  {
    var t, now := step.tid, Now(s);
    if t in s.tasks { assert TaskOk(s.tasks[t], t, now, s.holder, s.current); }
    match step {
      case Call(_) =>
      case Acquire(_) =>
      case Query(_) =>
        NextLoadOk(s.tasks[t].load, s.tasks[t].calledAt, now);
        if s.current.Some? { NextLoadOk(s.tasks[t].load, s.current.value.stamps.ids, now); }
      case QueryFails(_) =>
      case Swap(_) => assert InRange(s.tasks[t].load.stamps, now);
    }
  }

  lemma StepKeepsCurrent(s: State, step: Step)
    requires Invariant(s) && Enabled(s, step)
    ensures Do(s, step).db != [] && CurrentOk(Do(s, step))
  {
    if step.Swap? {
      assert TaskOk(s.tasks[step.tid], step.tid, Now(s), s.holder, s.current);
    }
  }

  lemma StepKeepsInvariant(s: State, step: Step)
    requires Invariant(s) && Enabled(s, step)
    ensures Invariant(Do(s, step))
  {
    var s' := Do(s, step);
    StepKeepsCurrent(s, step);
    forall t | t in s'.tasks ensures TaskOk(s'.tasks[t], t, Now(s'), s'.holder, s'.current) {
      if step.Commit? || step.tid != t { StepKeepsOther(s, step, t); } else { StepKeepsOwn(s, step); }
    }
    assert Consistent(s'.db);
  }

  lemma {:induction false} EveryRunKeepsInvariant(db: Tables, steps: seq<Step>)
    requires ForeignKeys(db.backends, db.domains) && Legal(Initial(db), steps)
    ensures Invariant(After(Initial(db), steps))
  {
    if steps != [] {
      var before := steps[..|steps| - 1];
      EveryRunKeepsInvariant(db, before);
      StepKeepsInvariant(After(Initial(db), before), steps[|steps| - 1]);
    }
  }

  /** The run `steps` from the database `db` ends in `s`. */
  ghost predicate Reaches(db: Tables, steps: seq<Step>, s: State) {
    ForeignKeys(db.backends, db.domains) && Legal(Initial(db), steps) && After(Initial(db), steps) == s
  }

  // ---------------------------------------------------------------- domains and their backends

  /** The domains that a load has read name backends that it has read. */
  ghost predicate LoadLinked(db: seq<Tables>, load: Load) {
    match load
    case HasDomains(_, b, c) => b < |db| && c < |db| ==> NamesOnly(db[c].domains, db[b].backends)
    case HasAll(st) => st.backends < |db| && st.domains < |db| ==>
        NamesOnly(db[st.domains].domains, db[st.backends].backends)
    case _ => true
  }

  /** Every domain names a backend that is there. */
  ghost predicate NamesOnly(domains: map<Name, int>, backends: map<int, string>) {
    forall zone :: zone in domains ==> domains[zone] in backends.Keys
  }

  ghost predicate Linked(s: State) {
    && (forall t :: t in s.tasks && s.tasks[t].Loading? ==> LoadLinked(s.db, s.tasks[t].load))
    && (s.current.Some? ==> NamesOnly(s.current.value.snapshot.domains, s.current.value.snapshot.backends))
  }

  lemma LoadStaysLinked(db: seq<Tables>, db': Tables, load: Load, from: nat)
    requires LoadLinked(db, load) && db != [] && LoadOk(load, from, |db| - 1)
    ensures LoadLinked(db + [db'], load)
  {
  }

  lemma NextLoadLinked(db: seq<Tables>, load: Load, from: nat)
    requires db != [] && LoadLinked(db, load) && LoadOk(load, from, |db| - 1) && Fits(db, NextLoad(load, |db| - 1))
    ensures LoadLinked(db, NextLoad(load, |db| - 1))
  {
  }

  lemma SwapIsLinked(s: State, t: nat)
    requires Invariant(s) && Linked(s) && Enabled(s, Swap(t))
    ensures var s' := Do(s, Swap(t));
            s'.current.Some? ==> NamesOnly(s'.current.value.snapshot.domains, s'.current.value.snapshot.backends)
  {
    assert TaskOk(s.tasks[t], t, Now(s), s.holder, s.current) && LoadLinked(s.db, s.tasks[t].load);
  }

  lemma StepKeepsLoadLinked(s: State, step: Step, t: nat)
    requires Invariant(s) && Linked(s) && Enabled(s, step) && t in Do(s, step).tasks && Do(s, step).tasks[t].Loading?
    ensures LoadLinked(Do(s, step).db, Do(s, step).tasks[t].load)
  {
    if t in s.tasks && s.tasks[t].Loading? {
      assert TaskOk(s.tasks[t], t, Now(s), s.holder, s.current) && LoadLinked(s.db, s.tasks[t].load);
      if step.Commit? {
        LoadStaysLinked(s.db, step.db, s.tasks[t].load, s.tasks[t].calledAt);
      } else if step == Query(t) {
        NextLoadLinked(s.db, s.tasks[t].load, s.tasks[t].calledAt);
      }
    }
  }

  lemma StepKeepsLinked(s: State, step: Step)
    requires Invariant(s) && Linked(s) && Enabled(s, step)
    ensures Linked(Do(s, step))
  {
    var s' := Do(s, step);
    if step.Swap? { SwapIsLinked(s, step.tid); }
    forall t | t in s'.tasks && s'.tasks[t].Loading? ensures LoadLinked(s'.db, s'.tasks[t].load) {
      StepKeepsLoadLinked(s, step, t);
    }
  }

  lemma {:induction false} EveryRunIsLinked(db: Tables, steps: seq<Step>)
    requires ForeignKeys(db.backends, db.domains) && Legal(Initial(db), steps)
    ensures Linked(After(Initial(db), steps))
  {
    if steps != [] {
      var before := steps[..|steps| - 1];
      EveryRunIsLinked(db, before);
      EveryRunKeepsInvariant(db, before);
      StepKeepsLinked(After(Initial(db), before), steps[|steps| - 1]);
    }
  }

  /** In every run, torn or not, every domain of the snapshot in force names a backend of that
      same snapshot, and each table of it is the committed one at its own query. */
  lemma SnapshotHangsTogether(db: Tables, steps: seq<Step>, s: State)
    requires Reaches(db, steps, s) && s.current.Some?
    ensures var Loaded(_, st, snapshot) := s.current.value;
            && NamesOnly(snapshot.domains, snapshot.backends)
            && st.tsig < |s.db| && snapshot.keyring == s.db[st.tsig].tsigKeys.Keys
            && st.backends < |s.db| && snapshot.backends == s.db[st.backends].backends
            && st.domains < |s.db| && snapshot.domains == s.db[st.domains].domains
            && st.ids < |s.db| && snapshot.keyIds == s.db[st.ids].tsigKeys
  {
    EveryRunIsLinked(db, steps);
    EveryRunKeepsInvariant(db, steps);
  }

  /** A load gives up at its third query exactly when a domain committed by then names a backend
      that the second query did not see. */
  lemma LoadRaisesIffDangling(db: Tables, steps: seq<Step>, s: State, t: nat)
    requires Reaches(db, steps, s) && Enabled(s, Query(t)) && s.tasks[t].load.HasBackends?
    ensures var read := s.tasks[t].load.backends;
            && read < |s.db| && t in Do(s, Query(t)).tasks
            && (Do(s, Query(t)).tasks[t].Raised? <==> !NamesOnly(s.db[|s.db| - 1].domains, s.db[read].backends))
            && (Do(s, Query(t)).tasks[t].Raised? ==>
                  Do(s, Query(t)).current == s.current && Do(s, Query(t)).holder == None)
  {
    EveryRunKeepsInvariant(db, steps);
    assert TaskOk(s.tasks[t], t, Now(s), s.holder, s.current);
  }

  // ---------------------------------------------------------------- main results

  /** In every interleaving the snapshot never goes backwards in any table, and
      once there is one there always is one. */
  lemma {:induction false} SnapshotNeverGoesBack(db: Tables, steps: seq<Step>, n: nat)
    requires ForeignKeys(db.backends, db.domains)
    requires n <= |steps| && Legal(Initial(db), steps) && Legal(Initial(db), steps[..n])
    requires After(Initial(db), steps[..n]).current.Some?
    ensures After(Initial(db), steps).current.Some?
    ensures NotBefore(After(Initial(db), steps[..n]).current.value.stamps,
                      After(Initial(db), steps).current.value.stamps)
  {
    if n == |steps| {
      assert steps[..n] == steps;
    } else {
      var before := steps[..|steps| - 1];
      assert before[..n] == steps[..n];
      SnapshotNeverGoesBack(db, before, n);
      EveryRunKeepsInvariant(db, before);
      StepIsNewer(After(Initial(db), before), steps[|steps| - 1]);
    }
  }

  /** Once a refresh called after a commit has returned, the snapshot is at least
      as new as that commit in every table, then and at every later moment. */
  lemma ReadYourWrites(db: Tables, steps: seq<Step>, t: nat)
    requires ForeignKeys(db.backends, db.domains) && Legal(Initial(db), steps)
    requires var s := After(Initial(db), steps); t in s.tasks && s.tasks[t].Returned?
    ensures var s := After(Initial(db), steps);
            s.current.Some? && AtLeast(s.current.value.stamps, s.tasks[t].calledAt)
  {
    EveryRunKeepsInvariant(db, steps);
    var s := After(Initial(db), steps);
    assert TaskOk(s.tasks[t], t, Now(s), s.holder, s.current);
  }

  lemma BuildOfOne(db: seq<Tables>, st: Stamps, n: nat)
    requires n < |db| && st == Stamps(n, n, n, n)
    ensures Build(db, st) == View(db[n])
  {
  }

  /** When a refresh called after the last commit has returned, the data plane
      serves exactly the committed database, however many refreshes raced with it. */
  lemma QuiescentCacheIsExact(db: Tables, steps: seq<Step>, t: nat)
    requires ForeignKeys(db.backends, db.domains) && Legal(Initial(db), steps)
    requires var s := After(Initial(db), steps);
             t in s.tasks && s.tasks[t].Returned? && s.db != [] && s.tasks[t].calledAt == Now(s)
    ensures var s := After(Initial(db), steps);
            s.current.Some? && s.current.value.snapshot == View(s.db[Now(s)])
  {
    EveryRunKeepsInvariant(db, steps);
    var s := After(Initial(db), steps);
    assert TaskOk(s.tasks[t], t, Now(s), s.holder, s.current);
    BuildOfOne(s.db, s.current.value.stamps, Now(s));
  }

  /** A refresh that has ended stays as it ended. */
  lemma {:induction false} EndedStaysEnded(db: Tables, steps: seq<Step>, n: nat, t: nat)
    requires n <= |steps| && Legal(Initial(db), steps) && Legal(Initial(db), steps[..n])
    requires var s := After(Initial(db), steps[..n]); t in s.tasks && (s.tasks[t].Returned? || s.tasks[t].Raised?)
    ensures var s' := After(Initial(db), steps); t in s'.tasks && s'.tasks[t] == After(Initial(db), steps[..n]).tasks[t]
  {
    if n == |steps| {
      assert steps[..n] == steps;
    } else {
      assert steps[..|steps| - 1][..n] == steps[..n];
      EndedStaysEnded(db, steps[..|steps| - 1], n, t);
    }
  }

  /** In every run, a refresh that raised has never contributed the snapshot, at no earlier
      moment either: whatever is in force at any moment was loaded by a refresh that returned. */
  lemma FailureKeepsLastGood(db: Tables, earlier: seq<Step>, before: State, steps: seq<Step>, now: State)
    requires Reaches(db, earlier, before) && Reaches(db, steps, now) && earlier <= steps
    requires before.current.Some?
    ensures var t := before.current.value.tid; t in now.tasks && now.tasks[t].Returned?
  {
    assert steps[..|earlier|] == earlier;
    EveryRunKeepsInvariant(db, earlier);
    EndedStaysEnded(db, steps, |earlier|, before.current.value.tid);
  }

  /** While a refresh holds the lock nothing replaces the snapshot, so when it raises, what was
      in force when it took the lock still is. */
  lemma {:induction false} LoadingLeavesSnapshot(db: Tables, steps: seq<Step>, n: nat, t: nat)
    requires ForeignKeys(db.backends, db.domains)
    requires n <= |steps| && Legal(Initial(db), steps) && Legal(Initial(db), steps[..n])
    requires LoadingNow(After(Initial(db), steps[..n]), t)
    ensures var s, s' := After(Initial(db), steps[..n]), After(Initial(db), steps);
            && t in s'.tasks && !s'.tasks[t].Waiting?
            && (s'.tasks[t].Loading? ==> s'.current == s.current)
    ensures steps != [] && n < |steps| ==>
              var s, s' := After(Initial(db), steps[..n]), After(Initial(db), steps);
              var s1 := After(Initial(db), steps[..|steps| - 1]);
              t in s1.tasks && (s1.tasks[t].Loading? && s'.tasks[t].Raised? ==> s'.current == s.current)
  {
    if n == |steps| {
      assert steps[..n] == steps;
    } else {
      var before, last := steps[..|steps| - 1], steps[|steps| - 1];
      assert before[..n] == steps[..n];
      LoadingLeavesSnapshot(db, before, n, t);
      EveryRunKeepsInvariant(db, before);
      LoadingStep(After(Initial(db), before), last, t);
    }
  }

  lemma LoadingStep(s: State, step: Step, t: nat)
    requires Invariant(s) && Enabled(s, step) && t in s.tasks && !s.tasks[t].Waiting?
    ensures var s' := Do(s, step);
            && t in s'.tasks && !s'.tasks[t].Waiting?
            && (s'.tasks[t].Loading? ==> s.tasks[t].Loading?)
            && (s.tasks[t].Loading? && !s'.tasks[t].Returned? ==> s'.current == s.current)
  {
    assert TaskOk(s.tasks[t], t, Now(s), s.holder, s.current);
  }

  // ---------------------------------------------------------------- torn snapshots

  /** The snapshot in force, if any, is one committed database. */
  ghost predicate OneState(s: State) {
    s.current.Some? ==> exists i :: 0 <= i < |s.db| && s.current.value.snapshot == View(s.db[i])
  }

  /** The run ends with a snapshot whose queries saw these commits. */
  ghost predicate RunsTo(db: Tables, steps: seq<Step>, st: Stamps) {
    && ForeignKeys(db.backends, db.domains) && Legal(Initial(db), steps)
    && After(Initial(db), steps).current.Some? && After(Initial(db), steps).current.value.stamps == st
  }

  /** A load that no commit interrupts is a view of one committed database, and building from
      one committed database never fails. */
  lemma UninterruptedLoadIsAView(db: Tables, steps: seq<Step>, st: Stamps)
    requires RunsTo(db, steps, st) && st.tsig == st.ids
    ensures var s := After(Initial(db), steps);
            && st.tsig < |s.db| && s.current.value.snapshot == View(s.db[st.tsig])
            && forall n :: 0 <= n < |s.db| ==> Fits(s.db, HasDomains(n, n, n))
  {
    EveryRunKeepsInvariant(db, steps);
  }

  /** Empty tables up to commit `from`, one key from then on. */
  function KeyFrom(key: Name, from: nat, i: int): Tables {
    Tables(if i < from then map[] else map[key := 1], map[], map[])
  }

  function History(key: Name, from: nat, now: nat): (h: seq<Tables>)
    ensures |h| == now + 1 && forall i :: 0 <= i <= now ==> h[i] == KeyFrom(key, from, i)
  {
    seq(now + 1, i => KeyFrom(key, from, i))
  }

  /** One refresh, in the middle of its load. */
  function MidLoad(key: Name, from: nat, now: nat, load: Load): State {
    State(History(key, from, now), Some(0), map[0 := Loading(0, load)], None)
  }

  lemma {:induction false} CommitsUntil(key: Name, from: nat, steps: seq<Step>, now: nat, later: nat, load: Load)
    returns (more: seq<Step>)
    requires Legal(Initial(KeyFrom(key, from, 0)), steps) && now <= later
    requires After(Initial(KeyFrom(key, from, 0)), steps) == MidLoad(key, from, now, load)
    ensures Legal(Initial(KeyFrom(key, from, 0)), more)
    ensures After(Initial(KeyFrom(key, from, 0)), more) == MidLoad(key, from, later, load)
    decreases later - now
  {
    if now == later {
      more := steps;
    } else {
      var commit := Commit(KeyFrom(key, from, now + 1));
      OneMoreStep(Initial(KeyFrom(key, from, 0)), steps, commit);
      assert History(key, from, now) + [KeyFrom(key, from, now + 1)] == History(key, from, now + 1);
      more := CommitsUntil(key, from, steps + [commit], now + 1, later, load);
    }
  }

  /** The next query, after the commits that it is to see. */
  lemma QueryAt(key: Name, from: nat, steps: seq<Step>, now: nat, later: nat, load: Load) returns (more: seq<Step>)
    requires Legal(Initial(KeyFrom(key, from, 0)), steps) && now <= later && !load.HasAll?
    requires After(Initial(KeyFrom(key, from, 0)), steps) == MidLoad(key, from, now, load)
    ensures Legal(Initial(KeyFrom(key, from, 0)), more)
    ensures After(Initial(KeyFrom(key, from, 0)), more) == MidLoad(key, from, later, NextLoad(load, later))
  {
    more := CommitsUntil(key, from, steps, now, later, load);
    var s := MidLoad(key, from, later, load);
    OneMoreStep(Initial(KeyFrom(key, from, 0)), more, Query(0));
    assert Fits(s.db, NextLoad(load, later));
    assert s.tasks[0 := s.tasks[0].(load := NextLoad(load, later))] == map[0 := Loading(0, NextLoad(load, later))];
    more := more + [Query(0)];
  }

  lemma RefreshBegins(key: Name, from: nat) returns (steps: seq<Step>)
    ensures Legal(Initial(KeyFrom(key, from, 0)), steps)
    ensures After(Initial(KeyFrom(key, from, 0)), steps) == MidLoad(key, from, 0, Begun)
  {
    var s0 := Initial(KeyFrom(key, from, 0));
    OneMoreStep(s0, [], Call(0));
    OneMoreStep(s0, [] + [Call(0)], Acquire(0));
    steps := [] + [Call(0)] + [Acquire(0)];
    assert After(s0, steps).db == History(key, from, 0);
    assert After(s0, steps).tasks == map[0 := Loading(0, Begun)];
  }

  /** A load whose queries are to see any given commits: the schedule exists. */
  lemma LoadWithStamps(key: Name, st: Stamps) returns (steps: seq<Step>)
    requires Nondecreasing(st)
    ensures RunsTo(KeyFrom(key, st.ids, 0), steps, st)
    ensures var s := After(Initial(KeyFrom(key, st.ids, 0)), steps);
            s.db == History(key, st.ids, st.ids) && s.current.value.snapshot == Build(s.db, st)
  {
    var from := st.ids;
    steps := RefreshBegins(key, from);
    steps := QueryAt(key, from, steps, 0, st.tsig, Begun);
    steps := QueryAt(key, from, steps, st.tsig, st.backends, HasTsig(st.tsig));
    steps := QueryAt(key, from, steps, st.backends, st.domains, HasBackends(st.tsig, st.backends));
    steps := QueryAt(key, from, steps, st.domains, st.ids, HasDomains(st.tsig, st.backends, st.domains));
    OneMoreStep(Initial(KeyFrom(key, from, 0)), steps, Swap(0));
    steps := steps + [Swap(0)];
  }

  /** A commit between the first and the last query can tear: a key committed then has an id in
      the snapshot and no entry in its keyring, which no committed database shows. */
  lemma InterruptedLoadCanTear(key: Name, st: Stamps) returns (steps: seq<Step>)
    requires Nondecreasing(st) && st.tsig < st.ids
    ensures RunsTo(KeyFrom(key, st.ids, 0), steps, st)
    ensures !OneState(After(Initial(KeyFrom(key, st.ids, 0)), steps))
  {
    steps := LoadWithStamps(key, st);
    var s := After(Initial(KeyFrom(key, st.ids, 0)), steps);
    var snapshot := s.current.value.snapshot;
    assert key in snapshot.keyIds && key !in snapshot.keyring;
    forall i | 0 <= i < |s.db| ensures snapshot != View(s.db[i]) {
      assert key in View(s.db[i]).keyring <==> key in View(s.db[i]).keyIds;
    }
  }

  /** Whatever the commits hold, the snapshot of a load is one committed database, exactly when
      no commit falls between the first and the last query of the load. */
  lemma SnapshotIsOneStateIff(st: Stamps)
    requires Nondecreasing(st)
    ensures (forall db, steps :: RunsTo(db, steps, st) ==> OneState(After(Initial(db), steps))) <==> st.tsig == st.ids
  {
    if st.tsig == st.ids {
      forall db, steps | RunsTo(db, steps, st) ensures OneState(After(Initial(db), steps)) {
        UninterruptedLoadIsAView(db, steps, st);
      }
    } else {
      var steps := InterruptedLoadCanTear([], st);
      assert RunsTo(KeyFrom([], st.ids, 0), steps, st);
    }
  }

  /** And the queries of every load of every run do see ever later commits. */
  lemma StampsAreNondecreasing(db: Tables, steps: seq<Step>, st: Stamps)
    requires RunsTo(db, steps, st)
    ensures Nondecreasing(st) && After(Initial(db), steps).db != [] && st.ids <= Now(After(Initial(db), steps))
  {
    EveryRunKeepsInvariant(db, steps);
  }

  lemma OneMoreStep(s0: State, steps: seq<Step>, step: Step)
    requires Legal(s0, steps) && Enabled(After(s0, steps), step)
    ensures Legal(s0, steps + [step]) && After(s0, steps + [step]) == Do(After(s0, steps), step)
  {
    assert (steps + [step])[..|steps|] == steps;
  }
}
