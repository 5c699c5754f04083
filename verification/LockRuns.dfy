/** All runs of the tasks that use one table of locks, and what is evicted from it. */
module LockRuns {
  import opened OrderedDict
  import opened LockRegistry

  datatype Event<K> = Enters(task: Task, key: K) | Resumes(task: Task) | Leaves(task: Task)

  /** A table together with when each of its keys was last asked for, and when each task entered. */
  datatype Watched<!K(==)> = Watched(registry: Registry<K>, steps: nat, gotAt: map<K, nat>, enteredAt: map<Task, nat>)

  predicate Enabled<K(==)>(w: Watched<K>, e: Event<K>) {
    match e
    case Enters(t, _) => t !in w.registry.uses
    case Resumes(t) => CanGrant(w.registry, t)
    case Leaves(t) => Using(w.registry, t) && w.registry.locks[w.registry.uses[t].lock].users > 0
  }

  function Step<K(==)>(w: Watched<K>, e: Event<K>): Watched<K>
    requires Enabled(w, e)
  {
    match e
    case Enters(t, key) =>
      (match Enter(w.registry, t, key)
       case None => w.(steps := w.steps + 1)
       case Some(r) => Watched(r, w.steps + 1, w.gotAt[key := w.steps], w.enteredAt[t := w.steps]))
    case Resumes(t) => w.(registry := Grant(w.registry, t), steps := w.steps + 1)
    case Leaves(t) => w.(registry := Leave(w.registry, t), steps := w.steps + 1)
  }

  ghost predicate Recent<K>(keys: seq<K>, gotAt: map<K, nat>, now: nat) {
    Ascending(keys, gotAt) && forall k :: k in keys ==> k in gotAt && gotAt[k] < now
  }

  ghost predicate Inv<K(!new)>(w: Watched<K>) {
    Ok(w.registry) && Recent(w.registry.table.keys, w.gotAt, w.steps)
  }

  lemma {:induction false} AscendingSnoc<K(!new)>(keys: seq<K>, rank: map<K, nat>, k: K, top: nat)
    requires Ascending(keys, rank) && k !in keys
    requires forall j :: j in keys ==> rank[j] < top
    ensures Ascending(keys + [k], rank[k := top])
  {
    AscendingMoved(keys, rank, k, top);
    assert Without(keys, k) == keys;
  }

  lemma GetIsRecent<K(!new)>(w: Watched<K>, key: K)
    requires Inv(w) && GetLock(w.registry, key).Some?
    ensures Recent(GetLock(w.registry, key).value.table.keys, w.gotAt[key := w.steps], w.steps + 1)
  {
    hide LockOk, UsesOk, Ascending, Distinct;
    var keys := w.registry.table.keys;
    FirstInIsFirst(keys, IdleKeys(w.registry));
    match Lookup(w.registry.table, w.registry.capacity, IdleKeys(w.registry), key)
    case Existing => AscendingMoved(keys, w.gotAt, key, w.steps);
    case Room => AscendingSnoc(keys, w.gotAt, key, w.steps);
    case Evict(victim) =>
      AscendingWithout(keys, w.gotAt, victim);
      AscendingSnoc(Without(keys, victim), w.gotAt, key, w.steps);
    case Full =>
  }

  lemma StepKeeps<K(!new)>(w: Watched<K>, e: Event<K>)
    requires Inv(w) && Enabled(w, e)
    ensures Inv(Step(w, e))
  {
    hide Ok, Ascending;
    match e
    case Enters(t, key) =>
      if Enter(w.registry, t, key).Some? {
        EnterKeeps(w.registry, t, key);
        GetIsRecent(w, key);
      }
    case Resumes(t) => GrantKeeps(w.registry, t);
    case Leaves(t) => LeaveKeeps(w.registry, t);
  }

  ghost predicate IsRun<K(!new)>(ws: seq<Watched<K>>, es: seq<Event<K>>, capacity: nat) {
    && |ws| == |es| + 1
    && ws[0] == Watched(NewRegistry(capacity), 0, map[], map[])
    && forall i :: 0 <= i < |es| ==> Enabled(ws[i], es[i]) && ws[i + 1] == Step(ws[i], es[i])
  }

  lemma {:induction false} RunKeeps<K(!new)>(ws: seq<Watched<K>>, es: seq<Event<K>>, capacity: nat, i: nat)
    requires IsRun(ws, es, capacity) && i < |ws|
    ensures Inv(ws[i]) && ws[i].registry.capacity == capacity
  {
    hide Inv, Enabled;
    if i == 0 {
      StartOk<K>(capacity);
    } else {
      RunKeeps(ws, es, capacity, i - 1);
      StepKeeps(ws[i - 1], es[i - 1]);
      StepKeepsCapacity(ws[i - 1], es[i - 1]);
      hide Step;
    }
  }

  lemma StartOk<K(!new)>(capacity: nat)
    ensures Inv(Watched(NewRegistry<K>(capacity), 0, map[], map[]))
  {
  }

  lemma StepKeepsCapacity<K>(w: Watched<K>, e: Event<K>)
    requires Enabled(w, e)
    ensures Step(w, e).registry.capacity == w.registry.capacity
  {
  }

  /**
   * In every run: the table never exceeds its capacity, each lock's user count is the number of
   * tasks holding or waiting for it, a lock in use is still its key's entry, and at most one task
   * is in the critical section of a key.
   */
  lemma RegistryIsSafe<K(!new)>(ws: seq<Watched<K>>, es: seq<Event<K>>, capacity: nat, i: nat)
    requires IsRun(ws, es, capacity) && i < |ws|
    ensures var r := ws[i].registry;
      && |r.table.keys| <= capacity
      && (forall l :: 0 <= l < |r.locks| ==> r.locks[l].users == |UsersOf(r.uses, l)|)
      && (forall t :: t in r.uses ==> r.uses[t].key in r.table.values && r.table.values[r.uses[t].key] == r.uses[t].lock)
      && (forall s, t :: Holds(r, s) && Holds(r, t) && r.uses[s].key == r.uses[t].key ==> s == t)
  {
    RunKeeps(ws, es, capacity, i);
    var r := ws[i].registry;
    forall l | 0 <= l < |r.locks| ensures r.locks[l].users == |UsersOf(r.uses, l)| {
      assert LockOk(r.locks[l], r.uses, l);
    }
    hide LockOk, IsRun;
    forall s, t | Holds(r, s) && Holds(r, t) && r.uses[s].key == r.uses[t].key ensures s == t {
      MutualExclusion(r, s, t);
    }
  }

  /** An evicted lock is idle, and was asked for longest ago among the idle ones. */
  lemma EvictsOldestIdle<K(!new)>(ws: seq<Watched<K>>, es: seq<Event<K>>, capacity: nat, i: nat, victim: K, k: K)
    requires IsRun(ws, es, capacity) && i < |es| && es[i].Enters?
    requires victim in ws[i].registry.table.values && victim !in ws[i + 1].registry.table.values
    requires k in IdleKeys(ws[i].registry)
    ensures victim in IdleKeys(ws[i].registry)
    ensures |ws[i].registry.table.keys| == capacity && es[i].key !in ws[i].registry.table.values
    ensures victim in ws[i].gotAt && k in ws[i].gotAt && ws[i].gotAt[victim] <= ws[i].gotAt[k]
  {
    hide LockOk, UsesOk, Ascending, Distinct, GetLock, Step;
    RunKeeps(ws, es, capacity, i);
    assert Enabled(ws[i], es[i]) && ws[i + 1] == Step(ws[i], es[i]);
    LeavesTable(ws[i], es[i], victim);
    hide IsRun;
    GoneIsVictim(ws[i].registry, es[i].key, victim);
    OldestFirst(ws[i].registry.table.keys, IdleKeys(ws[i].registry), ws[i].gotAt, victim, k);
  }

  lemma LeavesTable<K>(w: Watched<K>, e: Event<K>, victim: K)
    requires Enabled(w, e) && e.Enters?
    requires victim in w.registry.table.values && victim !in Step(w, e).registry.table.values
    ensures GetLock(w.registry, e.key).Some? && victim !in GetLock(w.registry, e.key).value.table.values
  {
    hide GetLock;
  }

  /** Only eviction takes a lock out of a table. */
  lemma GoneIsVictim<K(!new)>(r: Registry<K>, key: K, victim: K)
    requires TableOk(r.table, r.capacity, |r.locks|)
    requires victim in r.table.values
    requires GetLock(r, key).Some? && victim !in GetLock(r, key).value.table.values
    ensures key !in r.table.values && |r.table.keys| == r.capacity && FirstIn(r.table.keys, IdleKeys(r)) == Some(victim)
  {
    hide Distinct, IdleKeys;
  }

  lemma OldestFirst<K(!new)>(keys: seq<K>, idle: set<K>, gotAt: map<K, nat>, victim: K, k: K)
    requires Ascending(keys, gotAt) && FirstIn(keys, idle) == Some(victim) && k in idle && k in keys
    requires forall j :: j in keys ==> j in gotAt
    ensures victim in keys && victim in idle && gotAt[victim] <= gotAt[k]
  {
    hide Ascending;
    FirstInIsFirst(keys, idle);
    var a :| 0 <= a < |keys| && keys[a] == victim && forall j :: 0 <= j < a ==> keys[j] !in idle;
    var b :| 0 <= b < |keys| && keys[b] == k;
    if a < b { AscendingOrder(keys, gotAt, a, b); }
  }

  // ---------------------------------------------------------------- first come, first served

  /** The tasks queue in the order in which they entered. */
  ghost predicate Queued(waiters: seq<Task>, enteredAt: map<Task, nat>, now: nat) {
    && (forall i :: 0 <= i < |waiters| ==> waiters[i] in enteredAt && enteredAt[waiters[i]] < now)
    && forall i, j :: 0 <= i < j < |waiters| ==>
      waiters[i] in enteredAt && waiters[j] in enteredAt && enteredAt[waiters[i]] < enteredAt[waiters[j]]
  }

  ghost predicate AllQueued<K>(locks: seq<Lock>, enteredAt: map<Task, nat>, now: nat) {
    forall l :: 0 <= l < |locks| ==> Queued(locks[l].waiters, enteredAt, now)
  }

  lemma {:induction false} QueuedWithout(waiters: seq<Task>, enteredAt: map<Task, nat>, now: nat, t: Task)
    requires Queued(waiters, enteredAt, now)
    ensures Queued(Without(waiters, t), enteredAt, now)
  {
    if waiters != [] {
      var rest := waiters[1..];
      assert Queued(rest, enteredAt, now);
      QueuedWithout(rest, enteredAt, now, t);
      if waiters[0] != t {
        forall j | 0 <= j < |Without(rest, t)| ensures enteredAt[waiters[0]] < enteredAt[Without(rest, t)[j]] {
          assert Without(rest, t)[j] in rest;
          var k :| 0 <= k < |rest| && rest[k] == Without(rest, t)[j];
          assert waiters[k + 1] == rest[k];
        }
      }
    }
  }

  lemma QueuedLater(waiters: seq<Task>, enteredAt: map<Task, nat>, now: nat, t: Task)
    requires Queued(waiters, enteredAt, now) && t !in waiters
    ensures Queued(waiters, enteredAt[t := now], now + 1) && Queued(waiters + [t], enteredAt[t := now], now + 1)
    ensures Queued([], enteredAt, now)
  {
  }

  /** A task that waits is among the users of its lock. */
  lemma WaitersUse<K(!new)>(r: Registry<K>, l: LockId, t: Task)
    requires Ok(r) && l < |r.locks| && t !in r.uses
    ensures t !in r.locks[l].waiters
  {
    assert LockOk(r.locks[l], r.uses, l);
  }

  /** Entering puts the task last in one queue at most, and adds an empty queue at most. */
  lemma EnteredWaiters<K>(r: Registry<K>, t: Task, key: K)
    requires Enter(r, t, key).Some?
    ensures var r' := Enter(r, t, key).value;
      && |r.locks| <= |r'.locks|
      && (forall l :: 0 <= l < |r.locks| ==>
          r'.locks[l].waiters == r.locks[l].waiters || r'.locks[l].waiters == r.locks[l].waiters + [t] || r'.locks[l].waiters == [])
      && forall l :: |r.locks| <= l < |r'.locks| ==> r'.locks[l].waiters == []
  {
  }

  lemma EnterQueues<K(!new)>(w: Watched<K>, t: Task, key: K)
    requires Ok(w.registry) && t !in w.registry.uses && Enter(w.registry, t, key).Some?
    requires AllQueued<K>(w.registry.locks, w.enteredAt, w.steps)
    ensures AllQueued<K>(Enter(w.registry, t, key).value.locks, w.enteredAt[t := w.steps], w.steps + 1)
  {
    var r, r' := w.registry, Enter(w.registry, t, key).value;
    EnteredWaiters(r, t, key);
    hide Enter, GetLock;
    forall l | 0 <= l < |r'.locks| ensures Queued(r'.locks[l].waiters, w.enteredAt[t := w.steps], w.steps + 1) {
      if l < |r.locks| {
        WaitersUse(r, l, t);
        QueuedLater(r.locks[l].waiters, w.enteredAt, w.steps, t);
      } else {
        QueuedLater([], w.enteredAt, w.steps, t);
      }
      hide Queued, Ok;
    }
  }

  lemma StepQueues<K(!new)>(w: Watched<K>, e: Event<K>)
    requires Ok(w.registry) && Enabled(w, e) && AllQueued<K>(w.registry.locks, w.enteredAt, w.steps)
    ensures AllQueued<K>(Step(w, e).registry.locks, Step(w, e).enteredAt, Step(w, e).steps)
  {
    match e
    case Enters(t, key) =>
      hide Ok, Enter;
      if Enter(w.registry, t, key).Some? { EnterQueues(w, t, key); }
    case Resumes(_) =>
      hide Ok, Enter;
    case Leaves(t) =>
      hide Ok, Enter;
      QueuedWithout(w.registry.locks[w.registry.uses[t].lock].waiters, w.enteredAt, w.steps, t);
  }

  lemma {:induction false} RunQueues<K(!new)>(ws: seq<Watched<K>>, es: seq<Event<K>>, capacity: nat, i: nat)
    requires IsRun(ws, es, capacity) && i < |ws|
    ensures AllQueued<K>(ws[i].registry.locks, ws[i].enteredAt, ws[i].steps)
  {
    if i > 0 {
      hide Step, Enabled, AllQueued, Ok, Recent;
      RunQueues(ws, es, capacity, i - 1);
      RunKeeps(ws, es, capacity, i - 1);
      StepQueues(ws[i - 1], es[i - 1]);
    }
  }

  /** A lock goes to the task that has waited for it longest. */
  lemma FirstComeFirstServed<K(!new)>(ws: seq<Watched<K>>, es: seq<Event<K>>, capacity: nat, i: nat, other: Task)
    requires IsRun(ws, es, capacity) && i < |es| && es[i].Resumes?
    requires es[i].task in ws[i].registry.uses && ws[i].registry.uses[es[i].task].lock < |ws[i].registry.locks|
    requires other in ws[i].registry.locks[ws[i].registry.uses[es[i].task].lock].waiters && other != es[i].task
    ensures es[i].task in ws[i].enteredAt && other in ws[i].enteredAt
    ensures ws[i].enteredAt[es[i].task] < ws[i].enteredAt[other]
  {
    RunQueues(ws, es, capacity, i);
    assert Enabled(ws[i], es[i]);
    hide IsRun;
    var waiters := ws[i].registry.locks[ws[i].registry.uses[es[i].task].lock].waiters;
    assert Queued(waiters, ws[i].enteredAt, ws[i].steps);
    var j :| 0 <= j < |waiters| && waiters[j] == other;
  }

  /** A task enters at the step at which it asks, and not before it has left. */
  lemma EnteredWhenAsked<K>(w: Watched<K>, e: Event<K>)
    requires Enabled(w, e)
    ensures Step(w, e).steps == w.steps + 1
    ensures Step(w, e).enteredAt ==
      if e.Enters? && Enter(w.registry, e.task, e.key).Some? then w.enteredAt[e.task := w.steps] else w.enteredAt
  {
    hide Enter;
  }
}
