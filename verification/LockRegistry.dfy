/**
 * A bounded table of locks, one per key, that evicts the least recently requested idle lock.
 *
 * The first part is the code itself, acting on shared objects. The second part has one value for
 * the table, its locks and the tasks that hold or wait for them, and what one step of a task, from
 * one suspension point to the next, does to it.
 */
module LockRegistry {
  import opened OrderedDict

  type Task = nat

  /** A lock with its first-come-first-served queue, and the tasks counted as using it. */
  datatype Lock = Lock(users: nat, holder: Option<Task>, waiters: seq<Task>) {
    predicate Free() { holder.None? && waiters == [] }

    /** Entering `acquire()`: count as a user, then take the lock or queue for it. */
    function Enter(t: Task): Lock {
      if Free() then Lock(users + 1, Some(t), []) else Lock(users + 1, holder, waiters + [t])
    }

    predicate CanGrant(t: Task) { holder.None? && waiters != [] && waiters[0] == t }

    function Grant(): Lock
      requires holder.None? && waiters != []
    {
      Lock(users, Some(waiters[0]), waiters[1..])
    }

    /** Leaving `acquire()`: by the end of the block, by an exception in it, or by cancellation while queued. */
    function Leave(t: Task): Lock
      requires users > 0
    {
      if holder == Some(t) then Lock(users - 1, None, waiters) else Lock(users - 1, holder, Without(waiters, t))
    }
  }

  const NEW_LOCK := Lock(0, None, [])

  datatype Found<K> = Existing | Room | Evict(victim: K) | Full

  function FirstIn<K(==)>(keys: seq<K>, idle: set<K>): Option<K> {
    if keys == [] then None else if keys[0] in idle then Some(keys[0]) else FirstIn(keys[1..], idle)
  }

  /** What `get` finds for `key`. */
  function Lookup<K(==), V>(table: OrderedDict<K, V>, capacity: nat, idle: set<K>, key: K): Found<K> {
    if key in table.values then Existing
    else if |table.keys| < capacity then Room
    else match FirstIn(table.keys, idle)
         case Some(victim) => Evict(victim)
         case None => Full
  }

  lemma {:induction false} FirstInIsFirst<K>(keys: seq<K>, idle: set<K>)
    ensures match FirstIn(keys, idle)
      case None => forall k :: k in keys ==> k !in idle
      case Some(k) => k in idle && exists i :: 0 <= i < |keys| && keys[i] == k && forall j :: 0 <= j < i ==> keys[j] !in idle
  {
    if keys != [] && keys[0] !in idle {
      FirstInIsFirst(keys[1..], idle);
      var rest := FirstIn(keys[1..], idle);
      if rest.Some? {
        var i :| 0 <= i < |keys[1..]| && keys[1..][i] == rest.value && forall j :: 0 <= j < i ==> keys[1..][j] !in idle;
        assert keys[i + 1] == rest.value;
        forall j | 0 <= j < i + 1 ensures keys[j] !in idle {
          if j > 0 { assert keys[1..][j - 1] == keys[j]; }
        }
      }
    }
  }

  // ---------------------------------------------------------------- the code

  class TrackedLock {
    var holder: Option<Task>
    var waiters: seq<Task>
    var users: nat

    ghost function State(): Lock
      reads this
    {
      Lock(users, holder, waiters)
    }

    constructor ()
      ensures State() == NEW_LOCK
    {
      holder, waiters, users := None, [], 0;
    }

    method Enter(t: Task) returns (acquired: bool)
      modifies this
      ensures State() == old(State()).Enter(t)
      ensures acquired <==> old(State()).Free()
    {
      users := users + 1;
      if holder.None? && waiters == [] {
        holder := Some(t);
        return true;
      }
      waiters := waiters + [t];
      return false;
    }

    method Resume(t: Task)
      requires State().CanGrant(t)
      modifies this
      ensures State() == old(State()).Grant() && holder == Some(t)
    {
      waiters := waiters[1..];
      holder := Some(t);
    }

    method Exit(t: Task)
      requires users > 0
      modifies this
      ensures State() == old(State()).Leave(t)
    {
      if holder == Some(t) {
        holder := None;
      } else {
        waiters := Without(waiters, t);
      }
      users := users - 1;
    }
  }

  class BoundedLockRegistry<K(==, !new)> {
    const maxCapacity: nat
    var locks: OrderedDict<K, TrackedLock>

    ghost predicate Valid()
      reads this
    {
      && locks.Valid()
      && 1 <= maxCapacity
      && |locks.keys| <= maxCapacity
      && forall j, k :: j in locks.values && k in locks.values && j != k ==> locks.values[j] != locks.values[k]
    }

    ghost function Idle(): set<K>
      reads this, locks.values.Values
    {
      set k | k in locks.values && locks.values[k].users == 0
    }

    constructor (maxCapacity: nat)
      requires maxCapacity >= 1
      ensures Valid() && locks == Empty() && this.maxCapacity == maxCapacity
    {
      this.maxCapacity := maxCapacity;
      locks := Empty();
    }

    /** Building a registry: a capacity below 1 is an error. */
    static method Make(capacity: int) returns (r: Option<BoundedLockRegistry<K>>)
      ensures r.Some? <==> capacity >= 1
      ensures r.Some? ==> fresh(r.value) && r.value.Valid() && r.value.locks == Empty() && r.value.maxCapacity == capacity
    {
      if capacity < 1 { return None; }
      var registry := new BoundedLockRegistry<K>(capacity);
      return Some(registry);
    }

    /** The scan of a full table: drop the oldest idle lock, if there is one. */
    method EvictIdle() returns (evicted: bool)
      requires Valid()
      modifies this`locks
      ensures Valid()
      ensures match FirstIn(old(locks).keys, old(Idle()))
        case Some(victim) => evicted && victim in old(locks).values && locks == old(locks).Pop(victim)
        case None => !evicted && locks == old(locks)
    {
      hide Distinct;
      var keys := locks.keys;
      ghost var idle := Idle();
      var i := 0;
      while i < |keys| && locks.values[keys[i]].users != 0
        invariant 0 <= i <= |keys|
        invariant FirstIn(keys, idle) == FirstIn(keys[i..], idle)
      {
        assert keys[i] !in idle;
        i := i + 1;
      }
      if i == |keys| { return false; }
      assert keys[i] in idle;
      Popped(locks, keys[i]);
      locks := locks.Pop(keys[i]);
      return true;
    }

    /**
     * The lock of `key`: the one in the table, moved to the newest place, or a fresh one, put in
     * the place of the oldest idle lock when the table is full. `None` is the error of a table
     * that is full of locks in use.
     */
    method Get(key: K) returns (lock: Option<TrackedLock>)
      requires Valid()
      modifies this`locks
      ensures Valid()
      ensures match Lookup(old(locks), maxCapacity, old(Idle()), key)
        case Existing => lock == Some(old(locks).values[key]) && locks == old(locks).MoveToEnd(key)
        case Room => lock.Some? && fresh(lock.value) && locks == old(locks).Put(key, lock.value)
        case Evict(victim) => lock.Some? && fresh(lock.value) && locks == old(locks).Pop(victim).Put(key, lock.value)
        case Full => lock.None? && locks == old(locks)
      ensures lock.Some? ==> key in locks.values && locks.values[key] == lock.value
      ensures lock.Some? && fresh(lock.value) ==> lock.value.State() == NEW_LOCK
    {
      hide Distinct, FirstIn;
      if key in locks.values {
        Moved(locks, key);
        locks := locks.MoveToEnd(key);
        return Some(locks.values[key]);
      }
      if |locks.keys| >= maxCapacity {
        ghost var before := locks;
        var evicted := EvictIdle();
        if !evicted { return None; }
        Popped(before, FirstIn(before.keys, old(Idle())).value);
      }
      var created := new TrackedLock();
      Added(locks, key, created);
      locks := locks.Put(key, created);
      return Some(created);
    }
  }

  // ---------------------------------------------------------------- all the tasks of one table

  type LockId = nat

  /** A task inside `registry.get(key).acquire()`. The lock's number stands for its identity. */
  datatype Use<K> = Use(key: K, lock: LockId)

  datatype Registry<!K(==)> = Registry(
    capacity: nat,
    table: OrderedDict<K, LockId>,
    locks: seq<Lock>,
    uses: map<Task, Use<K>>)

  function NewRegistry<K(==)>(capacity: nat): Registry<K> {
    Registry(capacity, Empty(), [], map[])
  }

  function IdleKeys<K(==)>(r: Registry<K>): set<K> {
    set k | k in r.table.keys && k in r.table.values && r.table.values[k] < |r.locks| && r.locks[r.table.values[k]].users == 0
  }

  /** The table and the locks after `get(key)`, unless it fails. */
  function GetLock<K(==)>(r: Registry<K>, key: K): Option<Registry<K>> {
    match Lookup(r.table, r.capacity, IdleKeys(r), key)
    case Existing => Some(r.(table := r.table.MoveToEnd(key)))
    case Room => Some(r.(table := r.table.Put(key, |r.locks|), locks := r.locks + [NEW_LOCK]))
    case Evict(victim) => Some(r.(table := r.table.Pop(victim).Put(key, |r.locks|), locks := r.locks + [NEW_LOCK]))
    case Full => None
  }

  /** `registry.get(key).acquire()` up to where it may suspend. */
  function Enter<K(==)>(r: Registry<K>, t: Task, key: K): Option<Registry<K>> {
    match GetLock(r, key)
    case None => None
    case Some(g) =>
      if key in g.table.values && g.table.values[key] < |g.locks| then
        var l := g.table.values[key];
        Some(g.(locks := g.locks[l := g.locks[l].Enter(t)], uses := g.uses[t := Use(key, l)]))
      else None
  }

  predicate Using<K(==)>(r: Registry<K>, t: Task) {
    t in r.uses && r.uses[t].lock < |r.locks|
  }

  predicate Holds<K(==)>(r: Registry<K>, t: Task) {
    Using(r, t) && r.locks[r.uses[t].lock].holder == Some(t)
  }

  predicate CanGrant<K(==)>(r: Registry<K>, t: Task) {
    Using(r, t) && r.locks[r.uses[t].lock].CanGrant(t)
  }

  function Grant<K(==)>(r: Registry<K>, t: Task): Registry<K>
    requires CanGrant(r, t)
  {
    var l := r.uses[t].lock;
    r.(locks := r.locks[l := r.locks[l].Grant()])
  }

  function Leave<K(==)>(r: Registry<K>, t: Task): Registry<K>
    requires Using(r, t) && r.locks[r.uses[t].lock].users > 0
  {
    var l := r.uses[t].lock;
    r.(locks := r.locks[l := r.locks[l].Leave(t)], uses := r.uses - {t})
  }

  function UsersOf<K(==)>(uses: map<Task, Use<K>>, l: LockId): set<Task> {
    set t | t in uses && uses[t].lock == l
  }

  /** A lock's count and queue agree with the tasks inside its `acquire()`. */
  ghost predicate LockOk<K>(lock: Lock, uses: map<Task, Use<K>>, l: LockId) {
    && lock.users == |UsersOf(uses, l)|
    && Distinct(lock.waiters)
    && (lock.holder.Some? ==> lock.holder.value in UsersOf(uses, l))
    && (forall t :: t in lock.waiters ==> t in UsersOf(uses, l) && lock.holder != Some(t))
    && (forall t :: t in UsersOf(uses, l) ==> t in lock.waiters || lock.holder == Some(t))
  }

  ghost predicate TableOk<K(!new)>(table: OrderedDict<K, LockId>, capacity: nat, n: nat) {
    && table.Valid()
    && |table.keys| <= capacity
    && (forall k :: k in table.values ==> table.values[k] < n)
    && (forall j, k :: j in table.values && k in table.values && j != k ==> table.values[j] != table.values[k])
  }

  /** A lock in use is still the table's lock for its key. */
  ghost predicate UsesOk<K>(uses: map<Task, Use<K>>, table: OrderedDict<K, LockId>) {
    forall t :: t in uses ==> uses[t].key in table.values && table.values[uses[t].key] == uses[t].lock
  }

  ghost predicate Ok<K(!new)>(r: Registry<K>) {
    && TableOk(r.table, r.capacity, |r.locks|)
    && UsesOk(r.uses, r.table)
    && forall l :: 0 <= l < |r.locks| ==> LockOk(r.locks[l], r.uses, l)
  }

  /** `get` fails exactly when the key is new, the table is full and every lock in it is in use. */
  lemma GetFailsOnlyWhenAllInUse<K(!new)>(r: Registry<K>, t: Task, key: K)
    requires Ok(r)
    ensures Enter(r, t, key).None? <==>
      && key !in r.table.values
      && |r.table.keys| == r.capacity
      && forall k :: k in r.table.values ==> r.locks[r.table.values[k]].users > 0
  {
    hide LockOk, UsesOk;
    FirstInIsFirst(r.table.keys, IdleKeys(r));
  }

  lemma GetKeeps<K(!new)>(r: Registry<K>, key: K)
    requires Ok(r) && GetLock(r, key).Some?
    ensures var g := GetLock(r, key).value;
      Ok(g) && key in g.table.values && g.table.values[key] < |g.locks| && g.uses == r.uses
  {
    hide LockOk, TableOk, UsesOk, Lookup;
    GetKeepsTable(r, key);
    NewLockOk(r, |r.locks|);
  }

  lemma GetKeepsTable<K(!new)>(r: Registry<K>, key: K)
    requires Ok(r) && GetLock(r, key).Some?
    ensures var g := GetLock(r, key).value; TableOk(g.table, g.capacity, |g.locks|) && UsesOk(g.uses, g.table)
    ensures var g := GetLock(r, key).value; key in g.table.values && g.table.values[key] < |g.locks|
  {
    hide LockOk, TableOk, UsesOk, UsersOf;
    FirstInIsFirst(r.table.keys, IdleKeys(r));
    match Lookup(r.table, r.capacity, IdleKeys(r), key)
    case Existing => MovedTable(r.table, r.capacity, |r.locks|, r.uses, key);
    case Room => GrownTable(r.table, r.capacity, |r.locks|, r.uses, key);
    case Evict(victim) => EvictedTable(r, victim, key);
    case Full =>
  }

  lemma EvictedTable<K(!new)>(r: Registry<K>, victim: K, key: K)
    requires Ok(r) && victim in IdleKeys(r) && key !in r.table.values
    ensures var table := r.table.Pop(victim).Put(key, |r.locks|);
      && TableOk(table, r.capacity, |r.locks| + 1)
      && UsesOk(r.uses, table)
      && table.values[key] == |r.locks|
  {
    hide LockOk, TableOk, UsesOk, UsersOf;
    IdleHasNoUsers(r, victim);
    ShrunkTable(r.table, r.capacity, |r.locks|, r.uses, victim);
    GrownTable(r.table.Pop(victim), r.capacity, |r.locks|, r.uses, key);
  }

  lemma MovedTable<K(!new)>(table: OrderedDict<K, LockId>, capacity: nat, n: nat, uses: map<Task, Use<K>>, key: K)
    requires TableOk(table, capacity, n) && UsesOk(uses, table) && key in table.values
    ensures TableOk(table.MoveToEnd(key), capacity, n) && UsesOk(uses, table.MoveToEnd(key)) && table.values[key] < n
  {
    hide Distinct;
    Moved(table, key);
  }

  lemma ShrunkTable<K(!new)>(table: OrderedDict<K, LockId>, capacity: nat, n: nat, uses: map<Task, Use<K>>, key: K)
    requires TableOk(table, capacity, n) && UsesOk(uses, table)
    requires key in table.values && forall t :: t in uses ==> uses[t].key != key
    ensures TableOk(table.Pop(key), capacity, n) && UsesOk(uses, table.Pop(key))
    ensures |table.Pop(key).keys| < capacity
  {
    hide Distinct;
    Popped(table, key);
  }

  lemma GrownTable<K(!new)>(table: OrderedDict<K, LockId>, capacity: nat, n: nat, uses: map<Task, Use<K>>, key: K)
    requires TableOk(table, capacity, n) && UsesOk(uses, table)
    requires key !in table.values && |table.keys| < capacity
    ensures TableOk(table.Put(key, n), capacity, n + 1) && UsesOk(uses, table.Put(key, n))
  {
  }

  lemma NewLockOk<K(!new)>(r: Registry<K>, l: LockId)
    requires Ok(r) && l == |r.locks|
    ensures LockOk(NEW_LOCK, r.uses, l)
  {
    assert UsersOf(r.uses, l) == {};
  }

  lemma IdleHasNoUsers<K(!new)>(r: Registry<K>, k: K)
    requires Ok(r) && k in IdleKeys(r)
    ensures forall t :: t in r.uses ==> r.uses[t].key != k
  {
    var l := r.table.values[k];
    assert LockOk(r.locks[l], r.uses, l);
    assert UsersOf(r.uses, l) == {};
    forall t | t in r.uses ensures r.uses[t].key != k {
      assert t !in UsersOf(r.uses, l);
    }
  }

  lemma EnterKeeps<K(!new)>(r: Registry<K>, t: Task, key: K)
    requires Ok(r) && t !in r.uses && Enter(r, t, key).Some?
    ensures Ok(Enter(r, t, key).value)
    ensures var r' := Enter(r, t, key).value; r'.uses.Keys == r.uses.Keys + {t} && r'.uses[t].key == key
    ensures forall s :: s in r.uses ==> Enter(r, t, key).value.uses[s] == r.uses[s]
    ensures forall s :: Holds(r, s) ==> Holds(Enter(r, t, key).value, s)
  {
    hide TableOk, UsesOk, Lookup;
    GetKeeps(r, key);
    var g, r' := GetLock(r, key).value, Enter(r, t, key).value;
    var l := g.table.values[key];
    EnteredOk(g.locks[l], g.uses, l, t, key);
    forall i | 0 <= i < |g.locks| && i != l ensures LockOk(r'.locks[i], r'.uses, i) {
      assert LockOk(g.locks[i], g.uses, i);
      assert UsersOf(r'.uses, i) == UsersOf(g.uses, i);
    }
    EnteredUses(g.uses, g.table, t, key);
    forall s | Holds(r, s) ensures Holds(r', s) {
      GetKeepsHolders(r, key, s);
    }
  }

  lemma EnteredUses<K>(uses: map<Task, Use<K>>, table: OrderedDict<K, LockId>, t: Task, key: K)
    requires UsesOk(uses, table) && key in table.values
    ensures UsesOk(uses[t := Use(key, table.values[key])], table)
  {
  }

  lemma GetKeepsHolders<K>(r: Registry<K>, key: K, s: Task)
    requires GetLock(r, key).Some? && Holds(r, s)
    ensures Holds(GetLock(r, key).value, s)
  {
  }

  lemma EnteredOk<K>(lock: Lock, uses: map<Task, Use<K>>, l: LockId, t: Task, key: K)
    requires LockOk(lock, uses, l) && t !in uses
    ensures LockOk(lock.Enter(t), uses[t := Use(key, l)], l)
  {
    assert UsersOf(uses[t := Use(key, l)], l) == UsersOf(uses, l) + {t};
    assert t !in UsersOf(uses, l);
  }

  lemma GrantKeeps<K(!new)>(r: Registry<K>, t: Task)
    requires Ok(r) && CanGrant(r, t)
    ensures Ok(Grant(r, t)) && Holds(Grant(r, t), t)
    ensures forall s :: Holds(r, s) ==> Holds(Grant(r, t), s)
  {
    hide TableOk, UsesOk;
    var l := r.uses[t].lock;
    GrantedOk(r.locks[l], r.uses, l);
  }

  lemma GrantedOk<K>(lock: Lock, uses: map<Task, Use<K>>, l: LockId)
    requires LockOk(lock, uses, l) && lock.holder.None? && lock.waiters != []
    ensures LockOk(lock.Grant(), uses, l)
  {
    assert lock.waiters == [lock.waiters[0]] + lock.waiters[1..];
  }

  lemma LeaveKeeps<K(!new)>(r: Registry<K>, t: Task)
    requires Ok(r) && t in r.uses
    ensures Using(r, t) && r.locks[r.uses[t].lock].users > 0
    ensures Ok(Leave(r, t))
    ensures Leave(r, t).uses == r.uses - {t}
    ensures forall s :: Holds(r, s) && s != t ==> Holds(Leave(r, t), s)
  {
    hide TableOk;
    var l := r.uses[t].lock;
    assert l < |r.locks| by { assert TableOk(r.table, r.capacity, |r.locks|); TableRange(r, t); }
    assert LockOk(r.locks[l], r.uses, l);
    assert t in UsersOf(r.uses, l);
    LeftOk(r.locks[l], r.uses, l, t);
    var r' := Leave(r, t);
    forall i | 0 <= i < |r.locks| && i != l ensures LockOk(r'.locks[i], r'.uses, i) {
      assert LockOk(r.locks[i], r.uses, i);
      assert UsersOf(r'.uses, i) == UsersOf(r.uses, i);
    }
  }

  lemma TableRange<K(!new)>(r: Registry<K>, t: Task)
    requires TableOk(r.table, r.capacity, |r.locks|) && UsesOk(r.uses, r.table) && t in r.uses
    ensures r.uses[t].lock < |r.locks|
  {
  }

  lemma LeftOk<K>(lock: Lock, uses: map<Task, Use<K>>, l: LockId, t: Task)
    requires LockOk(lock, uses, l) && t in UsersOf(uses, l)
    ensures lock.users > 0
    ensures LockOk(lock.Leave(t), uses - {t}, l)
  {
    assert UsersOf(uses - {t}, l) == UsersOf(uses, l) - {t};
    assert lock.users > 0;
    WithoutDistinct(lock.waiters, t);
  }

  /** At most one task is inside the critical section of a key, whatever was evicted meanwhile. */
  lemma MutualExclusion<K(!new)>(r: Registry<K>, s: Task, t: Task)
    requires Ok(r) && Holds(r, s) && Holds(r, t) && r.uses[s].key == r.uses[t].key
    ensures s == t
  {
    hide TableOk, LockOk;
  }

  /** A queued task's lock is held, or the first task in its queue can take it. */
  lemma QueueMoves<K(!new)>(r: Registry<K>, t: Task) returns (s: Task)
    requires Ok(r) && t in r.uses && !Holds(r, t)
    ensures s in r.uses && r.uses[s].key == r.uses[t].key
    ensures Holds(r, s) || CanGrant(r, s)
  {
    hide TableOk;
    TableRange(r, t);
    var l := r.uses[t].lock;
    var lock := r.locks[l];
    assert LockOk(lock, r.uses, l);
    assert t in UsersOf(r.uses, l);
    s := if lock.holder.Some? then lock.holder.value else lock.waiters[0];
    assert s in UsersOf(r.uses, l);
    SameLockSameKey(r, s, t);
  }

  lemma SameLockSameKey<K(!new)>(r: Registry<K>, s: Task, t: Task)
    requires TableOk(r.table, r.capacity, |r.locks|) && UsesOk(r.uses, r.table)
    requires s in r.uses && t in r.uses && r.uses[s].lock == r.uses[t].lock
    ensures r.uses[s].key == r.uses[t].key
  {
  }

  // ---------------------------------------------------------------- protocols over one table

  /** The tasks of a protocol that are inside `acquire()`, by key, and those known to be past it. */
  ghost predicate Sections<K(!new)>(r: Registry<K>, inside: map<Task, K>, past: set<Task>) {
    && Ok(r)
    && r.uses.Keys == inside.Keys
    && (forall t :: t in inside ==> r.uses[t].key == inside[t])
    && (forall t :: t in past ==> t in inside && Holds(r, t))
  }

  lemma SectionEntered<K(!new)>(r: Registry<K>, inside: map<Task, K>, past: set<Task>, t: Task, key: K)
    requires Sections(r, inside, past) && t !in inside && Enter(r, t, key).Some?
    ensures Sections(Enter(r, t, key).value, inside[t := key], past)
  {
    hide Ok, Enter, Holds;
    EnterKeeps(r, t, key);
  }

  lemma SectionGranted<K(!new)>(r: Registry<K>, inside: map<Task, K>, past: set<Task>, t: Task)
    requires Sections(r, inside, past) && CanGrant(r, t)
    ensures Sections(Grant(r, t), inside, past)
  {
    hide Ok, Holds;
    GrantKeeps(r, t);
  }

  lemma SectionLeft<K(!new)>(r: Registry<K>, inside: map<Task, K>, past: set<Task>, t: Task)
    requires Sections(r, inside, past) && t in inside
    ensures Using(r, t) && r.locks[r.uses[t].lock].users > 0
    ensures Sections(Leave(r, t), inside - {t}, past - {t})
  {
    hide Ok, Holds;
    LeaveKeeps(r, t);
  }

  lemma SectionExclusive<K(!new)>(r: Registry<K>, inside: map<Task, K>, past: set<Task>, s: Task, t: Task)
    requires Sections(r, inside, past) && s in past && t in past && inside[s] == inside[t]
    ensures s == t
  {
    hide Ok, Holds;
    MutualExclusion(r, s, t);
  }

  /** With nobody in the table's locks, any task gets in and holds its key's lock. */
  lemma EntersAlone<K(!new)>(r: Registry<K>, t: Task, key: K)
    requires Ok(r) && r.uses == map[] && r.capacity >= 1
    ensures Enter(r, t, key).Some? && Holds(Enter(r, t, key).value, t)
    ensures Enter(r, t, key).value.uses.Keys == {t}
  {
    NobodyUses(r);
    GetFailsOnlyWhenAllInUse(r, t, key);
    if key !in r.table.values && |r.table.keys| == r.capacity {
      assert r.table.keys[0] in r.table.values;
    }
    GetKeeps(r, key);
    var g := GetLock(r, key).value;
    var l := g.table.values[key];
    NobodyUses(g);
    assert g.locks[l].Free();
    hide Ok, GetLock;
  }

  lemma NoneWaits(waiters: seq<Task>)
    ensures waiters == [] || exists t :: t in waiters
  {
    if waiters != [] { assert waiters[0] in waiters; }
  }

  lemma NobodyUses<K(!new)>(r: Registry<K>)
    requires Ok(r) && r.uses == map[]
    ensures forall l :: 0 <= l < |r.locks| ==> r.locks[l] == NEW_LOCK
  {
    forall l | 0 <= l < |r.locks| ensures r.locks[l] == NEW_LOCK {
      assert LockOk(r.locks[l], r.uses, l);
      assert UsersOf(r.uses, l) == {};
      var lock := r.locks[l];
      NoneWaits(lock.waiters);
    }
  }
}
