/** Capacity accounting of LocalRuntime: the fields guarded by r.mu that
    reserveInvocation, releaseUnboundReservation, registration,
    onInvocationTerminal, SuspendForRestart and abandonRecoveredExecution touch. */
module Registry {
  import opened Wrappers
  import opened Lifecycle

  /** One in-flight dispatch attempt (a goroutine between reserve and register). */
  type Ticket = nat

  /** `unbound` maps each outstanding reservation to its parent, `active` each
      id whose active flag is set to the parent of its core. */
  datatype Registry = Registry(
    unbound: map<Ticket, Option<Id>>,
    active: map<Id, Option<Id>>,
    activeCount: int,
    activeChildren: map<Id, int>)
  {
    function Children(p: Id): int {
      if p in activeChildren then activeChildren[p] else 0
    }
  }

  const EMPTY := Registry(map[], map[], 0, map[])

  /** Counter updates as the source intends them, without its "> 0" guards. */
  function Bump(r: Registry, parent: Option<Id>, delta: int): Registry {
    var r' := r.(activeCount := r.activeCount + delta);
    if parent.None? then r'
    else r'.(activeChildren := r.activeChildren[parent.value := r.Children(parent.value) + delta])
  }

  function Reserved(r: Registry, t: Ticket, parent: Option<Id>): Registry {
    Bump(r.(unbound := r.unbound[t := parent]), parent, 1)
  }

  function Without<K, V>(m: map<K, V>, k: K): map<K, V> {
    m - {k}
  }

  function Released(r: Registry, t: Ticket): Registry
    requires t in r.unbound
  {
    Bump(r.(unbound := Without(r.unbound, t)), r.unbound[t], -1)
  }

  function Registered(r: Registry, t: Ticket, i: Id): Registry
    requires t in r.unbound
  {
    r.(unbound := Without(r.unbound, t), active := r.active[i := r.unbound[t]])
  }

  function Deactivated(r: Registry, i: Id): Registry {
    if i in r.active then Bump(r.(active := r.active - {i}), r.active[i], -1) else r
  }

  /** Keys of `m` whose value names parent `p`. */
  function Under<K>(m: map<K, Option<Id>>, p: Id): set<K> {
    set k | k in m && m[k] == Some(p)
  }

  /** Conservation: each counter is exactly the number of slots it stands for. */
  ghost predicate Conserved(r: Registry) {
    && r.activeCount == |r.unbound| + |r.active|
    && r.activeCount <= PENDING_CAPACITY
    && (forall p: Id :: r.Children(p) == |Under(r.unbound, p)| + |Under(r.active, p)|)
  }

  lemma InsertSize<K, V>(m: map<K, V>, k: K, v: V)
    requires k !in m
    ensures |m[k := v]| == |m| + 1
  {
    assert m[k := v].Keys == m.Keys + {k};
    assert |m[k := v].Keys| == |m[k := v]|;
  }

  lemma UnderInserted<K>(m: map<K, Option<Id>>, k: K, v: Option<Id>, p: Id)
    requires k !in m
    ensures Under(m[k := v], p) == Under(m, p) + (if v == Some(p) then {k} else {})
    ensures k !in Under(m, p)
  {
  }

  lemma UnderInsert<K>(m: map<K, Option<Id>>, k: K, v: Option<Id>, p: Id)
    requires k !in m
    ensures |m[k := v]| == |m| + 1
    ensures |Under(m[k := v], p)| == |Under(m, p)| + (if v == Some(p) then 1 else 0)
  {
    hide Under;
    InsertSize(m, k, v);
    UnderInserted(m, k, v, p);
    assert Under(m, p) + {} == Under(m, p);
  }

  lemma UnderRemove<K>(m: map<K, Option<Id>>, k: K, p: Id)
    requires k in m
    ensures |m - {k}| == |m| - 1
    ensures |Under(m - {k}, p)| == |Under(m, p)| - (if m[k] == Some(p) then 1 else 0)
  {
    assert (m - {k}).Keys == m.Keys - {k};
    assert Under(m - {k}, p) == Under(m, p) - {k};
  }

  lemma ReservedConserves(r: Registry, t: Ticket, parent: Option<Id>)
    requires Conserved(r) && t !in r.unbound && r.activeCount < PENDING_CAPACITY
    ensures Conserved(Reserved(r, t, parent))
  {
    var r' := Reserved(r, t, parent);
    forall p: Id ensures r'.Children(p) == |Under(r'.unbound, p)| + |Under(r'.active, p)| {
      UnderInsert(r.unbound, t, parent, p);
    }
    UnderInsert(r.unbound, t, parent, 0);
  }

  lemma ReleasedConserves(r: Registry, t: Ticket)
    requires Conserved(r) && t in r.unbound
    ensures Conserved(Released(r, t))
  {
    var r' := Released(r, t);
    forall p: Id ensures r'.Children(p) == |Under(r'.unbound, p)| + |Under(r'.active, p)| {
      UnderRemove(r.unbound, t, p);
    }
    UnderRemove(r.unbound, t, 0);
  }

  lemma RegisteredConserves(r: Registry, t: Ticket, i: Id)
    requires Conserved(r) && t in r.unbound && i !in r.active
    ensures Conserved(Registered(r, t, i))
  {
    var r' := Registered(r, t, i);
    forall p: Id ensures r'.Children(p) == |Under(r'.unbound, p)| + |Under(r'.active, p)| {
      UnderRemove(r.unbound, t, p);
      UnderInsert(r.active, i, r.unbound[t], p);
    }
    UnderRemove(r.unbound, t, 0);
    UnderInsert(r.active, i, r.unbound[t], 0);
  }

  lemma DeactivatedConserves(r: Registry, i: Id)
    requires Conserved(r)
    ensures Conserved(Deactivated(r, i))
  {
    if i in r.active {
      var r' := Deactivated(r, i);
      forall p: Id ensures r'.Children(p) == |Under(r'.unbound, p)| + |Under(r'.active, p)| {
        UnderRemove(r.active, i, p);
      }
      UnderRemove(r.active, i, 0);
    }
  }

  lemma UnderBounded<K>(m: map<K, Option<Id>>, p: Id)
    ensures |Under(m, p)| <= |m|
  {
    assert Under(m, p) <= m.Keys;
    Subset(Under(m, p), m.Keys);
  }

  lemma Subset<K>(a: set<K>, b: set<K>)
    requires a <= b
    ensures |a| <= |b|
  {
    assert b == a + (b - a);
  }

  /** No counter ever leaves 0..256, and no decrement meets a zero counter. */
  lemma CountersInRange(r: Registry, p: Id)
    requires Conserved(r)
    ensures 0 <= r.Children(p) <= r.activeCount <= 256
    ensures forall t :: t in r.unbound ==> r.activeCount > 0
                                           && (r.unbound[t] == Some(p) ==> r.Children(p) > 0)
    ensures forall i :: i in r.active ==> r.activeCount > 0
                                          && (r.active[i] == Some(p) ==> r.Children(p) > 0)
  {
    UnderBounded(r.unbound, p);
    UnderBounded(r.active, p);
    forall t | t in r.unbound
      ensures r.activeCount > 0 && (r.unbound[t] == Some(p) ==> r.Children(p) > 0)
    {
      UnderRemove(r.unbound, t, p);
    }
    forall i | i in r.active
      ensures r.activeCount > 0 && (r.active[i] == Some(p) ==> r.Children(p) > 0)
    {
      UnderRemove(r.active, i, p);
    }
  }
}
