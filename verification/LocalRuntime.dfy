/** The r.mu critical sections of axon/invocation/local_runtime.go that move
    capacity, with the source's guarded counters, against the Registry. */
module LocalRuntime {
  import opened Wrappers
  import opened Lifecycle
  import opened Registry

  /** What reserveInvocation reads of the parent core under r.mu. */
  datatype ParentView = ParentView(state: State, claimed: bool, deadline: Option<int>)

  datatype ReserveError =
    | PendingInvocationLimit | PendingChildLimit | UnknownParent | ParentNotRunning

  /** Absent deadlines are later than any other. */
  predicate NotAfter(a: Option<int>, b: Option<int>) {
    b.None? || (a.Some? && a.value <= b.value)
  }

  /** The ids whose flag is set, with their parents. */
  ghost function Slots(active: map<Id, bool>, parents: map<Id, Option<Id>>): map<Id, Option<Id>> {
    map i | i in active && active[i] && i in parents :: parents[i]
  }

  lemma SlotTaken(active: map<Id, bool>, parents: map<Id, Option<Id>>, i: Id, parent: Option<Id>)
    requires i !in parents
    ensures i !in Slots(active, parents)
    ensures Slots(active[i := true], parents[i := parent]) == Slots(active, parents)[i := parent]
  {
  }

  lemma SlotCleared(active: map<Id, bool>, parents: map<Id, Option<Id>>, i: Id)
    requires i in active && active[i] && i in parents
    ensures i in Slots(active, parents) && Slots(active, parents)[i] == parents[i]
    ensures Slots(active[i := false], parents) == Slots(active, parents) - {i}
  {
  }

  lemma SlotUnset(active: map<Id, bool>, parents: map<Id, Option<Id>>, i: Id)
    requires i !in active || !active[i]
    ensures i !in Slots(active, parents)
  {
  }

  class Runtime {
    var active: map<Id, bool>
    var activeCount: int
    var activeChildren: map<Id, int>
    /** ParentInvocationID of every registered core. */
    var parents: map<Id, Option<Id>>
    /** Goroutines between a successful reservation and its registration. */
    ghost var unbound: map<Ticket, Option<Id>>

    ghost function View(): Registry
      reads this
    {
      Registry(unbound, Slots(active, parents), activeCount, activeChildren)
    }

    ghost predicate Valid()
      reads this
    {
      && (forall i :: i in active && active[i] ==> i in parents)
      && Conserved(View())
    }

    constructor ()
      ensures Valid() && View() == EMPTY
    {
      active, activeCount, activeChildren, parents, unbound := map[], 0, map[], map[], map[];
      new;
      forall p: Id ensures View().Children(p) == |Under(View().unbound, p)| + |Under(View().active, p)| {
        assert Under(View().unbound, p) == {};
        assert Under(View().active, p) == {};
      }
    }

    function ChildCount(p: Id): int
      reads this
    {
      if p in activeChildren then activeChildren[p] else 0
    }

    /** A refused reservation changes nothing; a granted one takes exactly one
        slot and a deadline no later than the requested and the parent's. */
    method ReserveInvocation(
      parent: Option<Id>, parentCore: Option<ParentView>, requested: Option<int>, ghost t: Ticket)
      returns (r: Result<Option<int>, ReserveError>)
      requires Valid() && t !in unbound
      modifies this
      ensures Valid()
      ensures r.Ok? <==>
        old(activeCount) < 256
        && (parent.Some? ==> parentCore.Some? && parentCore.value.state == Running && !parentCore.value.claimed
                             && old(ChildCount(parent.value)) < 256)
      ensures r.Ok? ==> View() == Reserved(old(View()), t, parent)
      ensures r.Ok? ==> NotAfter(r.value, requested) && (r.value == requested || (parent.Some? && r.value == parentCore.value.deadline))
      ensures r.Ok? && parent.Some? ==> NotAfter(r.value, parentCore.value.deadline)
      ensures r.Err? ==> View() == old(View())
      ensures r.Err? ==>
        r.error == if old(activeCount) >= 256 then (if parent.Some? then PendingChildLimit else PendingInvocationLimit)
                   else if parentCore.None? then UnknownParent
                   else if parentCore.value.state != Running || parentCore.value.claimed then ParentNotRunning
                   else PendingChildLimit
      ensures parents == old(parents)
    {
      hide Conserved, Slots, Without;
      if activeCount >= PENDING_CAPACITY {
        return Err(if parent.Some? then PendingChildLimit else PendingInvocationLimit);
      }
      var deadline := requested;
      if parent.Some? {
        if parentCore.None? {
          return Err(UnknownParent);
        }
        if parentCore.value.state != Running || parentCore.value.claimed {
          return Err(ParentNotRunning);
        }
        if ChildCount(parent.value) >= PENDING_CAPACITY {
          return Err(PendingChildLimit);
        }
        var limit := parentCore.value.deadline;
        if limit.Some? && (deadline.None? || limit.value < deadline.value) {
          deadline := limit;
        }
        activeChildren := activeChildren[parent.value := ChildCount(parent.value) + 1];
      }
      activeCount := activeCount + 1;
      unbound := unbound[t := parent];
      ReservedConserves(old(View()), t, parent);
      return Ok(deadline);
    }

    /** The guarded decrement shared by every release path. */
    method GiveBack(parent: Option<Id>, ghost before: Registry)
      requires Conserved(before) && before.activeCount == activeCount && before.activeChildren == activeChildren
      requires (exists t :: t in before.unbound && before.unbound[t] == parent)
               || (exists i :: i in before.active && before.active[i] == parent)
      modifies this`activeCount, this`activeChildren
      ensures activeCount == Bump(before, parent, -1).activeCount
      ensures activeChildren == Bump(before, parent, -1).activeChildren
    {
      CountersInRange(before, if parent.Some? then parent.value else 0);
      if activeCount > 0 {
        activeCount := activeCount - 1;
      }
      if parent.Some? && ChildCount(parent.value) > 0 {
        activeChildren := activeChildren[parent.value := ChildCount(parent.value) - 1];
      }
    }

    /** releaseUnboundReservation. */
    method ReleaseUnboundReservation(parent: Option<Id>, ghost t: Ticket)
      requires Valid() && t in unbound && unbound[t] == parent
      modifies this
      ensures Valid() && View() == Released(old(View()), t) && parents == old(parents)
    {
      hide Conserved, Slots, Without;
      ReleasedConserves(View(), t);
      GiveBack(parent, View());
      unbound := Without(unbound, t);
    }

    /** The registration block of invokeRegistered and recoverSnapshot. Bind has
        rejected any id that was used before. */
    method RegisterActive(i: Id, parent: Option<Id>, ghost t: Ticket)
      requires Valid() && t in unbound && unbound[t] == parent && i !in parents
      modifies this
      ensures Valid() && View() == Registered(old(View()), t, i)
      ensures parents == old(parents)[i := parent]
    {
      hide Conserved, Slots, Without;
      SlotTaken(active, parents, i, parent);
      RegisteredConserves(View(), t, i);
      active := active[i := true];
      parents := parents[i := parent];
      unbound := Without(unbound, t);
    }

    /** The slot part of onInvocationTerminal and abandonRecoveredExecution: safe
        to repeat, because only a set flag is counted down. */
    method Deactivate(i: Id)
      requires Valid() && i in parents
      modifies this
      ensures Valid() && View() == Deactivated(old(View()), i) && parents == old(parents)
      ensures i !in View().active
    {
      hide Conserved, Slots, Without;
      if i in active && active[i] {
        SlotCleared(active, parents, i);
        DeactivatedConserves(View(), i);
        GiveBack(parents[i], View());
        active := active[i := false];
      } else {
        SlotUnset(active, parents, i);
      }
    }

    /** SuspendForRestart gives the slot back only after the durable mark. */
    method SuspendOne(i: Id, claimed: bool, terminal: bool, marked: bool) returns (suspended: bool)
      requires Valid() && i in parents && i in active && active[i]
      modifies this
      ensures Valid() && parents == old(parents)
      ensures suspended <==> !claimed && !terminal && marked
      ensures View() == if suspended then Deactivated(old(View()), i) else old(View())
    {
      if claimed || terminal || !marked {
        return false;
      }
      Deactivate(i);
      return true;
    }
  }
}
