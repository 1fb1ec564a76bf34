/** The lease that recovery actions hold: one owner per database, waiters served in order, nested calls let through. */
module FailsafeActionLeases {

  /** A symbol: nothing but its identity matters. */
  class Owner {
    constructor () {
    }
  }

  class LeaseState {
    var activeOwner: Owner?
    var waiters: seq<nat>

    constructor (owner: Owner)
      ensures activeOwner == owner && waiters == []
    {
      activeOwner, waiters := owner, [];
    }
  }

  /** What a granted action holds; releasing it twice is releasing it once. */
  class Grant {
    const key: string
    const state: LeaseState
    const owner: Owner
    var released: bool

    constructor (key: string, state: LeaseState, owner: Owner)
      ensures this.key == key && this.state == state && this.owner == owner && !released
    {
      this.key, this.state, this.owner, released := key, state, owner, false;
    }
  }

  function At(m: map<string, seq<nat>>, key: string): seq<nat> {
    if key in m then m[key] else []
  }

  // The table as a value

  /** Different keys have different states. */
  ghost predicate AreDistinct(states: map<string, LeaseState>) {
    forall k, l :: k in states && l in states && k != l ==> states[k] != states[l]
  }

  /** Every lease in the table is owned by exactly its current grant, which is held. */
  ghost predicate CurrentOwns(states: map<string, LeaseState>, owners: map<string, Owner?>,
                              current: map<string, Grant>, held: set<Grant>)
  {
    && current.Keys == states.Keys == owners.Keys
    && forall k :: k in current ==>
         && current[k] in held && current[k].key == k && current[k].state == states[k] && owners[k] == current[k].owner
  }

  /** A held grant is the current one of its key. */
  ghost predicate HeldIsCurrent(current: map<string, Grant>, held: set<Grant>) {
    forall g :: g in held ==> g.key in current && current[g.key] == g
  }

  ghost predicate OwnersDiffer(issued: set<Grant>) {
    forall g, h :: g in issued && h in issued && g != h ==> g.owner != h.owner
  }

  /** Requests are granted in the order in which they came in. */
  ghost predicate ServedInOrder(arrivals: map<string, seq<nat>>, served: map<string, seq<nat>>, waiting: map<string, seq<nat>>) {
    forall k :: At(arrivals, k) == At(served, k) + At(waiting, k)
  }

  lemma OtherStates(states: map<string, LeaseState>, key: string)
    requires AreDistinct(states) && key in states
    ensures forall k :: k in states && k != key ==> states[k] != states[key]
  {
  }

  lemma GrantedOwns(states: map<string, LeaseState>, owners: map<string, Owner?>, current: map<string, Grant>, held: set<Grant>,
                    released: set<Grant>, grant: Grant)
    requires CurrentOwns(states, owners, current, held) && HeldIsCurrent(current, held)
    requires forall g :: g in released ==> g.key == grant.key
    requires forall g :: g in held && g.key == grant.key ==> g in released
    ensures var states', owners' := states[grant.key := grant.state], owners[grant.key := grant.owner];
            var current', held' := current[grant.key := grant], held - released + {grant};
            CurrentOwns(states', owners', current', held') && HeldIsCurrent(current', held')
  {
  }

  lemma GrantedInOrder(arrivals: map<string, seq<nat>>, served: map<string, seq<nat>>, waiting: map<string, seq<nat>>,
                       key: string, ticket: nat)
    requires ServedInOrder(arrivals, served, waiting) && At(waiting, key) == []
    ensures ServedInOrder(arrivals[key := At(arrivals, key) + [ticket]], served[key := At(served, key) + [ticket]],
                          waiting[key := []])
  {
    var arrivals', served', waiting' :=
      arrivals[key := At(arrivals, key) + [ticket]], served[key := At(served, key) + [ticket]], waiting[key := []];
    forall k
      ensures At(arrivals', k) == At(served', k) + At(waiting', k)
    {
      assert At(arrivals, k) == At(served, k) + At(waiting, k);
    }
  }

  lemma QueuedInOrder(arrivals: map<string, seq<nat>>, served: map<string, seq<nat>>, waiting: map<string, seq<nat>>,
                      key: string, ticket: nat)
    requires ServedInOrder(arrivals, served, waiting)
    ensures ServedInOrder(arrivals[key := At(arrivals, key) + [ticket]], served, waiting[key := At(waiting, key) + [ticket]])
  {
    assert At(arrivals, key) == At(served, key) + At(waiting, key);
  }

  lemma HandedInOrder(arrivals: map<string, seq<nat>>, served: map<string, seq<nat>>, waiting: map<string, seq<nat>>, key: string)
    requires ServedInOrder(arrivals, served, waiting) && At(waiting, key) != []
    ensures var queue := At(waiting, key);
            ServedInOrder(arrivals, served[key := At(served, key) + [queue[0]]], waiting[key := queue[1..]])
  {
    assert At(arrivals, key) == At(served, key) + At(waiting, key);
  }

  lemma FreedInOrder(arrivals: map<string, seq<nat>>, served: map<string, seq<nat>>, waiting: map<string, seq<nat>>, key: string)
    requires ServedInOrder(arrivals, served, waiting) && At(waiting, key) == []
    ensures ServedInOrder(arrivals, served, waiting - {key})
  {
    assert forall k :: At(waiting - {key}, k) == At(waiting, k);
  }

  /**
   All leases. For the record only: `issued` holds every grant ever made, `current` the grant that owns
   each lease, `arrivals` the requests for each key in order, and `served` those that were granted.
   */
  class ActionLeases {
    var states: map<string, LeaseState>
    ghost var issued: set<Grant>
    ghost var current: map<string, Grant>
    ghost var arrivals: map<string, seq<nat>>
    ghost var served: map<string, seq<nat>>

    constructor ()
      ensures Valid() && issued == {} && states == map[]
    {
      states, issued, current, arrivals, served := map[], {}, map[], map[], map[];
    }

    ghost function Owners(): map<string, Owner?>
      reads this`states, states.Values
    {
      map k | k in states :: states[k].activeOwner
    }

    ghost function Waiting(): map<string, seq<nat>>
      reads this`states, states.Values
    {
      map k | k in states :: states[k].waiters
    }

    ghost function Held(): set<Grant>
      reads this`issued, issued
    {
      set g | g in issued && !g.released
    }

    ghost predicate Valid()
      reads this, states.Values, issued
    {
      && AreDistinct(states) && OwnersDiffer(issued)
      && CurrentOwns(states, Owners(), current, Held()) && HeldIsCurrent(current, Held())
      && ServedInOrder(arrivals, served, Waiting())
    }

    /** Asks for the lease: granted at once when it is free, otherwise the request joins the waiters. */
    method Acquire(key: string, ticket: nat) returns (grant: Grant?)
      requires Valid()
      modifies this, states.Values
      ensures Valid()
      ensures grant != null <==> key !in old(states)
      ensures grant != null ==>
                && fresh(grant) && grant.key == key && issued == old(issued) + {grant} && Held() == old(Held()) + {grant}
                && current == old(current)[key := grant] && served == old(served)[key := At(old(served), key) + [ticket]]
      ensures grant == null ==>
                && states == old(states) && current == old(current) && issued == old(issued) && Held() == old(Held())
                && served == old(served) && Waiting() == old(Waiting())[key := old(Waiting())[key] + [ticket]]
      ensures arrivals == old(arrivals)[key := At(old(arrivals), key) + [ticket]]
    {
      if key in states {
        Enqueue(key, ticket);
        grant := null;
      } else {
        grant := GrantFree(key, ticket);
      }
    }

    method Enqueue(key: string, ticket: nat)
      requires Valid() && key in states
      modifies this`arrivals, states[key]
      ensures Valid() && Held() == old(Held())
      ensures Waiting() == old(Waiting())[key := old(Waiting())[key] + [ticket]]
      ensures arrivals == old(arrivals)[key := At(old(arrivals), key) + [ticket]]
    {
      hide AreDistinct, OwnersDiffer, CurrentOwns, HeldIsCurrent, ServedInOrder, At;
      ghost var waiting, owners, held := Waiting(), Owners(), Held();
      QueueOf(key);
      OtherStates(states, key);
      QueuedInOrder(arrivals, served, waiting, key, ticket);
      var state := states[key];
      state.waiters := state.waiters + [ticket];
      arrivals := arrivals[key := At(arrivals, key) + [ticket]];
      assert Waiting() == waiting[key := waiting[key] + [ticket]];
      assert Owners() == owners && Held() == held;
    }

    lemma QueueOf(key: string)
      requires key in states
      ensures At(Waiting(), key) == states[key].waiters
    {
    }

    method GrantFree(key: string, ticket: nat) returns (grant: Grant)
      requires Valid() && key !in states
      modifies this
      ensures Valid()
      ensures fresh(grant) && grant.key == key && issued == old(issued) + {grant} && Held() == old(Held()) + {grant}
      ensures current == old(current)[key := grant] && served == old(served)[key := At(old(served), key) + [ticket]]
      ensures arrivals == old(arrivals)[key := At(old(arrivals), key) + [ticket]]
    {
      hide AreDistinct, OwnersDiffer, CurrentOwns, HeldIsCurrent, ServedInOrder, At, Owners, Waiting, Held;
      ghost var waiting, owners, held, states0, current0, issued0 := Waiting(), Owners(), Held(), states, current, issued;
      NothingQueued(key, ticket);
      NoneHeld(key);
      grant := AddState(key);
      current := current[key := grant];
      arrivals := arrivals[key := At(arrivals, key) + [ticket]];
      served := served[key := At(served, key) + [ticket]];
      GrantedOwns(states0, owners, current0, held, {}, grant);
      FreshState(states0, key, grant.state);
      FreshOwner(issued0, grant);
    }

    /** A new state for a key that has none, with its first grant. */
    method AddState(key: string) returns (grant: Grant)
      requires key !in states
      modifies this`states, this`issued
      ensures fresh(grant) && fresh(grant.state) && fresh(grant.owner) && grant.key == key
      ensures states == old(states)[key := grant.state] && issued == old(issued) + {grant}
      ensures Waiting() == old(Waiting())[key := []] && Owners() == old(Owners())[key := grant.owner]
      ensures Held() == old(Held()) - {} + {grant}
    {
      var owner := new Owner();
      var state := new LeaseState(owner);
      grant := new Grant(key, state, owner);
      states := states[key := state];
      issued := issued + {grant};
    }

    lemma NothingQueued(key: string, ticket: nat)
      requires Valid() && key !in states
      ensures ServedInOrder(arrivals[key := At(arrivals, key) + [ticket]], served[key := At(served, key) + [ticket]],
                            Waiting()[key := []])
    {
      hide ServedInOrder;
      GrantedInOrder(arrivals, served, Waiting(), key, ticket);
    }

    lemma NoneHeld(key: string)
      requires Valid() && key !in states
      ensures forall g :: g in Held() ==> g.key != key
    {
    }

    /**
     Releases a grant. The first waiter, if there is one, is granted the lease under a new owner;
     without one the lease is forgotten. A second release does nothing.
     */
    method Release(grant: Grant) returns (next: Grant?)
      requires Valid() && grant in issued
      modifies this, states.Values, grant
      ensures Valid() && grant.released && arrivals == old(arrivals)
      ensures old(grant.released) ==>
                next == null && states == old(states) && issued == old(issued) && current == old(current)
                && served == old(served) && Held() == old(Held()) && Waiting() == old(Waiting())
      ensures !old(grant.released) ==>
                var key := grant.key;
                && key in old(states)
                && (next == null <==> old(Waiting())[key] == [])
                && (next == null ==>
                      && current == old(current) - {key} && issued == old(issued) && served == old(served)
                      && Held() == old(Held()) - {grant})
                && (next != null ==>
                      && fresh(next) && next.key == key && current == old(current)[key := next]
                      && issued == old(issued) + {next} && Held() == old(Held()) - {grant} + {next}
                      && served == old(served)[key := At(old(served), key) + [old(Waiting())[key][0]]]
                      && Waiting() == old(Waiting())[key := old(Waiting())[key][1..]])
    {
      next := null;
      if !grant.released {
        GrantOfLease(grant);
        if grant.state.waiters != [] {
          next := HandOver(grant);
        } else {
          Forget(grant);
        }
      }
    }

    lemma GrantOfLease(grant: Grant)
      requires Valid() && grant in issued && !grant.released
      ensures grant.key in states && states[grant.key] == grant.state && current[grant.key] == grant
      ensures Waiting()[grant.key] == grant.state.waiters
      ensures forall g :: g in Held() && g.key == grant.key ==> g == grant
    {
      assert grant in Held();
    }

    method HandOver(grant: Grant) returns (next: Grant)
      requires Valid() && grant in issued && !grant.released && grant.key in states && states[grant.key] == grant.state
      requires grant.state.waiters != []
      modifies this, grant.state, grant
      ensures Valid() && grant.released && arrivals == old(arrivals) && states == old(states)
      ensures fresh(next) && next.key == grant.key && current == old(current)[grant.key := next]
      ensures issued == old(issued) + {next} && Held() == old(Held()) - {grant} + {next}
      ensures served == old(served)[grant.key := At(old(served), grant.key) + [old(Waiting())[grant.key][0]]]
      ensures Waiting() == old(Waiting())[grant.key := old(Waiting())[grant.key][1..]]
    {
      hide AreDistinct, OwnersDiffer, CurrentOwns, HeldIsCurrent, ServedInOrder, At, Owners, Waiting, Held;
      ghost var waiting, owners, held, states0, current0, issued0 := Waiting(), Owners(), Held(), states, current, issued;
      var key := grant.key;
      HandOverFits(grant);
      next := PassOn(grant);
      current := current[key := next];
      served := served[key := At(served, key) + [waiting[key][0]]];
      GrantedOwns(states0, owners, current0, held, {grant}, next);
      FreshOwner(issued0, next);
    }

    lemma HandOverFits(grant: Grant)
      requires Valid() && grant in issued && !grant.released && grant.state.waiters != []
      ensures grant.key in states && grant.key in Waiting() && Waiting()[grant.key] == grant.state.waiters
      ensures states[grant.key := grant.state] == states
      ensures forall k :: k in states && k != grant.key ==> states[k] != grant.state
      ensures forall g :: g in Held() && g.key == grant.key ==> g in {grant}
      ensures ServedInOrder(arrivals, served[grant.key := At(served, grant.key) + [Waiting()[grant.key][0]]],
                            Waiting()[grant.key := Waiting()[grant.key][1..]])
    {
      hide ServedInOrder;
      GrantOfLease(grant);
      OtherStates(states, grant.key);
      HandedInOrder(arrivals, served, Waiting(), grant.key);
    }

    /** The first waiter gets a new grant on the same state, under a new owner. */
    method PassOn(grant: Grant) returns (next: Grant)
      requires grant in issued && !grant.released && grant.key in states && states[grant.key] == grant.state
      requires grant.state.waiters != []
      requires forall k :: k in states && k != grant.key ==> states[k] != grant.state
      modifies this`issued, grant.state, grant
      ensures grant.released && fresh(next) && fresh(next.owner) && next.key == grant.key && next.state == grant.state
      ensures issued == old(issued) + {next}
      ensures Waiting() == old(Waiting())[grant.key := old(Waiting())[grant.key][1..]]
      ensures Owners() == old(Owners())[grant.key := next.owner]
      ensures Held() == old(Held()) - {grant} + {next}
    {
      hide Waiting, Owners, Held;
      var owner := new Owner();
      ShiftWaiters(grant.key, owner);
      next := Replace(grant, owner);
    }

    method ShiftWaiters(key: string, owner: Owner)
      requires key in states && states[key].waiters != []
      requires forall k :: k in states && k != key ==> states[k] != states[key]
      modifies states[key]
      ensures key in old(Waiting()) && Waiting() == old(Waiting())[key := old(Waiting())[key][1..]]
      ensures Owners() == old(Owners())[key := owner]
    {
      states[key].waiters := states[key].waiters[1..];
      states[key].activeOwner := owner;
    }

    method Replace(grant: Grant, owner: Owner) returns (next: Grant)
      requires grant in issued && !grant.released
      modifies this`issued, grant
      ensures grant.released && fresh(next) && next.key == grant.key && next.state == grant.state && next.owner == owner
      ensures issued == old(issued) + {next} && Held() == old(Held()) - {grant} + {next}
    {
      grant.released := true;
      next := new Grant(grant.key, grant.state, owner);
      issued := issued + {next};
    }

    method Forget(grant: Grant)
      requires Valid() && grant in issued && !grant.released && grant.key in states && states[grant.key] == grant.state
      requires grant.state.waiters == []
      modifies this, grant.state, grant
      ensures Valid() && grant.released && arrivals == old(arrivals)
      ensures current == old(current) - {grant.key} && issued == old(issued) && served == old(served)
      ensures Held() == old(Held()) - {grant}
    {
      hide AreDistinct, OwnersDiffer, CurrentOwns, HeldIsCurrent, ServedInOrder, At, Owners, Waiting, Held;
      ForgetFits(grant);
      DropState(grant);
      current := current - {grant.key};
    }

    lemma ForgetFits(grant: Grant)
      requires Valid() && grant in issued && !grant.released && grant.state.waiters == []
      ensures forall k :: k in states && k != grant.key ==> states[k] != grant.state
      ensures var k := {grant.key};
              && AreDistinct(states - k) && ServedInOrder(arrivals, served, Waiting() - k)
              && CurrentOwns(states - k, Owners() - k, current - k, Held() - {grant})
              && HeldIsCurrent(current - k, Held() - {grant})
    {
      hide ServedInOrder;
      GrantOfLease(grant);
      OtherStates(states, grant.key);
      FreedInOrder(arrivals, served, Waiting(), grant.key);
    }

    method DropState(grant: Grant)
      requires grant in issued && !grant.released && grant.key in states && states[grant.key] == grant.state
      requires forall k :: k in states && k != grant.key ==> states[k] != grant.state
      modifies this`states, grant.state, grant
      ensures grant.released && states == old(states) - {grant.key}
      ensures Waiting() == old(Waiting()) - {grant.key} && Owners() == old(Owners()) - {grant.key}
      ensures Held() == old(Held()) - {grant}
    {
      grant.released := true;
      grant.state.activeOwner := null;
      states := states - {grant.key};
    }

    // Nested calls

    /** The call runs inside an action that holds the lease: its context names the owner, and the owner is live. */
    predicate IsNested(key: string, inherited: map<string, Owner>)
      reads this, states.Values
    {
      key in inherited && key in states && states[key].activeOwner == inherited[key]
    }

    /** A call that inherits an owner is let through exactly as long as the grant of that owner is held. */
    lemma NestedWhileHeld(grant: Grant, inherited: map<string, Owner>)
      requires Valid() && grant in issued && grant.key in inherited && inherited[grant.key] == grant.owner
      ensures IsNested(grant.key, inherited) <==> !grant.released
    {
      if !grant.released {
        GrantOfLease(grant);
        assert Owners()[grant.key] == grant.owner;
      }
      if grant.key in states {
        assert Owners()[grant.key] == current[grant.key].owner;
        assert current[grant.key] in Held();
      }
    }

    /** At most one grant of a key is held at any time. */
    lemma AtMostOneHeld(g: Grant, h: Grant)
      requires Valid() && g in issued && h in issued && g.key == h.key && !g.released && !h.released
      ensures g == h
    {
      assert g in Held() && h in Held();
    }

    /** Grants follow arrivals: what was served is where the arrivals begin, and the rest is waiting for a held lease. */
    lemma ServedArePrefix(key: string)
      requires Valid()
      ensures At(served, key) <= At(arrivals, key)
      ensures At(served, key) != At(arrivals, key) ==> exists g :: g in issued && !g.released && g.key == key
    {
      assert At(arrivals, key) == At(served, key) + At(Waiting(), key);
      if At(served, key) != At(arrivals, key) {
        assert key in states;
        assert current[key] in Held();
      }
    }
  }

  lemma FreshState(states: map<string, LeaseState>, key: string, state: LeaseState)
    requires AreDistinct(states) && state !in states.Values
    ensures AreDistinct(states[key := state])
  {
  }

  lemma FreshOwner(issued: set<Grant>, grant: Grant)
    requires OwnersDiffer(issued) && forall g :: g in issued ==> g.owner != grant.owner
    ensures OwnersDiffer(issued + {grant})
  {
  }
}
