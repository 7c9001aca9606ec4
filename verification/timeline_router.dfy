/** The router that holds timeline events until the page that subscribed knows its subscription id. */
module TimelineRouter {
  import opened Options
  import opened TimelineDiffs

  type Subscription(==, !new)

  datatype TimelineEvent =
    | TimelineDiff(subscription: Subscription, diffs: seq<Diff<string>>)
    | TimelinePagination(subscription: Subscription, loading: bool)

  const MAX_PENDING_EVENTS: nat := 100

  /** How many subscribe calls an owner has in flight; an owner with none has no entry. */
  type Count = n: nat | n >= 1 witness 1

  datatype Claimed = NotPending | Overflow | Buffered(events: seq<TimelineEvent>)

  /** The router's state as a value. The buffered-event counter is a function of `pending`. */
  datatype Router<!Owner(==)> = Router(
    owners: map<Subscription, Owner>,
    pending: map<Subscription, seq<TimelineEvent>>,
    inFlight: map<Owner, Count>,
    overflowed: bool)
  {
    function Buffer(s: Subscription): seq<TimelineEvent> {
      if s in pending then pending[s] else []
    }

    function InFlight(owner: Owner): nat {
      if owner in inFlight then inFlight[owner] else 0
    }

    function OwnedBy(gone: set<Owner>): set<Subscription> {
      set s | s in owners && owners[s] in gone
    }

    function Begin(owner: Owner): Router<Owner> {
      this.(inFlight := inFlight[owner := InFlight(owner) + 1])
    }

    /** Buffers outlive no subscribe: the last one to finish drops them and the overflow mark. */
    function WithoutOrphans(): Router<Owner> {
      if inFlight == map[] then this.(pending := map[], overflowed := false) else this
    }

    function CancelPending(owner: Owner): Router<Owner> {
      if owner !in inFlight then this
      else if inFlight[owner] == 1 then this.(inFlight := inFlight - {owner}).WithoutOrphans()
      else this.(inFlight := inFlight[owner := inFlight[owner] - 1])
    }

    ghost function Route(event: TimelineEvent): Router<Owner> {
      if event.subscription in owners || inFlight == map[] || overflowed then this
      else if Total(pending) >= MAX_PENDING_EVENTS then this.(pending := map[], overflowed := true)
      else this.(pending := pending[event.subscription := Buffer(event.subscription) + [event]])
    }

    function Claim(s: Subscription, owner: Owner): (Router<Owner>, Claimed) {
      if owner !in inFlight then (this, NotPending)
      else
        var freed := this.(pending := pending - {s}).CancelPending(owner);
        if overflowed then (freed, Overflow)
        else (freed.(owners := freed.owners[s := owner]), Buffered(Buffer(s)))
    }

    function Release(s: Subscription): Router<Owner> {
      this.(owners := owners - {s}, pending := pending - {s})
    }

    function RemoveOwners(gone: set<Owner>): Router<Owner> {
      var owned := OwnedBy(gone);
      Router(owners - owned, pending - owned, inFlight - gone, overflowed).WithoutOrphans()
    }

    /** What every operation keeps: buffers only for subscribes in flight, never for an owned
        subscription, never above the limit, and none at all once they overflowed. */
    ghost predicate Sound() {
      && owners.Keys !! pending.Keys
      && (inFlight == map[] ==> pending == map[] && !overflowed)
      && (overflowed ==> pending == map[])
      && Total(pending) <= MAX_PENDING_EVENTS
    }
  }

  // ---- sum of the buffers ----

  ghost function Total(buffers: map<Subscription, seq<TimelineEvent>>): nat {
    if buffers == map[] then 0
    else var s :| s in buffers; |buffers[s]| + Total(buffers - {s})
  }

  lemma {:induction false} TotalWithout(buffers: map<Subscription, seq<TimelineEvent>>, s: Subscription)
    requires s in buffers
    ensures Total(buffers) == |buffers[s]| + Total(buffers - {s})
    decreases |buffers|
  {
    var t :| t in buffers && Total(buffers) == |buffers[t]| + Total(buffers - {t});
    if t != s {
      TotalWithout(buffers - {t}, s);
      TotalWithout(buffers - {s}, t);
      assert buffers - {t} - {s} == buffers - {s} - {t};
    }
  }

  lemma TotalOfUpdate(buffers: map<Subscription, seq<TimelineEvent>>, s: Subscription, events: seq<TimelineEvent>)
    ensures Total(buffers[s := events]) == |events| + Total(buffers - {s})
    ensures s !in buffers ==> buffers - {s} == buffers
  {
    TotalWithout(buffers[s := events], s);
    assert buffers[s := events] - {s} == buffers - {s};
  }

  function Empty<Owner>(): Router<Owner> {
    Router(map[], map[], map[], false)
  }

  // ---- the class ----

  class TimelineEventRouter<Owner(==)> {
    var owners: map<Subscription, Owner>
    var pending: map<Subscription, seq<TimelineEvent>>
    var pendingOwners: map<Owner, Count>
    var pendingEventCount: int
    var overflowed: bool

    function State(): Router<Owner>
      reads this
    {
      Router(owners, pending, pendingOwners, overflowed)
    }

    /** The counter always equals the sum of the buffers. */
    ghost predicate Valid()
      reads this
    {
      pendingEventCount == Total(pending)
    }

    constructor ()
      ensures Valid() && State() == Empty()
    {
      owners, pending, pendingOwners := map[], map[], map[];
      pendingEventCount, overflowed := 0, false;
    }

    method Begin(owner: Owner)
      requires Valid()
      modifies this
      ensures Valid() && State() == old(State()).Begin(owner)
    {
      pendingOwners := pendingOwners[owner := (if owner in pendingOwners then pendingOwners[owner] else 0) + 1];
    }

    method CancelPending(owner: Owner)
      requires Valid()
      modifies this
      ensures Valid() && State() == old(State()).CancelPending(owner)
    {
      if owner !in pendingOwners { return; }
      var count := pendingOwners[owner];
      if count == 1 {
        pendingOwners := pendingOwners - {owner};
      } else {
        pendingOwners := pendingOwners[owner := count - 1];
        assert owner in pendingOwners;
      }
      ClearOrphanedEvents();
    }

    method Route(event: TimelineEvent) returns (owner: Option<Owner>)
      requires Valid()
      modifies this
      ensures Valid() && State() == old(State()).Route(event)
      ensures owner == if event.subscription in old(owners) then Some(old(owners)[event.subscription]) else None
    {
      if event.subscription in owners { return Some(owners[event.subscription]); }
      if pendingOwners == map[] || overflowed { return None; }
      if pendingEventCount >= MAX_PENDING_EVENTS {
        pending, pendingEventCount, overflowed := map[], 0, true;
        return None;
      }
      var buffered := if event.subscription in pending then pending[event.subscription] else [];
      TotalOfUpdate(pending, event.subscription, buffered + [event]);
      if event.subscription in pending { TotalWithout(pending, event.subscription); }
      pendingEventCount := pendingEventCount + 1;
      pending := pending[event.subscription := buffered + [event]];
      return None;
    }

    method Claim(subscription: Subscription, owner: Owner) returns (claimed: Claimed)
      requires Valid()
      modifies this
      ensures Valid() && (State(), claimed) == old(State()).Claim(subscription, owner)
    {
      if owner !in pendingOwners { return NotPending; }
      var wasOverflowed := overflowed;
      var buffered := Discard(subscription);
      CancelPending(owner);
      if wasOverflowed { return Overflow; }
      owners := owners[subscription := owner];
      return Buffered(buffered);
    }

    method Release(subscription: Subscription)
      requires Valid()
      modifies this`owners, this`pending, this`pendingEventCount
      ensures Valid() && State() == old(State()).Release(subscription)
    {
      owners := owners - {subscription};
      var _ := Discard(subscription);
    }

    /** Takes a buffer out and pays the counter for it. */
    method Discard(subscription: Subscription) returns (buffered: seq<TimelineEvent>)
      requires Valid()
      modifies this`pending, this`pendingEventCount
      ensures Valid() && pending == old(pending) - {subscription}
      ensures buffered == old(State()).Buffer(subscription)
    {
      buffered := if subscription in pending then pending[subscription] else [];
      if subscription in pending {
        TotalWithout(pending, subscription);
      } else {
        assert pending - {subscription} == pending;
      }
      pendingEventCount := pendingEventCount - |buffered|;
      pending := pending - {subscription};
    }

    predicate Owns(subscription: Subscription, owner: Owner)
      reads this
    {
      subscription in owners && owners[subscription] == owner
    }

    method RemoveOwner(owner: Owner) returns (subscriptions: seq<Subscription>)
      requires Valid()
      modifies this
      ensures Valid() && State() == old(State()).RemoveOwners({owner})
      ensures forall s :: s in subscriptions <==> s in old(State()).OwnedBy({owner})
      ensures forall i, j :: 0 <= i < j < |subscriptions| ==> subscriptions[i] != subscriptions[j]
    {
      pendingOwners := pendingOwners - {owner};
      ClearOrphanedEvents();
      subscriptions := ReleaseOwned(owner);
    }

    method ReleaseOwned(owner: Owner) returns (subscriptions: seq<Subscription>)
      requires Valid()
      modifies this`owners, this`pending, this`pendingEventCount
      ensures Valid()
      ensures owners == old(owners) - old(State()).OwnedBy({owner})
        && pending == old(pending) - old(State()).OwnedBy({owner})
      ensures forall s :: s in subscriptions <==> s in old(State()).OwnedBy({owner})
      ensures forall i, j :: 0 <= i < j < |subscriptions| ==> subscriptions[i] != subscriptions[j]
    {
      ghost var before, mine := State(), State().OwnedBy({owner});
      subscriptions := [];
      var rest := owners.Keys;
      while rest != {}
        invariant Valid() && rest <= before.owners.Keys
        invariant forall s :: s in subscriptions <==> s in mine - rest
        invariant forall i, j :: 0 <= i < j < |subscriptions| ==> subscriptions[i] != subscriptions[j]
        invariant owners == before.owners - (mine - rest) && pending == before.pending - (mine - rest)
      {
        var s :| s in rest;
        ghost var done := mine - rest;
        rest := rest - {s};
        if owners[s] == owner {
          subscriptions := subscriptions + [s];
          Release(s);
          assert mine - rest == done + {s};
        } else {
          assert mine - rest == done;
        }
      }
      assert mine - rest == mine;
    }

    method ClearOrphanedEvents()
      requires Valid()
      modifies this`pending, this`pendingEventCount, this`overflowed
      ensures Valid() && State() == old(State()).WithoutOrphans()
    {
      if pendingOwners == map[] {
        pending, pendingEventCount, overflowed := map[], 0, false;
      }
    }
  }

  // ---- what the operations keep ----

  lemma {:induction false} TotalWithoutAll(buffers: map<Subscription, seq<TimelineEvent>>, gone: set<Subscription>)
    ensures Total(buffers - gone) <= Total(buffers)
    decreases gone
  {
    if gone == {} {
      assert buffers - gone == buffers;
    } else {
      var s :| s in gone;
      TotalWithoutAll(buffers, gone - {s});
      var rest := buffers - (gone - {s});
      assert rest - {s} == buffers - gone;
      if s in rest { TotalWithout(rest, s); } else { assert rest - {s} == rest; }
    }
  }

  lemma BeginKeepsSound<Owner>(r: Router<Owner>, owner: Owner)
    requires r.Sound()
    ensures r.Begin(owner).Sound()
  {
    assert owner in r.Begin(owner).inFlight;
  }

  lemma RouteKeepsSound<Owner>(r: Router<Owner>, event: TimelineEvent)
    requires r.Sound()
    ensures r.Route(event).Sound()
  {
    var s := event.subscription;
    TotalOfUpdate(r.pending, s, r.Buffer(s) + [event]);
    if s in r.pending { TotalWithout(r.pending, s); }
  }

  lemma CancelKeepsSound<Owner>(r: Router<Owner>, owner: Owner)
    requires r.Sound()
    ensures r.CancelPending(owner).Sound()
    ensures r.CancelPending(owner).owners == r.owners
    ensures forall s :: s in r.CancelPending(owner).pending ==>
      s in r.pending && r.CancelPending(owner).pending[s] == r.pending[s]
    ensures r.CancelPending(owner).inFlight != map[]
        ==> r.CancelPending(owner).pending == r.pending && r.CancelPending(owner).overflowed == r.overflowed
  {
    if owner in r.inFlight && r.inFlight[owner] != 1 {
      assert owner in r.CancelPending(owner).inFlight;
    }
  }

  /** Taking a buffer out and then ending the subscribe is doing both in the other order. */
  lemma CancelThenForget<Owner>(r: Router<Owner>, s: Subscription, owner: Owner)
    ensures r.(pending := r.pending - {s}).CancelPending(owner)
         == r.CancelPending(owner).(pending := r.CancelPending(owner).pending - {s})
  {
    var emptied: map<Subscription, seq<TimelineEvent>> := map[];
    assert emptied - {s} == emptied;
  }

  lemma ForgetKeepsSound<Owner>(r: Router<Owner>, s: Subscription)
    requires r.Sound()
    ensures r.(pending := r.pending - {s}).Sound()
  {
    TotalWithoutAll(r.pending, {s});
  }

  lemma ReleaseKeepsSound<Owner>(r: Router<Owner>, s: Subscription)
    requires r.Sound()
    ensures r.Release(s).Sound()
  {
    TotalWithoutAll(r.pending, {s});
  }

  lemma RemoveKeepsSound<Owner>(r: Router<Owner>, gone: set<Owner>)
    requires r.Sound()
    ensures r.RemoveOwners(gone).Sound()
    ensures r.RemoveOwners(gone).owners == r.owners - r.OwnedBy(gone)
      && r.RemoveOwners(gone).inFlight == r.inFlight - gone
    ensures forall s :: s in r.RemoveOwners(gone).pending ==>
      s in r.pending && r.RemoveOwners(gone).pending[s] == r.pending[s]
  {
    TotalWithoutAll(r.pending, r.OwnedBy(gone));
  }

  lemma OwnedCompose<Owner>(r: Router<Owner>, first: set<Owner>, second: set<Owner>)
    ensures r.OwnedBy(first + second) == r.OwnedBy(first) + r.RemoveOwners(first).OwnedBy(second)
  {
  }

  /** Closing owners together is closing them one after the other, in any order. */
  lemma RemovalsCompose<Owner>(r: Router<Owner>, first: set<Owner>, second: set<Owner>)
    ensures r.RemoveOwners(first).RemoveOwners(second) == r.RemoveOwners(first + second)
  {
    OwnedCompose(r, first, second);
    var owned, more := r.OwnedBy(first), r.RemoveOwners(first).OwnedBy(second);
    assert r.owners - owned - more == r.owners - (owned + more);
    assert r.pending - owned - more == r.pending - (owned + more);
    assert r.inFlight - first - second == r.inFlight - (first + second);
  }
}
