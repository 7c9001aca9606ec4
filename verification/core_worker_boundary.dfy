/** The worker boundary: page ports, the routing of core events to them, and the atomic stretches
    of the subscribe and unsubscribe calls between two awaits. */
module CoreWorkerBoundary {
  import opened Options
  import opened TimelineRouter

  type Port(==, !new)
  type RequestId(==, !new)

  datatype CoreEvent = Timeline(event: TimelineEvent) | Other(payload: string)

  datatype Message =
    | Ok(request: RequestId, subscription: Subscription, snapshot: seq<string>)
    | Done(request: RequestId)
    | Err(request: RequestId)
    | Events(events: seq<CoreEvent>)

  const MAX_ATTEMPTS: nat := 3

  /** What an async call does once its atomic stretch ends. */
  datatype Next =
    | Return
    | CallSubscribe(attempt: nat)
    | CallUnsubscribe(retry: bool)

  /** The events of a batch for one subscription, in order. */
  function Of(events: seq<CoreEvent>, s: Subscription): seq<TimelineEvent> {
    if events == [] then []
    else
      var last := events[|events| - 1];
      Of(events[..|events| - 1], s) + if last.Timeline? && last.event.subscription == s then [last.event] else []
  }

  function Shared(events: seq<CoreEvent>): seq<CoreEvent> {
    if events == [] then []
    else
      var last := events[|events| - 1];
      Shared(events[..|events| - 1]) + if last.Other? then [last] else []
  }

  function At<K, V>(batches: map<K, seq<V>>, key: K): seq<V> {
    if key in batches then batches[key] else []
  }

  /** The batch each owner of a subscription gets. */
  function Routed(owners: map<Subscription, Port>, events: seq<CoreEvent>): map<Port, seq<CoreEvent>> {
    if events == [] then map[]
    else
      var batches := Routed(owners, events[..|events| - 1]);
      var last := events[|events| - 1];
      if last.Timeline? && last.event.subscription in owners then
        var owner := owners[last.event.subscription];
        batches[owner := At(batches, owner) + [last]]
      else batches
  }

  ghost function RouteAll(router: Router<Port>, events: seq<CoreEvent>): Router<Port> {
    if events == [] then router
    else
      var before := RouteAll(router, events[..|events| - 1]);
      var last := events[|events| - 1];
      if last.Timeline? then before.Route(last.event) else before
  }

  lemma {:induction false} RouteAllKeepsOwners(router: Router<Port>, events: seq<CoreEvent>)
    ensures RouteAll(router, events).owners == router.owners
    ensures RouteAll(router, events).inFlight == router.inFlight
    decreases |events|
  {
    if events != [] { RouteAllKeepsOwners(router, events[..|events| - 1]); }
  }

  /** The boundary as a value. `sent` is what each port was posted; `unsubscribing` holds every
      subscription whose unsubscribe call was issued or scheduled. */
  datatype Boundary = Boundary(
    ports: set<Port>,
    router: Router<Port>,
    sent: map<Port, seq<Message>>,
    unsubscribing: set<Subscription>)
  {
    function Connect(port: Port): Boundary {
      this.(ports := ports + {port}, sent := sent[port := At(sent, port)])
    }

    function Post(port: Port, message: Message): Boundary {
      this.(sent := sent[port := At(sent, port) + [message]])
    }

    function PostIfOpen(port: Port, message: Message): Boundary {
      if port in ports then Post(port, message) else this
    }

    /** Posts, or closes the port when posting throws. */
    function Offer(port: Port, message: Message, broken: set<Port>): Boundary {
      if port in broken then Close({port}) else Post(port, message)
    }

    /** The same message to a set of ports. */
    function PostAll(receivers: set<Port>, message: Message): Boundary {
      this.(sent := map p | p in sent.Keys + receivers :: At(sent, p) + if p in receivers then [message] else [])
    }

    /** To each receiver its own batch. */
    function PostBatches(batches: map<Port, seq<CoreEvent>>, receivers: set<Port>): Boundary
      requires receivers <= batches.Keys
    {
      this.(sent := map p | p in sent.Keys + receivers ::
        At(sent, p) + if p in receivers then [Events(batches[p])] else [])
    }

    function Close(gone: set<Port>): Boundary {
      if gone * ports == {} then this else CloseOpen(gone * ports)
    }

    function CloseOpen(closing: set<Port>): Boundary {
      Boundary(ports - closing, router.RemoveOwners(closing), sent, unsubscribing + router.OwnedBy(closing))
    }

    /** The broadcast once only the ports in `rest` are still to be offered the message. */
    function BroadcastBut(rest: set<Port>, message: Message, broken: set<Port>): Boundary {
      PostAll(ports - rest - broken, message).Close(broken - rest)
    }

    function Broadcast(message: Message, broken: set<Port>): Boundary {
      BroadcastBut({}, message, broken)
    }

    /** The routed batches once only the owners in `rest` are still to be offered theirs. */
    function DispatchBut(rest: set<Port>, batches: map<Port, seq<CoreEvent>>, broken: set<Port>): Boundary {
      PostBatches(batches, batches.Keys - rest - broken).Close(batches.Keys * broken - rest)
    }

    /** `deaf` are the ports whose `postMessage` throws on the broadcast, `broken` those where it throws
        on their routed part. */
    ghost function HandleEvent(events: seq<CoreEvent>, deaf: set<Port>, broken: set<Port>): Boundary {
      var routed := this.(router := RouteAll(router, events));
      var shared := if Shared(events) == [] then routed else routed.Broadcast(Events(Shared(events)), deaf);
      shared.DispatchBut({}, Routed(router.owners, events), broken)
    }

    function Subscribe(port: Port, attempt: nat): (Boundary, Next) {
      if port in ports then (this.(router := router.Begin(port)), CallSubscribe(attempt)) else (this, Return)
    }

    function Subscribed(request: RequestId, port: Port, s: Subscription, snapshot: seq<string>): (Boundary, Next) {
      var (freed, claimed) := router.Claim(s, port);
      var b := this.(router := freed);
      if claimed.NotPending? || claimed.Overflow? || port !in ports then
        (b.(unsubscribing := unsubscribing + {s}), CallUnsubscribe(claimed.Overflow?))
      else
        var answered := b.Post(port, Ok(request, s, snapshot));
        if claimed.events == [] then (answered, Return)
        else (answered.Post(port, Events(Timelines(claimed.events))), Return)
    }

    function SubscribeFailed(request: RequestId, port: Port): Boundary {
      this.(router := router.CancelPending(port)).PostIfOpen(port, Err(request))
    }

    function Unsubscribed(request: RequestId, port: Port, attempt: nat, retry: bool, ok: bool): (Boundary, Next) {
      if !ok then (PostIfOpen(port, Err(request)), Return)
      else if retry && port in ports then
        if attempt + 1 < MAX_ATTEMPTS then Subscribe(port, attempt + 1)
        else (Post(port, Err(request)), Return)
      else (this, Return)
    }

    function PageUnsubscribe(request: RequestId, port: Port, s: Subscription): (Boundary, Next) {
      if s in router.owners && router.owners[s] == port
      then (this.(unsubscribing := unsubscribing + {s}), CallUnsubscribe(false))
      else (Post(port, Err(request)), Return)
    }

    function PageUnsubscribed(request: RequestId, port: Port, s: Subscription, ok: bool): Boundary {
      if ok then this.(router := router.Release(s)).Post(port, Done(request))
      else PostIfOpen(port, Err(request))
    }
  }

  function Timelines(events: seq<TimelineEvent>): seq<CoreEvent> {
    if events == [] then [] else Timelines(events[..|events| - 1]) + [Timeline(events[|events| - 1])]
  }

  function Start(): Boundary {
    Boundary({}, Empty(), map[], {})
  }

  lemma CloseOnlyOpen(b: Boundary, gone: set<Port>)
    ensures b.Close(gone) == b.Close(gone * b.ports)
    ensures b.Close(gone).ports == b.ports - gone && b.Close(gone).sent == b.sent
  {
    assert gone * b.ports * b.ports == gone * b.ports;
    assert b.ports - gone * b.ports == b.ports - gone;
  }

  /** Closing ports one by one, in any order, is closing them together. */
  lemma ClosesCompose(b: Boundary, first: set<Port>, second: set<Port>)
    ensures b.Close(first).Close(second) == b.Close(first + second)
  {
    var a, c := first * b.ports, second * b.Close(first).ports;
    CloseOnlyOpen(b, first);
    assert (first + second) * b.ports == a + c;
    if a != {} && c != {} { OpenClosesCompose(b, a, c); }
  }

  lemma OpenClosesCompose(b: Boundary, first: set<Port>, second: set<Port>)
    ensures b.CloseOpen(first).CloseOpen(second) == b.CloseOpen(first + second)
  {
    RemovalsCompose(b.router, first, second);
    OwnedCompose(b.router, first, second);
    assert b.ports - first - second == b.ports - (first + second);
  }

  lemma PostAllGrows(b: Boundary, receivers: set<Port>, port: Port, message: Message)
    requires port !in receivers
    ensures b.PostAll(receivers, message).Post(port, message) == b.PostAll(receivers + {port}, message)
  {
    var once, twice := b.PostAll(receivers, message).Post(port, message), b.PostAll(receivers + {port}, message);
    assert At(b.sent, port) + [] == At(b.sent, port);
    assert once.sent.Keys == twice.sent.Keys;
    assert forall p :: p in once.sent ==> once.sent[p] == twice.sent[p];
  }

  /** One turn of the broadcast loop. */
  lemma BroadcastTurn(b: Boundary, message: Message, broken: set<Port>, rest: set<Port>, port: Port)
    requires port in rest && rest <= b.ports
    ensures b.BroadcastBut(rest, message, broken).Offer(port, message, broken)
         == b.BroadcastBut(rest - {port}, message, broken)
  {
    var after := rest - {port};
    if port in broken {
      ClosesCompose(b.PostAll(b.ports - rest - broken, message), broken - rest, {port});
      assert broken - rest + {port} == broken - after;
      assert b.ports - rest - broken == b.ports - after - broken;
    } else {
      PostAllGrows(b, b.ports - rest - broken, port, message);
      assert b.ports - rest - broken + {port} == b.ports - after - broken;
      assert broken - rest == broken - after;
    }
  }

  lemma BroadcastStart(b: Boundary, message: Message, broken: set<Port>)
    ensures b.BroadcastBut(b.ports, message, broken) == b
  {
    forall p | p in b.sent ensures b.PostAll({}, message).sent[p] == b.sent[p] {
      assert b.sent[p] + [] == b.sent[p];
    }
    assert b.ports - b.ports - broken == {};
    assert (broken - b.ports) * b.ports == {};
  }

  /** One turn of the loop over the routed batches. */
  lemma DispatchTurn(b: Boundary, batches: map<Port, seq<CoreEvent>>, broken: set<Port>, rest: set<Port>, port: Port)
    requires port in rest && rest <= batches.Keys
    ensures b.DispatchBut(rest, batches, broken).Offer(port, Events(batches[port]), broken)
         == b.DispatchBut(rest - {port}, batches, broken)
  {
    var after := rest - {port};
    var receivers := batches.Keys - rest - broken;
    if port in broken {
      ClosesCompose(b.PostBatches(batches, receivers), batches.Keys * broken - rest, {port});
      assert batches.Keys * broken - rest + {port} == batches.Keys * broken - after;
      assert receivers == batches.Keys - after - broken;
    } else {
      PostBatchesGrows(b, batches, receivers, port);
      assert receivers + {port} == batches.Keys - after - broken;
      assert batches.Keys * broken - rest == batches.Keys * broken - after;
    }
  }

  lemma PostBatchesGrows(b: Boundary, batches: map<Port, seq<CoreEvent>>, receivers: set<Port>, port: Port)
    requires port !in receivers && port in batches && receivers <= batches.Keys
    ensures b.PostBatches(batches, receivers).Post(port, Events(batches[port]))
         == b.PostBatches(batches, receivers + {port})
  {
    var once, twice :=
      b.PostBatches(batches, receivers).Post(port, Events(batches[port])), b.PostBatches(batches, receivers + {port});
    assert At(b.sent, port) + [] == At(b.sent, port);
    assert once.sent.Keys == twice.sent.Keys;
    assert forall p :: p in once.sent ==> once.sent[p] == twice.sent[p];
  }

  lemma DispatchStart(b: Boundary, batches: map<Port, seq<CoreEvent>>, broken: set<Port>)
    ensures b.DispatchBut(batches.Keys, batches, broken) == b
  {
    assert batches.Keys - batches.Keys - broken == {};
    forall p | p in b.sent ensures b.PostBatches(batches, {}).sent[p] == b.sent[p] {
      assert b.sent[p] + [] == b.sent[p];
    }
    assert (batches.Keys * broken - batches.Keys) * b.ports == {};
  }

  class Worker {
    var ports: set<Port>
    const timelineEvents: TimelineEventRouter<Port>
    var sent: map<Port, seq<Message>>
    var unsubscribing: set<Subscription>

    function State(): Boundary
      reads this, timelineEvents
    {
      Boundary(ports, timelineEvents.State(), sent, unsubscribing)
    }

    ghost predicate Valid()
      reads this, timelineEvents
    {
      timelineEvents.Valid()
    }

    constructor ()
      ensures Valid() && State() == Start() && fresh(timelineEvents)
    {
      timelineEvents := new TimelineEventRouter();
      ports, sent, unsubscribing := {}, map[], {};
    }

    method Connect(port: Port)
      requires Valid()
      modifies this, timelineEvents
      ensures Valid() && State() == old(State()).Connect(port)
    {
      ports := ports + {port};
      sent := sent[port := At(sent, port)];
    }

    method PostMessage(port: Port, message: Message)
      requires Valid()
      modifies this`sent
      ensures Valid() && State() == old(State()).Post(port, message)
    {
      sent := sent[port := At(sent, port) + [message]];
    }

    method ClosePort(port: Port)
      requires Valid()
      modifies this, timelineEvents
      ensures Valid() && State() == old(State()).Close({port})
    {
      if port !in ports { return; }
      ports := ports - {port};
      var subscriptions := timelineEvents.RemoveOwner(port);
      unsubscribing := unsubscribing + set s | s in subscriptions;
      assert {port} * old(ports) == {port};
      assert (set s | s in subscriptions) == old(State()).router.OwnedBy({port});
    }

    method Offer(port: Port, message: Message, broken: set<Port>)
      requires Valid()
      modifies this, timelineEvents
      ensures Valid() && State() == old(State()).Offer(port, message, broken)
    {
      if port in broken {
        ClosePort(port);
      } else {
        PostMessage(port, message);
      }
    }

    method Broadcast(message: Message, broken: set<Port>)
      requires Valid()
      modifies this, timelineEvents
      ensures Valid() && State() == old(State()).Broadcast(message, broken)
    {
      ghost var before := State();
      BroadcastStart(before, message, broken);
      var rest := ports;
      while rest != {}
        invariant rest <= before.ports
        invariant Valid() && State() == before.BroadcastBut(rest, message, broken)
      {
        var port :| port in rest;
        BroadcastTurn(before, message, broken, rest, port);
        Offer(port, message, broken);
        rest := rest - {port};
      }
    }

    method HandleEvent(events: seq<CoreEvent>, deaf: set<Port>, broken: set<Port>)
      requires Valid()
      modifies this, timelineEvents
      ensures Valid() && State() == old(State()).HandleEvent(events, deaf, broken)
    {
      var shared, routed := RouteBatch(events);
      if shared != [] {
        Broadcast(Events(shared), deaf);
      }
      ghost var before := State();
      DispatchStart(before, routed, broken);
      var rest := routed.Keys;
      while rest != {}
        invariant rest <= routed.Keys
        invariant Valid() && State() == before.DispatchBut(rest, routed, broken)
      {
        var owner :| owner in rest;
        DispatchTurn(before, routed, broken, rest, owner);
        Offer(owner, Events(routed[owner]), broken);
        rest := rest - {owner};
      }
    }

    method RouteBatch(events: seq<CoreEvent>) returns (shared: seq<CoreEvent>, routed: map<Port, seq<CoreEvent>>)
      requires Valid()
      modifies timelineEvents
      ensures Valid() && State() == old(State()).(router := RouteAll(old(State()).router, events))
      ensures shared == Shared(events) && routed == Routed(old(State()).router.owners, events)
    {
      ghost var before := timelineEvents.State();
      shared, routed := [], map[];
      for i := 0 to |events|
        invariant Valid() && timelineEvents.State() == RouteAll(before, events[..i])
        invariant shared == Shared(events[..i]) && routed == Routed(before.owners, events[..i])
      {
        assert events[..i + 1][..i] == events[..i];
        RouteAllKeepsOwners(before, events[..i]);
        match events[i] {
          case Timeline(event) =>
            var owner := timelineEvents.Route(event);
            if owner.Some? {
              routed := routed[owner.value := At(routed, owner.value) + [events[i]]];
            }
          case Other(_) => shared := shared + [events[i]];
        }
      }
      assert events[..|events|] == events;
    }

    /** One attempt of a subscribe call, up to the call into the core. */
    method Subscribe(port: Port, attempt: nat) returns (next: Next)
      requires Valid()
      modifies this, timelineEvents
      ensures Valid() && (State(), next) == old(State()).Subscribe(port, attempt)
    {
      if port !in ports { return Return; }
      timelineEvents.Begin(port);
      return CallSubscribe(attempt);
    }

    /** The core answered a subscribe call. */
    method Subscribed(request: RequestId, port: Port, subscription: Subscription, snapshot: seq<string>)
      returns (next: Next)
      requires Valid()
      modifies this, timelineEvents
      ensures Valid() && (State(), next) == old(State()).Subscribed(request, port, subscription, snapshot)
    {
      var events := timelineEvents.Claim(subscription, port);
      if events.NotPending? || events.Overflow? || port !in ports {
        unsubscribing := unsubscribing + {subscription};
        return CallUnsubscribe(events.Overflow?);
      }
      PostMessage(port, Ok(request, subscription, snapshot));
      if |events.events| > 0 { PostMessage(port, Events(Timelines(events.events))); }
      return Return;
    }

    /** The core rejected a subscribe call. */
    method SubscribeFailed(request: RequestId, port: Port)
      requires Valid()
      modifies this, timelineEvents
      ensures Valid() && State() == old(State()).SubscribeFailed(request, port)
    {
      timelineEvents.CancelPending(port);
      if port in ports { PostMessage(port, Err(request)); }
    }

    /** The unsubscribe call of a lost subscribe ended; an overflowed one tries again. */
    method Unsubscribed(request: RequestId, port: Port, attempt: nat, retry: bool, ok: bool) returns (next: Next)
      requires Valid()
      modifies this, timelineEvents
      ensures Valid() && (State(), next) == old(State()).Unsubscribed(request, port, attempt, retry, ok)
    {
      if !ok {
        if port in ports { PostMessage(port, Err(request)); }
        return Return;
      }
      if !(retry && port in ports) { return Return; }
      if attempt + 1 < MAX_ATTEMPTS {
        next := Subscribe(port, attempt + 1);
      } else {
        PostMessage(port, Err(request));
        return Return;
      }
    }

    method PageUnsubscribe(request: RequestId, port: Port, subscription: Subscription) returns (next: Next)
      requires Valid()
      modifies this, timelineEvents
      ensures Valid() && (State(), next) == old(State()).PageUnsubscribe(request, port, subscription)
    {
      if !timelineEvents.Owns(subscription, port) {
        PostMessage(port, Err(request));
        return Return;
      }
      unsubscribing := unsubscribing + {subscription};
      return CallUnsubscribe(false);
    }

    method PageUnsubscribed(request: RequestId, port: Port, subscription: Subscription, ok: bool)
      requires Valid()
      modifies this, timelineEvents
      ensures Valid() && State() == old(State()).PageUnsubscribed(request, port, subscription, ok)
    {
      if ok {
        timelineEvents.Release(subscription);
        PostMessage(port, Done(request));
      } else if port in ports {
        PostMessage(port, Err(request));
      }
    }
  }
}
