/** Which ports are open, and the events that go to all of them. */
module TimelineBroadcast {
  import opened TimelineRouter
  import opened CoreWorkerBoundary
  import opened TimelineDelivery

  // ---- what the run says ----

  function Payloads(events: seq<CoreEvent>): seq<string> {
    if events == [] then []
    else
      var last := events[|events| - 1];
      Payloads(events[..|events| - 1]) + if last.Other? then [last.payload] else []
  }

  /** The events for everyone among what a port was posted, in order. */
  function Heard(messages: seq<Message>): seq<string> {
    if messages == [] then []
    else
      var last := messages[|messages| - 1];
      Heard(messages[..|messages| - 1]) + if last.Events? then Payloads(last.events) else []
  }

  /** The batch of core events a step hands to the boundary. */
  ghost function Batch(s: System, step: Step): seq<CoreEvent> {
    if step.Deliver? && step.count <= |s.queue| then s.queue[..step.count] else []
  }

  ghost predicate HasOwn(s: System, events: seq<CoreEvent>, p: Port) {
    exists i :: 0 <= i < |events| && events[i].Timeline? && events[i].event.subscription in s.boundary.router.owners
      && s.boundary.router.owners[events[i].event.subscription] == p
  }

  /** Posting to the port throws, on the part of the batch that is for everyone or on its own part. */
  ghost predicate Throws(s: System, step: Step, p: Port) {
    && step.Deliver?
    && ((p in step.deaf && Payloads(Batch(s, step)) != []) || (p in step.broken && HasOwn(s, Batch(s, step), p)))
  }

  /** A port is open from its first connect until its page closes it or posting to it throws. */
  ghost predicate IsOpen(steps: seq<Step>, p: Port) {
    steps != [] &&
      var n := |steps| - 1;
      if Connect(p) !in steps[..n] then steps[n] == Connect(p)
      else IsOpen(steps[..n], p) && steps[n] != Close(p) && !Throws(Run(steps[..n]), steps[n], p)
  }

  /** The events for everyone that were delivered since the port connected. */
  ghost function DeliveredTo(steps: seq<Step>, p: Port): seq<string> {
    if steps == [] || Connect(p) !in steps[..|steps| - 1] then []
    else DeliveredTo(steps[..|steps| - 1], p) + Payloads(Batch(Run(steps[..|steps| - 1]), steps[|steps| - 1]))
  }

  // ---- batches ----

  lemma PayloadsAppended(events: seq<CoreEvent>, event: CoreEvent)
    ensures Payloads(events + [event]) == Payloads(events) + if event.Other? then [event.payload] else []
  {
    assert (events + [event])[..|events|] == events;
  }

  lemma {:induction false} PayloadsShared(events: seq<CoreEvent>)
    ensures Payloads(Shared(events)) == Payloads(events) && (Shared(events) == [] <==> Payloads(events) == [])
    decreases |events|
  {
    if events != [] {
      var n := |events| - 1;
      PayloadsShared(events[..n]);
      if events[n].Other? {
        PayloadsAppended(Shared(events[..n]), events[n]);
      } else {
        assert Shared(events) == Shared(events[..n]);
      }
    }
  }

  lemma {:induction false} PayloadsTimelines(events: seq<TimelineEvent>)
    ensures Payloads(Timelines(events)) == []
    decreases |events|
  {
    if events != [] {
      PayloadsTimelines(events[..|events| - 1]);
      PayloadsAppended(Timelines(events[..|events| - 1]), Timeline(events[|events| - 1]));
    }
  }

  lemma {:induction false} PayloadsRouted(owners: Owners, events: seq<CoreEvent>, p: Port)
    ensures Payloads(At(Routed(owners, events), p)) == []
    decreases |events|
  {
    if events != [] {
      var n := |events| - 1;
      PayloadsRouted(owners, events[..n], p);
      PayloadsAppended(At(Routed(owners, events[..n]), p), events[n]);
    }
  }

  lemma {:induction false} RoutedToOwners(s: System, events: seq<CoreEvent>, p: Port)
    ensures p in Routed(s.boundary.router.owners, events) <==> HasOwn(s, events, p)
    decreases |events|
  {
    if events != [] {
      var n := |events| - 1;
      RoutedToOwners(s, events[..n], p);
      assert HasOwn(s, events[..n], p) ==> HasOwn(s, events, p) by {
        forall i | 0 <= i < n ensures events[..n][i] == events[i] {}
      }
    }
  }

  lemma HeardPosted(messages: seq<Message>, message: Message)
    ensures Heard(messages + [message]) == Heard(messages) + if message.Events? then Payloads(message.events) else []
  {
    assert (messages + [message])[..|messages|] == messages;
  }

  // ---- every step ----

  function HeardBy(s: System, p: Port): seq<string> {
    Heard(At(s.boundary.sent, p))
  }

  ghost predicate HearsStep(s: System, step: Step, p: Port) {
    var t := Do(s, step);
    && t.boundary.sent.Keys == s.boundary.sent.Keys + (if step.Connect? then {step.port} else {})
    && (p in s.boundary.ports && p in t.boundary.ports ==> HeardBy(t, p) == HeardBy(s, p) + Payloads(Batch(s, step)))
    && (p in t.boundary.ports <==>
          || (step == Connect(p) && p !in s.boundary.sent)
          || (p in s.boundary.ports && step != Close(p) && !Throws(s, step, p)))
  }

  lemma BroadcastHeard(b: Boundary, receivers: set<Port>, events: seq<CoreEvent>, p: Port)
    requires p in receivers
    ensures Heard(At(b.PostAll(receivers, Events(Shared(events))).sent, p))
         == Heard(At(b.sent, p)) + Payloads(events)
  {
    PayloadsShared(events);
    HeardPosted(At(b.sent, p), Events(Shared(events)));
  }

  lemma OwnPartHeard(b: Boundary, owners: Owners, events: seq<CoreEvent>, receivers: set<Port>, p: Port)
    requires receivers <= Routed(owners, events).Keys
    ensures Heard(At(b.PostBatches(Routed(owners, events), receivers).sent, p)) == Heard(At(b.sent, p))
  {
    assert At(b.sent, p) + [] == At(b.sent, p);
    if p in receivers {
      PayloadsRouted(owners, events, p);
      HeardPosted(At(b.sent, p), Events(Routed(owners, events)[p]));
    }
  }

  lemma PostedHeard(b: Boundary, events: seq<CoreEvent>, deaf: set<Port>, broken: set<Port>, p: Port)
    requires p in b.ports - Closed(b, events, deaf, broken)
    ensures Heard(At(Posted(b, events, deaf, broken).sent, p)) == Heard(At(b.sent, p)) + Payloads(events)
  {
    var batches := Routed(b.router.owners, events);
    var routed := b.(router := RouteAll(b.router, events));
    var shared := if Shared(events) == [] then routed else routed.PostAll(b.ports - {} - deaf, Events(Shared(events)));
    PayloadsShared(events);
    if Shared(events) != [] { BroadcastHeard(routed, b.ports - {} - deaf, events, p); }
    OwnPartHeard(shared, b.router.owners, events, batches.Keys - {} - broken, p);
    assert Heard(At(b.sent, p)) + [] == Heard(At(b.sent, p));
  }

  lemma PostedKnown(s: System, events: seq<CoreEvent>, deaf: set<Port>, broken: set<Port>)
    requires Invariant(s)
    ensures Posted(s.boundary, events, deaf, broken).sent.Keys == s.boundary.sent.Keys
  {
    forall p | p in Routed(s.boundary.router.owners, events) ensures p in s.boundary.sent {
      RoutedToOwners(s, events, p);
    }
  }

  lemma CloseHears(b: Boundary, gone: set<Port>, p: Port)
    ensures b.Close(gone).sent == b.sent && (p in b.Close(gone).ports <==> p in b.ports && p !in gone)
  {
    CloseOnlyOpen(b, gone);
  }

  lemma ThrowsAreClosed(s: System, step: Step, p: Port)
    requires step.Deliver? && step.count <= |s.queue|
    ensures p in Closed(s.boundary, s.queue[..step.count], step.deaf, step.broken) <==> Throws(s, step, p)
  {
    PayloadsShared(s.queue[..step.count]);
    RoutedToOwners(s, s.queue[..step.count], p);
  }

  lemma DeliverHears(s: System, step: Step, p: Port)
    requires Invariant(s) && step.Deliver? && step.count <= |s.queue|
    ensures HearsStep(s, step, p)
  {
    hide InvariantFor, Posted, Closed, Payloads, Heard, Throws;
    var b, events := s.boundary, s.queue[..step.count];
    var posted, gone := Posted(b, events, step.deaf, step.broken), Closed(b, events, step.deaf, step.broken);
    HandleEventSplits(b, events, step.deaf, step.broken);
    PostedRest(b, events, step.deaf, step.broken);
    CloseHears(posted, gone, p);
    PostedKnown(s, events, step.deaf, step.broken);
    ThrowsAreClosed(s, step, p);
    if p in b.ports - gone { PostedHeard(b, events, step.deaf, step.broken, p); }
  }

  lemma PostHeard(b: Boundary, port: Port, message: Message, p: Port)
    requires message.Events? ==> Payloads(message.events) == []
    ensures Heard(At(b.Post(port, message).sent, p)) == Heard(At(b.sent, p))
  {
    HeardPosted(At(b.sent, port), message);
  }

  /** Nothing is heard by all, no port comes or goes. */
  ghost predicate Silent(b: Boundary, after: Boundary, p: Port) {
    after.ports == b.ports && after.sent.Keys == b.sent.Keys && Heard(At(after.sent, p)) == Heard(At(b.sent, p))
  }

  lemma SubscribedIsSilent(b: Boundary, r: RequestId, port: Port, x: Subscription, snapshot: seq<string>, p: Port)
    requires b.ports <= b.sent.Keys
    ensures Silent(b, b.Subscribed(r, port, x, snapshot).0, p)
  {
    var (freed, claimed) := b.router.Claim(x, port);
    var c := b.(router := freed);
    if claimed.Buffered? && port in b.ports {
      PostHeard(c, port, Ok(r, x, snapshot), p);
      PayloadsTimelines(claimed.events);
      PostHeard(c.Post(port, Ok(r, x, snapshot)), port, Events(Timelines(claimed.events)), p);
    }
  }

  ghost predicate SilentStep(s: System, step: Step, p: Port) {
    Silent(s.boundary, Do(s, step).boundary, p)
  }

  lemma SilentHears(s: System, step: Step, p: Port)
    requires SilentStep(s, step, p) && Batch(s, step) == [] && !step.Connect?
    requires step.Close? ==> step.port !in s.boundary.ports
    ensures HearsStep(s, step, p)
  {
    hide Do;
    assert HeardBy(s, p) + [] == HeardBy(s, p);
    assert !Throws(s, step, p);
  }

  lemma ReplySilent(s: System, step: Step, p: Port)
    requires s.boundary.ports <= s.boundary.sent.Keys && step.Reply?
    ensures SilentStep(s, step, p)
  {
    if step.request in s.frames && s.frames[step.request].Answered? && s.frames[step.request].subscription in s.feeds {
      var f := s.frames[step.request];
      SubscribedIsSilent(s.boundary, step.request, f.port, f.subscription, s.feeds[f.subscription].snapshot, p);
    }
  }

  lemma FailSilent(s: System, step: Step, p: Port)
    requires PortsKnown(s.boundary.ports, s.boundary.sent, s.frames) && step.Fail?
    ensures SilentStep(s, step, p)
  {
    if step.request in s.frames {
      var port, b := s.frames[step.request].port, s.boundary;
      PostHeard(b.(router := b.router.CancelPending(port)), port, Err(step.request), p);
    }
  }

  lemma RetractedSilent(s: System, step: Step, p: Port)
    requires PortsKnown(s.boundary.ports, s.boundary.sent, s.frames) && step.Retracted?
    ensures SilentStep(s, step, p)
  {
    if step.request in s.frames { PostHeard(s.boundary, s.frames[step.request].port, Err(step.request), p); }
  }

  lemma ReleasedSilent(s: System, step: Step, p: Port)
    requires PortsKnown(s.boundary.ports, s.boundary.sent, s.frames) && step.PageUnsubscribed?
    ensures SilentStep(s, step, p)
  {
    if step.request in s.frames && s.frames[step.request].PageCall? {
      var f, b := s.frames[step.request], s.boundary;
      PostHeard(b, f.port, Err(step.request), p);
      PostHeard(b.(router := b.router.Release(f.subscription)), f.port, Done(step.request), p);
    }
  }

  lemma CallSilent(s: System, step: Step, p: Port)
    requires step.Subscribe? || step.Create? || step.Emit? || step.PageUnsubscribe?
    ensures SilentStep(s, step, p)
  {
    if step.PageUnsubscribe? { PostHeard(s.boundary, step.port, Err(step.request), p); }
  }

  lemma PortHears(s: System, step: Step, p: Port)
    requires s.boundary.ports <= s.boundary.sent.Keys && (step.Connect? || step.Close?)
    ensures HearsStep(s, step, p)
  {
    if step.Close? { CloseOnlyOpen(s.boundary, {step.port}); }
    assert HeardBy(s, p) + [] == HeardBy(s, p);
  }

  lemma StepHears(s: System, step: Step, p: Port)
    requires Invariant(s)
    ensures HearsStep(s, step, p)
  {
    hide InvariantFor, HearsStep, SilentStep;
    KnownPorts(s);
    match step
    case Deliver(count, _, _) => if count <= |s.queue| { DeliverHears(s, step, p); } else { IdleHears(s, step, p); }
    case Connect(_) => PortHears(s, step, p);
    case Close(_) => PortHears(s, step, p);
    case Reply(_) => ReplySilent(s, step, p); SilentHears(s, step, p);
    case Fail(_) => FailSilent(s, step, p); SilentHears(s, step, p);
    case Retracted(_, _) => RetractedSilent(s, step, p); SilentHears(s, step, p);
    case PageUnsubscribed(_, _) => ReleasedSilent(s, step, p); SilentHears(s, step, p);
    case _ => CallSilent(s, step, p); SilentHears(s, step, p);
  }

  lemma IdleHears(s: System, step: Step, p: Port)
    requires step.Deliver? && step.count > |s.queue|
    ensures HearsStep(s, step, p)
  {
    assert HeardBy(s, p) + [] == HeardBy(s, p);
  }

  lemma KnownPorts(s: System)
    requires Invariant(s)
    ensures PortsKnown(s.boundary.ports, s.boundary.sent, s.frames)
  {
  }

  // ---- every run ----

  ghost predicate Tells(steps: seq<Step>, p: Port) {
    var s := Run(steps);
    && (p in s.boundary.sent <==> Connect(p) in steps)
    && (p in s.boundary.ports <==> IsOpen(steps, p))
    && (p in s.boundary.ports ==> HeardBy(s, p) == DeliveredTo(steps, p))
    && (p !in s.boundary.sent ==> p !in s.boundary.ports)
  }

  lemma {:induction false} StepTells(steps: seq<Step>, p: Port)
    requires steps != [] && Tells(steps[..|steps| - 1], p)
    requires HearsStep(Run(steps[..|steps| - 1]), steps[|steps| - 1], p)
    ensures Tells(steps, p)
  {
    var n := |steps| - 1;
    var s, step, t := Run(steps[..n]), steps[n], Run(steps);
    assert t == Do(s, step);
    assert Connect(p) in steps <==> Connect(p) in steps[..n] || step == Connect(p);
    hide Do, Throws, Batch, Run;
    assert p in t.boundary.sent <==> p in s.boundary.sent || step == Connect(p);
    assert p in t.boundary.ports <==> IsOpen(steps, p);
    if p in t.boundary.ports {
      if p in s.boundary.ports {
        assert HeardBy(t, p) == HeardBy(s, p) + Payloads(Batch(s, step));
      } else {
        assert HeardBy(t, p) == [];
      }
    }
  }

  lemma InitialTells(p: Port)
    ensures Tells([], p)
  {
    assert Run([]) == Initial();
  }

  lemma {:induction false} RunTells(steps: seq<Step>, p: Port)
    ensures Tells(steps, p)
    decreases |steps|
  {
    if steps == [] {
      InitialTells(p);
    } else {
      var n := |steps| - 1;
      RunTells(steps[..n], p);
      RunKeeps(steps[..n]);
      StepHears(Run(steps[..n]), steps[n], p);
      StepTells(steps, p);
    }
  }

  /** On every run a port is open exactly from its connect until its page closes it or posting to it
      throws, and while it is open it has been posted every event for everyone that was delivered
      since it connected, once and in order. */
  lemma {:induction false} OpenPortsHearEverything(steps: seq<Step>, p: Port)
    ensures var b := Run(steps).boundary;
      && (p in b.ports <==> IsOpen(steps, p))
      && (p in b.ports ==> Heard(At(b.sent, p)) == DeliveredTo(steps, p))
  {
    hide Run;
    RunTells(steps, p);
  }
}
