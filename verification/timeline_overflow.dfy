/** When the buffers overflow, told from the run alone, and what a reply then does. */
module TimelineOverflow {
  import opened TimelineDiffs
  import opened TimelineRouter
  import opened CoreWorkerBoundary
  import opened TimelineDelivery

  // ---- what has been delivered without a page to give it to ----

  /** The timeline events of a batch whose subscription no page owns. */
  function Unowned(owners: Owners, events: seq<CoreEvent>): seq<TimelineEvent> {
    if events == [] then []
    else
      var last := events[|events| - 1];
      Unowned(owners, events[..|events| - 1])
        + if last.Timeline? && last.event.subscription !in owners then [last.event] else []
  }

  function Select(events: seq<TimelineEvent>, x: Subscription): seq<TimelineEvent> {
    if events == [] then []
    else
      var last := events[|events| - 1];
      Select(events[..|events| - 1], x) + if last.subscription == x then [last] else []
  }

  function Remaining(events: seq<TimelineEvent>, gone: set<Subscription>): seq<TimelineEvent> {
    if events == [] then []
    else
      var last := events[|events| - 1];
      Remaining(events[..|events| - 1], gone) + if last.subscription in gone then [] else [last]
  }

  /** The events a step delivers to nobody while a subscribe is in flight. */
  ghost function Arrivals(s: System, step: Step): seq<TimelineEvent> {
    match step
    case Deliver(count, _, _) =>
      if count <= |s.queue| && s.boundary.router.inFlight != map[]
      then Unowned(s.boundary.router.owners, s.queue[..count]) else []
    case _ => []
  }

  /** A step settles a subscription when a reply claims it for a subscribe in flight, or when the
      core ended it for a page. */
  ghost function Settled(s: System, step: Step): set<Subscription> {
    match step
    case Reply(r) =>
      if r in s.frames && s.frames[r].Answered? && s.frames[r].port in s.boundary.router.inFlight
      then {s.frames[r].subscription} else {}
    case PageUnsubscribed(r, ok) =>
      if r in s.frames && s.frames[r].PageCall? && ok then {s.frames[r].subscription} else {}
    case _ => {}
  }

  /** Everything delivered to nobody, and not settled, since a subscribe has always been in flight. */
  ghost function Unclaimed(steps: seq<Step>): seq<TimelineEvent> {
    if steps == [] || Run(steps).boundary.router.inFlight == map[] then []
    else
      var before, step := Run(steps[..|steps| - 1]), steps[|steps| - 1];
      Remaining(Unclaimed(steps[..|steps| - 1]) + Arrivals(before, step), Settled(before, step))
  }

  /** More than a hundred were unclaimed at once since a subscribe has always been in flight. */
  ghost predicate Flooded(steps: seq<Step>) {
    && steps != [] && Run(steps).boundary.router.inFlight != map[]
    && (Flooded(steps[..|steps| - 1]) || |Unclaimed(steps)| > 100)
  }

  // ---- the router against them ----

  /** The router buffers exactly the unclaimed events, or has overflowed because there were too many. */
  ghost predicate Tracks(router: Router<Port>, unclaimed: seq<TimelineEvent>, flooded: bool) {
    && router.overflowed == flooded
    && (!flooded ==> Total(router.pending) == |unclaimed| && forall x :: router.Buffer(x) == Select(unclaimed, x))
  }

  lemma {:induction false} SelectRemaining(events: seq<TimelineEvent>, gone: set<Subscription>, x: Subscription)
    ensures Select(Remaining(events, gone), x) == if x in gone then [] else Select(events, x)
    decreases |events|
  {
    if events != [] {
      var n := |events| - 1;
      SelectRemaining(events[..n], gone, x);
      if events[n].subscription in gone {
        assert Remaining(events[..n], gone) + [] == Remaining(events[..n], gone);
      } else {
        assert (Remaining(events[..n], gone) + [events[n]])[..|Remaining(events[..n], gone)|]
            == Remaining(events[..n], gone);
      }
    }
  }

  lemma {:induction false} RemainingOne(events: seq<TimelineEvent>, x: Subscription)
    ensures |Remaining(events, {x})| == |events| - |Select(events, x)|
    decreases |events|
  {
    if events != [] { RemainingOne(events[..|events| - 1], x); }
  }

  lemma {:induction false} RemainingNone(events: seq<TimelineEvent>)
    ensures Remaining(events, {}) == events
    decreases |events|
  {
    if events != [] {
      RemainingNone(events[..|events| - 1]);
      assert events == events[..|events| - 1] + [events[|events| - 1]];
    }
  }

  /** One routed event. */
  lemma RouteTracks(router: Router<Port>, event: TimelineEvent, unclaimed: seq<TimelineEvent>, flooded: bool)
    requires router.Sound() && router.inFlight != map[] && event.subscription !in router.owners
    requires Tracks(router, unclaimed, flooded) && (|unclaimed| > 100 ==> flooded)
    ensures Tracks(router.Route(event), unclaimed + [event], flooded || |unclaimed + [event]| > 100)
  {
    var s := event.subscription;
    TotalOfUpdate(router.pending, s, router.Buffer(s) + [event]);
    if s in router.pending { TotalWithout(router.pending, s); }
    assert (unclaimed + [event])[..|unclaimed|] == unclaimed;
  }

  /** A routed batch. */
  lemma {:induction false} BatchTracks(router: Router<Port>, events: seq<CoreEvent>, unclaimed: seq<TimelineEvent>,
      flooded: bool)
    requires router.Sound() && router.inFlight != map[]
    requires Tracks(router, unclaimed, flooded) && (|unclaimed| > 100 ==> flooded)
    ensures var more := unclaimed + Unowned(router.owners, events);
      Tracks(RouteAll(router, events), more, flooded || |more| > 100)
    decreases |events|
  {
    if events == [] {
      assert unclaimed + [] == unclaimed;
    } else {
      var n := |events| - 1;
      var middle, so := RouteAll(router, events[..n]), unclaimed + Unowned(router.owners, events[..n]);
      BatchTracks(router, events[..n], unclaimed, flooded);
      RouteAllKeepsSound(router, events[..n]);
      RouteAllKeepsOwners(router, events[..n]);
      if events[n].Timeline? && events[n].event.subscription !in router.owners {
        RouteTracks(middle, events[n].event, so, flooded || |so| > 100);
        assert so + [events[n].event] == unclaimed + Unowned(router.owners, events);
      } else {
        assert so == unclaimed + Unowned(router.owners, events);
      }
    }
  }

  /** Taking a buffer out settles its subscription. */
  lemma TakeTracks(router: Router<Port>, x: Subscription, unclaimed: seq<TimelineEvent>, flooded: bool)
    requires router.Sound() && Tracks(router, unclaimed, flooded)
    ensures Tracks(router.(pending := router.pending - {x}), Remaining(unclaimed, {x}), flooded)
  {
    var after := router.(pending := router.pending - {x});
    if !flooded {
      if x in router.pending {
        TotalWithout(router.pending, x);
      } else {
        assert router.pending - {x} == router.pending;
      }
      RemainingOne(unclaimed, x);
      forall y ensures after.Buffer(y) == Select(Remaining(unclaimed, {x}), y) { SelectRemaining(unclaimed, {x}, y); }
    } else {
      assert router.pending - {x} == map[];
    }
  }

  /** The end of the last subscribe clears everything; anything else here leaves the buffers. */
  ghost predicate OnlyClears(router: Router<Port>, after: Router<Port>) {
    if after.inFlight == map[] then after.pending == map[] && !after.overflowed
    else after.pending == router.pending && after.overflowed == router.overflowed
  }

  lemma ClearTracks(router: Router<Port>, after: Router<Port>, unclaimed: seq<TimelineEvent>, flooded: bool)
    requires Tracks(router, unclaimed, flooded) && OnlyClears(router, after)
    ensures Tracks(after, if after.inFlight == map[] then [] else unclaimed, after.inFlight != map[] && flooded)
  {
  }

  // ---- every step ----

  lemma CloseClears(b: Boundary, gone: set<Port>)
    requires b.router.Sound()
    ensures OnlyClears(b.router, b.Close(gone).router)
  {
    if gone * b.ports != {} { assert b.router.pending - b.router.OwnedBy(gone * b.ports) == b.router.pending; }
  }

  lemma CancelClears(router: Router<Port>, port: Port)
    requires router.Sound()
    ensures OnlyClears(router, router.CancelPending(port))
  {
    CancelKeepsSound(router, port);
  }

  /** What the run says after a step, given what it said before. */
  ghost function UnclaimedAfter(s: System, step: Step, unclaimed: seq<TimelineEvent>): seq<TimelineEvent> {
    if Do(s, step).boundary.router.inFlight == map[] then []
    else Remaining(unclaimed + Arrivals(s, step), Settled(s, step))
  }

  ghost predicate FloodedAfter(s: System, step: Step, unclaimed: seq<TimelineEvent>, flooded: bool) {
    Do(s, step).boundary.router.inFlight != map[] && (flooded || |UnclaimedAfter(s, step, unclaimed)| > 100)
  }

  ghost predicate TracksStep(s: System, step: Step, unclaimed: seq<TimelineEvent>, flooded: bool) {
    Tracks(Do(s, step).boundary.router, UnclaimedAfter(s, step, unclaimed), FloodedAfter(s, step, unclaimed, flooded))
  }

  ghost predicate Ready(s: System, unclaimed: seq<TimelineEvent>, flooded: bool) {
    && s.boundary.router.Sound()
    && Tracks(s.boundary.router, unclaimed, flooded) && (|unclaimed| > 100 ==> flooded)
    && (s.boundary.router.inFlight == map[] ==> unclaimed == [] && !flooded)
  }

  lemma QuietTracks(s: System, step: Step, unclaimed: seq<TimelineEvent>, flooded: bool)
    requires Ready(s, unclaimed, flooded)
    requires Arrivals(s, step) == [] && Settled(s, step) == {}
    requires OnlyClears(s.boundary.router, Do(s, step).boundary.router)
    ensures TracksStep(s, step, unclaimed, flooded)
  {
    hide Do, Router.Sound;
    assert unclaimed + [] == unclaimed;
    RemainingNone(unclaimed);
    ClearTracks(s.boundary.router, Do(s, step).boundary.router, unclaimed, flooded);
  }

  lemma DeliverTracks(s: System, step: Step, unclaimed: seq<TimelineEvent>, flooded: bool)
    requires Ready(s, unclaimed, flooded) && step.Deliver? && step.count <= |s.queue|
    ensures TracksStep(s, step, unclaimed, flooded)
  {
    var b, events := s.boundary, s.queue[..step.count];
    var posted, gone := Posted(b, events, step.deaf, step.broken), Closed(b, events, step.deaf, step.broken);
    HandleEventSplits(b, events, step.deaf, step.broken);
    PostedRest(b, events, step.deaf, step.broken);
    RouteAllKeepsSound(b.router, events);
    RouteAllKeepsOwners(b.router, events);
    CloseClears(posted, gone);
    DeliverClears(s, step, unclaimed, flooded, posted.router);
  }

  lemma DeliverClears(s: System, step: Step, unclaimed: seq<TimelineEvent>, flooded: bool, middle: Router<Port>)
    requires Ready(s, unclaimed, flooded) && step.Deliver? && step.count <= |s.queue|
    requires middle == RouteAll(s.boundary.router, s.queue[..step.count])
    requires middle.inFlight == s.boundary.router.inFlight
    requires OnlyClears(middle, Do(s, step).boundary.router)
    requires s.boundary.router.inFlight == map[] ==> Do(s, step).boundary.router.inFlight == map[]
    ensures TracksStep(s, step, unclaimed, flooded)
  {
    if s.boundary.router.inFlight != map[] {
      BusyDeliverClears(s, step, unclaimed, flooded, middle);
    } else {
      hide Do, RouteAll;
    }
  }

  lemma BusyDeliverClears(s: System, step: Step, unclaimed: seq<TimelineEvent>, flooded: bool, middle: Router<Port>)
    requires Ready(s, unclaimed, flooded) && step.Deliver? && step.count <= |s.queue|
    requires middle == RouteAll(s.boundary.router, s.queue[..step.count]) && s.boundary.router.inFlight != map[]
    requires OnlyClears(middle, Do(s, step).boundary.router)
    ensures TracksStep(s, step, unclaimed, flooded)
  {
    hide Do, RouteAll, Tracks, OnlyClears, Unowned, Remaining, Router.Sound;
    var more, after := unclaimed + Arrivals(s, step), Do(s, step).boundary.router;
    BatchTracks(s.boundary.router, s.queue[..step.count], unclaimed, flooded);
    RemainingNone(more);
    ClearTracks(middle, after, more, flooded || |more| > 100);
    assert UnclaimedAfter(s, step, unclaimed) == if after.inFlight == map[] then [] else more;
  }

  /** Settling a subscription, with or without the end of a subscribe. */
  lemma SettleTracks(s: System, step: Step, x: Subscription, unclaimed: seq<TimelineEvent>, flooded: bool)
    requires Ready(s, unclaimed, flooded) && Arrivals(s, step) == [] && Settled(s, step) == {x}
    requires OnlyClears(s.boundary.router.(pending := s.boundary.router.pending - {x}), Do(s, step).boundary.router)
    ensures TracksStep(s, step, unclaimed, flooded)
  {
    hide Do;
    assert unclaimed + [] == unclaimed;
    TakeTracks(s.boundary.router, x, unclaimed, flooded);
    RemainingOne(unclaimed, x);
    ClearTracks(s.boundary.router.(pending := s.boundary.router.pending - {x}), Do(s, step).boundary.router,
                Remaining(unclaimed, {x}), flooded);
  }

  lemma ReplyTracks(s: System, step: Step, unclaimed: seq<TimelineEvent>, flooded: bool)
    requires Ready(s, unclaimed, flooded) && step.Reply?
    requires Settled(s, step) <= s.feeds.Keys
    ensures TracksStep(s, step, unclaimed, flooded)
  {
    if Settled(s, step) == {} {
      QuietTracks(s, step, unclaimed, flooded);
    } else {
      var f := s.frames[step.request];
      ForgetKeepsSound(s.boundary.router, f.subscription);
      CancelClears(s.boundary.router.(pending := s.boundary.router.pending - {f.subscription}), f.port);
      SettleTracks(s, step, f.subscription, unclaimed, flooded);
    }
  }

  lemma ReleaseTracks(s: System, step: Step, unclaimed: seq<TimelineEvent>, flooded: bool)
    requires Ready(s, unclaimed, flooded) && step.PageUnsubscribed?
    ensures TracksStep(s, step, unclaimed, flooded)
  {
    if Settled(s, step) == {} {
      QuietTracks(s, step, unclaimed, flooded);
    } else {
      SettleTracks(s, step, s.frames[step.request].subscription, unclaimed, flooded);
    }
  }

  lemma EndTracks(s: System, step: Step, unclaimed: seq<TimelineEvent>, flooded: bool)
    requires Ready(s, unclaimed, flooded) && (step.Fail? || step.Close?)
    ensures TracksStep(s, step, unclaimed, flooded)
  {
    if step.Close? {
      CloseClears(s.boundary, {step.port});
    } else if step.request in s.frames {
      CancelClears(s.boundary.router, s.frames[step.request].port);
    }
    QuietTracks(s, step, unclaimed, flooded);
  }

  lemma BeginTracks(s: System, step: Step, unclaimed: seq<TimelineEvent>, flooded: bool)
    requires Ready(s, unclaimed, flooded)
    requires !step.Deliver? && !step.Reply? && !step.PageUnsubscribed? && !step.Fail? && !step.Close?
    ensures TracksStep(s, step, unclaimed, flooded)
  {
    QuietTracks(s, step, unclaimed, flooded);
  }

  lemma StepTracks(s: System, step: Step, unclaimed: seq<TimelineEvent>, flooded: bool)
    requires Invariant(s) && Ready(s, unclaimed, flooded)
    ensures TracksStep(s, step, unclaimed, flooded)
  {
    hide TracksStep, Ready;
    match step
    case Deliver(count, _, _) =>
      if count <= |s.queue| {
        DeliverTracks(s, step, unclaimed, flooded);
      } else {
        IdleDeliverTracks(s, step, unclaimed, flooded);
      }
    case Reply(r) => ReplyTracks(s, step, unclaimed, flooded);
    case PageUnsubscribed(r, ok) => ReleaseTracks(s, step, unclaimed, flooded);
    case Fail(r) => EndTracks(s, step, unclaimed, flooded);
    case Close(port) => EndTracks(s, step, unclaimed, flooded);
    case _ => BeginTracks(s, step, unclaimed, flooded);
  }

  lemma IdleDeliverTracks(s: System, step: Step, unclaimed: seq<TimelineEvent>, flooded: bool)
    requires Ready(s, unclaimed, flooded) && step.Deliver? && step.count > |s.queue|
    ensures TracksStep(s, step, unclaimed, flooded)
  {
    QuietTracks(s, step, unclaimed, flooded);
  }

  // ---- every run ----

  lemma {:induction false} RunReady(steps: seq<Step>)
    ensures Ready(Run(steps), Unclaimed(steps), Flooded(steps))
    decreases |steps|
  {
    hide Invariant, TracksStep;
    RunKeeps(steps);
    if steps == [] {
      InitialReady();
    } else {
      var n := |steps| - 1;
      RunReady(steps[..n]);
      RunKeeps(steps[..n]);
      StepTracks(Run(steps[..n]), steps[n], Unclaimed(steps[..n]), Flooded(steps[..n]));
      TrackedReady(steps);
    }
  }

  lemma InitialReady()
    ensures Ready(Initial(), [], false)
  {
  }

  lemma {:induction false} TrackedReady(steps: seq<Step>)
    requires steps != [] && Invariant(Run(steps))
    requires var n := |steps| - 1;
      TracksStep(Run(steps[..n]), steps[n], Unclaimed(steps[..n]), Flooded(steps[..n]))
    ensures Ready(Run(steps), Unclaimed(steps), Flooded(steps))
  {
    hide Do, Tracks, Arrivals, Settled, Remaining;
  }

  /** On every run the buffers have overflowed exactly when, since a subscribe has always been in
      flight, more than a hundred events were at some point delivered to nobody and not settled; and
      until then every one of them is buffered under its subscription, in order. */
  lemma {:induction false} OverflowsExactlyWhen(steps: seq<Step>)
    ensures var router := Run(steps).boundary.router;
      && (router.overflowed <==> Flooded(steps))
      && (!Flooded(steps) ==> forall x :: router.Buffer(x) == Select(Unclaimed(steps), x))
  {
    hide Run;
    RunReady(steps);
  }

  // ---- what a reply does ----

  ghost predicate AwaitsReply(s: System, r: RequestId) {
    r in s.frames && s.frames[r].Answered? && s.frames[r].port in s.boundary.ports
  }

  lemma AwaitingIsInFlight(s: System, r: RequestId)
    requires Invariant(s) && AwaitsReply(s, r)
    ensures s.frames[r].port in s.boundary.router.inFlight && s.frames[r].subscription in s.feeds
    ensures s.frames[r].subscription !in s.boundary.router.owners
  {
    WaiterIsCounted(s, r);
  }

  lemma CancelKeepsOwners(router: Router<Port>, port: Port)
    ensures router.CancelPending(port).owners == router.owners
  {
  }

  /** The reply of an overflowed subscribe: nothing is posted, the subscription is given up and the
      call will try again. */
  lemma FloodedReply(s: System, r: RequestId)
    requires Invariant(s) && AwaitsReply(s, r) && s.boundary.router.overflowed
    ensures var f, t := s.frames[r], Do(s, Reply(r));
      && t.frames == s.frames[r := Retracting(f.port, f.attempt, true)]
      && t.boundary.sent == s.boundary.sent && f.subscription in t.boundary.unsubscribing
      && t.boundary.router.owners == s.boundary.router.owners && t.homes == s.homes
  {
    hide InvariantFor;
    AwaitingIsInFlight(s, r);
    var f, router := s.frames[r], s.boundary.router;
    CancelKeepsOwners(router.(pending := router.pending - {f.subscription}), f.port);
  }

  /** Any other reply opens the subscription. */
  lemma OpeningReply(s: System, r: RequestId)
    requires Invariant(s) && AwaitsReply(s, r) && !s.boundary.router.overflowed
    ensures var f, t := s.frames[r], Do(s, Reply(r));
      && t.frames == s.frames - {r} && t.homes == s.homes[f.subscription := f.port]
      && t.boundary.router.owners == s.boundary.router.owners[f.subscription := f.port]
      && t.feeds == s.feeds && t.queue == s.queue
  {
    hide InvariantFor;
    AwaitingIsInFlight(s, r);
    BufferedReply(s, r);
    var f, router := s.frames[r], s.boundary.router;
    CancelKeepsOwners(router.(pending := router.pending - {f.subscription}), f.port);
  }

  lemma RunNext(steps: seq<Step>, step: Step)
    ensures Run(steps + [step]) == Do(Run(steps), step)
  {
    assert (steps + [step])[..|steps|] == steps;
  }

  /** The core's reply to an open page's subscribe opens the subscription exactly when the buffers
      were not flooded. Then the page owns it and sees its snapshot and every event so far that is
      not queued, in order; otherwise nothing is posted, and the core is told to end it and to try
      the page's call again. */
  lemma {:induction false} ReplyOpensExactlyWhen(steps: seq<Step>, r: RequestId)
    requires AwaitsReply(Run(steps), r)
    ensures var s, f, t := Run(steps), Run(steps).frames[r], Run(steps + [Reply(r)]); var x := f.subscription;
      if Flooded(steps) then
        && t.frames == s.frames[r := Retracting(f.port, f.attempt, true)]
        && t.boundary.sent == s.boundary.sent && x in t.boundary.unsubscribing && x !in t.boundary.router.owners
      else
        && t.frames == s.frames - {r} && x in s.feeds
        && x in t.boundary.router.owners && t.boundary.router.owners[x] == f.port
        && x in t.homes && t.homes[x] == f.port
        && Partitions(SeenBy(t.boundary.sent, f.port, x), s.feeds[x], Of(s.queue, x))
  {
    hide Run, Do, InvariantFor, Partitions, SeenBy, Of;
    var s := Run(steps);
    RunKeeps(steps);
    OverflowsExactlyWhen(steps);
    AwaitingIsInFlight(s, r);
    RunNext(steps, Reply(r));
    if Flooded(steps) {
      FloodedReply(s, r);
    } else {
      OpeningReply(s, r);
      RunKeeps(steps + [Reply(r)]);
      InvariantPartitions(Run(steps + [Reply(r)]), s.frames[r].subscription);
    }
  }

  lemma InvariantPartitions(s: System, x: Subscription)
    requires Invariant(s) && x in s.boundary.router.owners
    ensures x in s.feeds
    ensures Partitions(SeenBy(s.boundary.sent, s.boundary.router.owners[x], x), s.feeds[x], Of(s.queue, x))
  {
    hide NothingLost, SeenBy, Of, Partitions;
    DeliveredPartitions(s.boundary.sent, s.boundary.router.owners, s.feeds, s.queue, x);
  }

  /** An open page's subscribe goes to the core and is counted; of a closed one nothing is left. */
  lemma {:induction false} SubscribesGoToTheCore(steps: seq<Step>, r: RequestId, port: Port)
    requires r !in Run(steps).frames && port in Run(steps).boundary.sent
    ensures var s, t := Run(steps), Run(steps + [Subscribe(r, port)]);
      if port in s.boundary.ports then
        && t.frames == s.frames[r := Calling(port, 0)] && t.boundary.sent == s.boundary.sent
        && t.boundary.router.InFlight(port) == s.boundary.router.InFlight(port) + 1
      else t == s
  {
    hide Run;
    RunNext(steps, Subscribe(r, port));
    assert Run(steps).frames - {r} == Run(steps).frames;
  }

  /** A subscribe the core refuses is in flight no more, and an open page hears so. */
  lemma {:induction false} FailuresAreReported(steps: seq<Step>, r: RequestId)
    requires var s := Run(steps);
      r in s.frames && (s.frames[r].Calling? || s.frames[r].Answered?) && s.frames[r].port in s.boundary.ports
    ensures var s, t, port := Run(steps), Run(steps + [Fail(r)]), Run(steps).frames[r].port;
      && t.frames == s.frames - {r} && t.boundary.router.InFlight(port) == s.boundary.router.InFlight(port) - 1
      && At(t.boundary.sent, port) == At(s.boundary.sent, port) + [Err(r)]
  {
    hide Run, InvariantFor;
    RunKeeps(steps);
    RunNext(steps, Fail(r));
    WaiterIsCounted(Run(steps), r);
  }

  lemma WaiterIsCounted(s: System, r: RequestId)
    requires Invariant(s) && r in s.frames && (s.frames[r].Calling? || s.frames[r].Answered?)
    requires s.frames[r].port in s.boundary.ports
    ensures s.frames[r].port in s.boundary.router.inFlight
  {
    assert r in Waiting(s.frames, s.frames[r].port);
    assert s.boundary.router.InFlight(s.frames[r].port) > 0;
  }

  /** Once the core has ended a flooded subscription, an open page's call is made again, three times
      in all; after the third the page hears an error. A page that has closed meanwhile hears nothing. */
  lemma {:induction false} FloodedIsRetriedTwice(steps: seq<Step>, r: RequestId)
    requires r in Run(steps).frames && Run(steps).frames[r].Retracting? && Run(steps).frames[r].retry
    ensures var s, f, t := Run(steps), Run(steps).frames[r], Run(steps + [Retracted(r, true)]);
      if f.port !in s.boundary.ports then t == s.(frames := s.frames - {r})
      else if f.attempt < 2 then
        && t.frames == s.frames[r := Calling(f.port, f.attempt + 1)] && t.boundary.sent == s.boundary.sent
        && t.boundary.router.InFlight(f.port) == s.boundary.router.InFlight(f.port) + 1
      else
        && t.frames == s.frames - {r} && t.boundary.router == s.boundary.router
        && At(t.boundary.sent, f.port) == At(s.boundary.sent, f.port) + [Err(r)]
  {
    hide Run;
    RunNext(steps, Retracted(r, true));
  }

  // ---- who owns what ----

  /** The core has ended the subscription for a page that asked it to. */
  ghost predicate Releases(s: System, step: Step, x: Subscription) {
    && step.PageUnsubscribed? && step.ok
    && step.request in s.frames && s.frames[step.request].PageCall? && s.frames[step.request].subscription == x
  }

  ghost predicate OwnsAfter(s: System, step: Step, x: Subscription, opens: bool) {
    var t := Do(s, step);
    x in t.boundary.router.owners <==>
      || opens
      || (x in s.boundary.router.owners && s.boundary.router.owners[x] in t.boundary.ports && !Releases(s, step, x))
  }

  ghost predicate OpensAt(s: System, step: Step, x: Subscription) {
    step.Reply? && AwaitsReply(s, step.request) && s.frames[step.request].subscription == x
      && !s.boundary.router.overflowed
  }

  lemma CloseOwns(b: Boundary, gone: set<Port>, x: Subscription)
    requires OnlyOpen(b.ports, b.router)
    ensures x in b.Close(gone).router.owners <==> x in b.router.owners && b.router.owners[x] in b.Close(gone).ports
    ensures x in b.Close(gone).router.owners ==> b.Close(gone).router.owners[x] == b.router.owners[x]
  {
  }

  lemma DeliverOwns(s: System, step: Step, x: Subscription)
    requires OnlyOpen(s.boundary.ports, s.boundary.router) && step.Deliver?
    ensures OwnsAfter(s, step, x, false)
  {
    hide Posted, Closed, RouteAll;
    if step.count <= |s.queue| {
      var b, events := s.boundary, s.queue[..step.count];
      HandleEventSplits(b, events, step.deaf, step.broken);
      PostedRest(b, events, step.deaf, step.broken);
      RouteAllKeepsOwners(b.router, events);
      CloseOwns(Posted(b, events, step.deaf, step.broken), Closed(b, events, step.deaf, step.broken), x);
    }
  }

  lemma ReplyOwns(s: System, step: Step, x: Subscription)
    requires Invariant(s) && step.Reply?
    ensures OwnsAfter(s, step, x, OpensAt(s, step, x))
  {
    if AwaitsReply(s, step.request) { AwaitedReplyOwns(s, step, x); } else { LateReplyOwns(s, step, x); }
  }

  lemma AwaitedReplyOwns(s: System, step: Step, x: Subscription)
    requires Invariant(s) && step.Reply? && AwaitsReply(s, step.request)
    ensures OwnsAfter(s, step, x, OpensAt(s, step, x))
  {
    var r := step.request;
    OnlyOpenHolds(s);
    ReplyKeepsPorts(s, r);
    hide InvariantFor, Do;
    if s.boundary.router.overflowed { FloodedReply(s, r); } else { OpeningReply(s, r); }
  }

  lemma ReplyKeepsPorts(s: System, r: RequestId)
    ensures Do(s, Reply(r)).boundary.ports == s.boundary.ports
  {
  }

  /** The reply of a page that has closed meanwhile. */
  lemma LateReplyOwns(s: System, step: Step, x: Subscription)
    requires OnlyOpen(s.boundary.ports, s.boundary.router) && step.Reply? && !AwaitsReply(s, step.request)
    ensures OwnsAfter(s, step, x, false)
  {
    if step.request in s.frames && s.frames[step.request].Answered? {
      assert s.frames[step.request].port !in s.boundary.router.inFlight;
    }
  }

  lemma OnlyOpenHolds(s: System)
    requires Invariant(s)
    ensures OnlyOpen(s.boundary.ports, s.boundary.router)
  {
  }

  lemma EndOwns(s: System, step: Step, x: Subscription)
    requires OnlyOpen(s.boundary.ports, s.boundary.router) && (step.Close? || step.Fail?)
    ensures OwnsAfter(s, step, x, false)
  {
    if step.Close? {
      CloseOwns(s.boundary, {step.port}, x);
    } else if step.request in s.frames {
      CancelKeepsOwners(s.boundary.router, s.frames[step.request].port);
    }
  }

  lemma OtherOwns(s: System, step: Step, x: Subscription)
    requires OnlyOpen(s.boundary.ports, s.boundary.router)
    requires !step.Reply? && !step.Deliver? && !step.Close? && !step.Fail?
    ensures OwnsAfter(s, step, x, false)
  {
  }

  /** A page owns a subscription from the reply that opened it until the page closes or the core has
      ended it at a page's request: nothing else opens one or takes one away. */
  lemma {:induction false} OwnedExactlyWhen(steps: seq<Step>, step: Step, x: Subscription)
    ensures var s, t := Run(steps), Run(steps + [step]);
      x in t.boundary.router.owners <==>
        || (step.Reply? && AwaitsReply(s, step.request) && s.frames[step.request].subscription == x && !Flooded(steps))
        || (x in s.boundary.router.owners && s.boundary.router.owners[x] in t.boundary.ports && !Releases(s, step, x))
  {
    hide Run, Do, InvariantFor;
    var s := Run(steps);
    RunKeeps(steps);
    RunNext(steps, step);
    OverflowsExactlyWhen(steps);
    OnlyOpenHolds(s);
    match step
    case Deliver(_, _, _) => DeliverOwns(s, step, x);
    case Reply(_) => ReplyOwns(s, step, x);
    case Close(_) => EndOwns(s, step, x);
    case Fail(_) => EndOwns(s, step, x);
    case _ => OtherOwns(s, step, x);
  }

  /** A page's own unsubscribe is passed on when the page owns the subscription, and refused
      otherwise; when the core has ended it the page is told. */
  lemma {:induction false} PageUnsubscribeAnswers(steps: seq<Step>, r: RequestId, port: Port, x: Subscription)
    requires r !in Run(steps).frames && port in Run(steps).boundary.sent
    ensures var s, t := Run(steps), Run(steps + [PageUnsubscribe(r, port, x)]);
      if x in s.boundary.router.owners && s.boundary.router.owners[x] == port then
        && t.frames == s.frames[r := PageCall(port, x)] && x in t.boundary.unsubscribing
        && var u := Do(t, PageUnsubscribed(r, true));
          At(u.boundary.sent, port) == At(s.boundary.sent, port) + [Done(r)] && x !in u.boundary.router.owners
      else t.frames == s.frames && At(t.boundary.sent, port) == At(s.boundary.sent, port) + [Err(r)]
  {
    hide Run;
    RunNext(steps, PageUnsubscribe(r, port, x));
  }
}
