/** Core, worker boundary and pages together: every interleaving of subscribe calls, core events,
    closes and overflows, and what each page ends up seeing. */
module TimelineDelivery {
  import opened TimelineDiffs
  import opened TimelineRouter
  import opened CoreWorkerBoundary

  /** A core subscription: the list it opened with and every event it emitted since. */
  datatype Feed = Feed(snapshot: seq<string>, log: seq<TimelineEvent>)

  /** A page call suspended at an await. */
  datatype Frame =
    | Calling(port: Port, attempt: nat)
    | Answered(port: Port, attempt: nat, subscription: Subscription)
    | Retracting(port: Port, attempt: nat, retry: bool)
    | PageCall(port: Port, subscription: Subscription)

  /** `queue` holds what the core emitted and the boundary has not handled. `homes` and `reached`
      are history: where a subscription was opened, and which ids ever reached the boundary. */
  datatype System = System(
    boundary: Boundary,
    frames: map<RequestId, Frame>,
    feeds: map<Subscription, Feed>,
    queue: seq<CoreEvent>,
    homes: map<Subscription, Port>,
    reached: set<Subscription>)

  datatype Step =
    | Connect(port: Port)
    | Subscribe(request: RequestId, port: Port)
    | Create(request: RequestId, subscription: Subscription, snapshot: seq<string>)
    | Emit(event: CoreEvent)
    | Deliver(count: nat, deaf: set<Port>, broken: set<Port>)
    | Reply(request: RequestId)
    | Fail(request: RequestId)
    | Retracted(request: RequestId, ok: bool)
    | Close(port: Port)
    | PageUnsubscribe(request: RequestId, port: Port, subscription: Subscription)
    | PageUnsubscribed(request: RequestId, ok: bool)

  // ---- the core's side ----

  function Diffs(log: seq<TimelineEvent>): seq<Diff<string>> {
    if log == [] then []
    else
      var last := log[|log| - 1];
      Diffs(log[..|log| - 1]) + if last.TimelineDiff? then last.diffs else []
  }

  predicate Emittable(feed: Feed, event: TimelineEvent) {
    AllInRange(feed.snapshot, Diffs(feed.log)) && AllInRange(feed.snapshot, Diffs(feed.log + [event]))
  }

  /** The list the core holds for a subscription after the first `count` events of its log. */
  function CoreList(feed: Feed, count: nat): seq<string>
    requires count <= |feed.log| && AllInRange(feed.snapshot, Diffs(feed.log[..count]))
  {
    CoreApplyAll(feed.snapshot, Diffs(feed.log[..count]))
  }

  // ---- the page's side ----

  datatype Seen = Opened(snapshot: seq<string>) | Got(event: TimelineEvent)

  function Gots(events: seq<TimelineEvent>): (seen: seq<Seen>)
    ensures |seen| == |events|
  {
    seq(|events|, i requires 0 <= i < |events| => Got(events[i]))
  }

  function SeenIn(message: Message, s: Subscription): seq<Seen> {
    match message
    case Ok(_, subscription, snapshot) => if subscription == s then [Opened(snapshot)] else []
    case Events(events) => Gots(Of(events, s))
    case _ => []
  }

  /** Everything a port was posted about a subscription, in order. */
  function SeenAll(messages: seq<Message>, s: Subscription): seq<Seen> {
    if messages == [] then []
    else SeenAll(messages[..|messages| - 1], s) + SeenIn(messages[|messages| - 1], s)
  }

  /** The page's list: the snapshot of the reply, then `applyDiffs` for each event. */
  function PageList(seen: seq<Seen>): seq<Slot<string>> {
    if seen == [] then []
    else
      var before := PageList(seen[..|seen| - 1]);
      match seen[|seen| - 1]
      case Opened(snapshot) => Lift(snapshot)
      case Got(TimelineDiff(_, diffs)) => PageApplyAll(before, diffs)
      case Got(_) => before
  }

  // ---- the state machine; a step that is not enabled does nothing ----

  function Initial(): System {
    System(Start(), map[], map[], [], map[], {})
  }

  function Suspend(frames: map<RequestId, Frame>, r: RequestId, port: Port, attempt: nat,
      next: Next): map<RequestId, Frame> {
    match next
    case Return => frames - {r}
    case CallSubscribe(again) => frames[r := Calling(port, again)]
    case CallUnsubscribe(retry) => frames[r := Retracting(port, attempt, retry)]
  }

  ghost function Do(s: System, step: Step): System {
    match step
    case Connect(port) =>
      if port in s.boundary.sent then s else s.(boundary := s.boundary.Connect(port))
    case Subscribe(r, port) =>
      if r in s.frames || port !in s.boundary.sent then s
      else
        var (b, next) := s.boundary.Subscribe(port, 0);
        s.(boundary := b, frames := Suspend(s.frames, r, port, 0, next))
    case Create(r, subscription, snapshot) =>
      if r in s.frames && s.frames[r].Calling? && subscription !in s.feeds then
        s.(frames := s.frames[r := Answered(s.frames[r].port, s.frames[r].attempt, subscription)],
           feeds := s.feeds[subscription := Feed(snapshot, [])])
      else s
    case Emit(event) => DoEmit(s, event)
    case Deliver(count, deaf, broken) =>
      if count <= |s.queue| then
        s.(boundary := s.boundary.HandleEvent(s.queue[..count], deaf, broken), queue := s.queue[count..])
      else s
    case Reply(r) => if r in s.frames && s.frames[r].Answered? then DoReply(s, r) else s
    case Fail(r) =>
      if r in s.frames && (s.frames[r].Calling? || s.frames[r].Answered?) then
        s.(boundary := s.boundary.SubscribeFailed(r, s.frames[r].port), frames := s.frames - {r})
      else s
    case Retracted(r, ok) =>
      if r in s.frames && s.frames[r].Retracting? then
        var f := s.frames[r];
        var (b, next) := s.boundary.Unsubscribed(r, f.port, f.attempt, f.retry, ok);
        s.(boundary := b, frames := Suspend(s.frames, r, f.port, f.attempt, next))
      else s
    case Close(port) => s.(boundary := s.boundary.Close({port}))
    case PageUnsubscribe(r, port, subscription) =>
      if r in s.frames || port !in s.boundary.sent then s
      else
        var (b, next) := s.boundary.PageUnsubscribe(r, port, subscription);
        s.(boundary := b, frames := if next.Return? then s.frames else s.frames[r := PageCall(port, subscription)])
    case PageUnsubscribed(r, ok) =>
      if r in s.frames && s.frames[r].PageCall? then
        s.(boundary := s.boundary.PageUnsubscribed(r, s.frames[r].port, s.frames[r].subscription, ok),
           frames := s.frames - {r})
      else s
  }

  ghost function DoEmit(s: System, event: CoreEvent): System {
    match event
    case Other(_) => s.(queue := s.queue + [event])
    case Timeline(e) =>
      if e.subscription in s.feeds && Emittable(s.feeds[e.subscription], e) then
        var feed := s.feeds[e.subscription];
        s.(queue := s.queue + [event], feeds := s.feeds[e.subscription := feed.(log := feed.log + [e])])
      else s
  }

  function DoReply(s: System, r: RequestId): System
    requires r in s.frames && s.frames[r].Answered?
  {
    var f := s.frames[r];
    if f.subscription !in s.feeds then s
    else
      var (b, next) := s.boundary.Subscribed(r, f.port, f.subscription, s.feeds[f.subscription].snapshot);
      s.(boundary := b,
         frames := Suspend(s.frames, r, f.port, f.attempt, next),
         homes := if next.Return? then s.homes[f.subscription := f.port] else s.homes,
         reached := s.reached + {f.subscription})
  }

  ghost function Run(steps: seq<Step>): System {
    if steps == [] then Initial() else Do(Run(steps[..|steps| - 1]), steps[|steps| - 1])
  }

  // ---- the invariant ----

  function Waiting(frames: map<RequestId, Frame>, port: Port): set<RequestId> {
    set r | r in frames && frames[r].port == port && (frames[r].Calling? || frames[r].Answered?)
  }

  type Frames = map<RequestId, Frame>
  type Owners = map<Subscription, Port>
  type Feeds = map<Subscription, Feed>
  type Mail = map<Port, seq<Message>>

  ghost predicate PortsKnown(ports: set<Port>, sent: Mail, frames: Frames) {
    && ports <= sent.Keys
    && (forall r :: r in frames ==> frames[r].port in sent)
  }

  /** Closed ports own nothing and are pending nowhere. */
  ghost predicate OnlyOpen(ports: set<Port>, router: Router<Port>) {
    && router.inFlight.Keys <= ports
    && (forall x :: x in router.owners ==> router.owners[x] in ports)
  }

  /** The router counts exactly the subscribe calls an open port has in flight. */
  ghost predicate CountsMatch(ports: set<Port>, router: Router<Port>, frames: Frames) {
    forall p :: p in ports ==> router.InFlight(p) == |Waiting(frames, p)|
  }

  ghost predicate HomesKnown(owners: Owners, sent: Mail, homes: Owners, reached: set<Subscription>) {
    && (forall x :: x in owners ==> x in homes && homes[x] == owners[x])
    && (forall x :: x in homes ==> x in reached && homes[x] in sent)
  }

  /** Every subscription whose id reached the boundary is owned, or its unsubscribe is on the way. */
  ghost predicate NoneLeaked(owners: Owners, unsubscribing: set<Subscription>, reached: set<Subscription>) {
    forall x :: x in reached ==> x in owners || x in unsubscribing
  }

  ghost predicate FramesKnown(frames: Frames, feeds: Feeds, reached: set<Subscription>) {
    && reached <= feeds.Keys
    && (forall r :: r in frames && frames[r].Answered? ==>
          frames[r].subscription in feeds && frames[r].subscription !in reached)
    && (forall r, q :: r in frames && q in frames && r != q && frames[r].Answered? && frames[q].Answered? ==>
          frames[r].subscription != frames[q].subscription)
    && (forall r :: r in frames && frames[r].PageCall? ==> frames[r].subscription in reached)
  }

  /** A page's own unsubscribe call is on its way to the core. */
  ghost predicate CallsIssued(frames: Frames, unsubscribing: set<Subscription>) {
    forall r :: r in frames && frames[r].PageCall? ==> frames[r].subscription in unsubscribing
  }

  ghost predicate PendingKnown(pending: map<Subscription, seq<TimelineEvent>>, feeds: Feeds) {
    && pending.Keys <= feeds.Keys
    && (forall x, i :: x in pending && 0 <= i < |pending[x]| ==> pending[x][i].subscription == x)
  }

  ghost predicate QueueKnown(queue: seq<CoreEvent>, feeds: Feeds) {
    forall i :: 0 <= i < |queue| && queue[i].Timeline? ==> queue[i].event.subscription in feeds
  }

  ghost predicate FeedsValid(feeds: Feeds) {
    forall x :: x in feeds ==> AllInRange(feeds[x].snapshot, Diffs(feeds[x].log))
  }

  /** Until an open port's reply, its events are buffered or still queued, unless they overflowed. */
  ghost predicate BuffersComplete(ports: set<Port>, router: Router<Port>, frames: Frames, feeds: Feeds,
      queue: seq<CoreEvent>) {
    !router.overflowed ==>
      forall r :: r in frames && frames[r].Answered? && frames[r].port in ports ==>
        frames[r].subscription in feeds &&
        router.Buffer(frames[r].subscription) + Of(queue, frames[r].subscription) == feeds[frames[r].subscription].log
  }

  function SeenBy(sent: Mail, port: Port, x: Subscription): seq<Seen> {
    SeenAll(At(sent, port), x)
  }

  /** A page sees the reply first, and after it a prefix of its subscription's log. */
  ghost predicate SeesPrefix(seen: seq<Seen>, feed: Feed) {
    && 1 <= |seen| <= |feed.log| + 1
    && seen == [Opened(feed.snapshot)] + Gots(feed.log[..|seen| - 1])
  }

  ghost predicate PagesFollow(sent: Mail, homes: Owners, feeds: Feeds) {
    && homes.Keys <= feeds.Keys
    && (forall x :: x in homes ==> SeesPrefix(SeenBy(sent, homes[x], x), feeds[x]))
    && (forall p, x :: !(x in homes && homes[x] == p) ==> SeenBy(sent, p, x) == [])
  }

  /** For an owned subscription, what is not delivered yet is exactly what is queued. */
  ghost predicate NothingLost(sent: Mail, owners: Owners, feeds: Feeds, queue: seq<CoreEvent>) {
    forall x :: x in owners ==>
      x in feeds
        && SeenBy(sent, owners[x], x)
            == [Opened(feeds[x].snapshot)] + Gots(feeds[x].log[..Delivered(feeds[x], queue, x)])
      && feeds[x].log[Delivered(feeds[x], queue, x)..] == Of(queue, x)
  }

  function Delivered(feed: Feed, queue: seq<CoreEvent>, x: Subscription): nat {
    var queued := |Of(queue, x)|;
    if queued <= |feed.log| then |feed.log| - queued else 0
  }

  ghost predicate Invariant(s: System) {
    InvariantFor(s, s.boundary.router.owners)
  }

  /** The invariant in the middle of a batch, when nothing is lost only for the owners `kept`. */
  ghost predicate InvariantFor(s: System, kept: Owners) {
    var b := s.boundary;
    && b.router.Sound()
    && PortsKnown(b.ports, b.sent, s.frames)
    && OnlyOpen(b.ports, b.router)
    && CountsMatch(b.ports, b.router, s.frames)
    && HomesKnown(b.router.owners, b.sent, s.homes, s.reached)
    && NoneLeaked(b.router.owners, b.unsubscribing, s.reached)
    && FramesKnown(s.frames, s.feeds, s.reached)
    && CallsIssued(s.frames, b.unsubscribing)
    && PendingKnown(b.router.pending, s.feeds)
    && QueueKnown(s.queue, s.feeds)
    && FeedsValid(s.feeds)
    && BuffersComplete(b.ports, b.router, s.frames, s.feeds, s.queue)
    && PagesFollow(b.sent, s.homes, s.feeds)
    && NothingLost(b.sent, kept, s.feeds, s.queue)
  }

  // ---- sequences of events and messages ----

  lemma {:induction false} OfConcat(a: seq<CoreEvent>, b: seq<CoreEvent>, x: Subscription)
    ensures Of(a + b, x) == Of(a, x) + Of(b, x)
    decreases |b|
  {
    if b == [] {
      assert a + b == a;
    } else {
      assert (a + b)[..|a + b| - 1] == a + b[..|b| - 1];
      OfConcat(a, b[..|b| - 1], x);
    }
  }

  lemma {:induction false} OfTimelines(events: seq<TimelineEvent>, x: Subscription, y: Subscription)
    requires forall i :: 0 <= i < |events| ==> events[i].subscription == x
    ensures Of(Timelines(events), y) == if x == y then events else []
    decreases |events|
  {
    if events != [] {
      var n := |events| - 1;
      OfTimelines(events[..n], x, y);
      OfAppended(Timelines(events[..n]), Timeline(events[n]), y);
      assert events[..n] + [events[n]] == events;
    }
  }

  lemma {:induction false} OfShared(events: seq<CoreEvent>, x: Subscription)
    ensures Of(Shared(events), x) == []
    decreases |events|
  {
    if events != [] {
      var n := |events| - 1;
      OfShared(events[..n], x);
      OfConcat(Shared(events[..n]), if events[n].Other? then [events[n]] else [], x);
      assert [events[n]][..0] == [];
    }
  }

  lemma {:induction false} OfRouted(owners: map<Subscription, Port>, events: seq<CoreEvent>, port: Port,
      x: Subscription)
    ensures Of(At(Routed(owners, events), port), x) == if x in owners && owners[x] == port then Of(events, x) else []
    decreases |events|
  {
    if events != [] {
      var n := |events| - 1;
      OfRouted(owners, events[..n], port, x);
      OfConcat(At(Routed(owners, events[..n]), port), [events[n]], x);
      assert [events[n]][..0] == [];
    }
  }

  lemma SeenPosted(messages: seq<Message>, message: Message, x: Subscription)
    ensures SeenAll(messages + [message], x) == SeenAll(messages, x) + SeenIn(message, x)
  {
    assert (messages + [message])[..|messages|] == messages;
  }

  lemma GotsConcat(a: seq<TimelineEvent>, b: seq<TimelineEvent>)
    ensures Gots(a + b) == Gots(a) + Gots(b)
  {
  }

  predicate Waits(frames: Frames, r: RequestId, port: Port) {
    r in frames && frames[r].port == port && (frames[r].Calling? || frames[r].Answered?)
  }

  lemma CardWithout<T>(members: set<T>, member: T)
    ensures |members| == |members - {member}| + if member in members then 1 else 0
  {
    if member in members {
      assert members == members - {member} + {member};
    } else {
      assert members == members - {member};
    }
  }

  lemma WaitingCount(frames: Frames, after: Frames, r: RequestId, p: Port)
    requires forall q :: q != r ==> (q in frames <==> q in after) && (q in frames ==> frames[q] == after[q])
    ensures |Waiting(after, p)| - |Waiting(frames, p)|
         == (if Waits(after, r, p) then 1 else 0) - (if Waits(frames, r, p) then 1 else 0)
  {
    CardWithout(Waiting(frames, p), r);
    CardWithout(Waiting(after, p), r);
    assert Waiting(frames, p) - {r} == Waiting(after, p) - {r};
  }

  // ---- steps that post nothing about a subscription ----

  lemma SameView(sent: Mail, other: Mail, owners: Owners, homes: Owners, feeds: Feeds, queue: seq<CoreEvent>)
    requires PagesFollow(sent, homes, feeds) && NothingLost(sent, owners, feeds, queue)
    requires forall p, x :: SeenBy(other, p, x) == SeenBy(sent, p, x)
    ensures PagesFollow(other, homes, feeds) && NothingLost(other, owners, feeds, queue)
  {
  }

  lemma PostKeeps(s: System, port: Port, message: Message)
    requires Invariant(s) && port in s.boundary.sent && (message.Err? || message.Done?)
    ensures Invariant(s.(boundary := s.boundary.Post(port, message)))
  {
    var t := s.(boundary := s.boundary.Post(port, message));
    forall p, x ensures SeenBy(t.boundary.sent, p, x) == SeenBy(s.boundary.sent, p, x) {
      SeenPosted(At(s.boundary.sent, port), message, x);
    }
    SameView(s.boundary.sent, t.boundary.sent, s.boundary.router.owners, s.homes, s.feeds, s.queue);
  }

  lemma ConnectKeeps(s: System, port: Port)
    requires Invariant(s) && port !in s.boundary.sent
    ensures Invariant(s.(boundary := s.boundary.Connect(port)))
  {
    var t := s.(boundary := s.boundary.Connect(port));
    forall p, x ensures SeenBy(t.boundary.sent, p, x) == SeenBy(s.boundary.sent, p, x) {}
    SameView(s.boundary.sent, t.boundary.sent, s.boundary.router.owners, s.homes, s.feeds, s.queue);
    forall r | r in s.frames ensures s.frames[r].port != port {}
    assert |Waiting(s.frames, port)| == 0;
  }

  lemma PortsSent(s: System)
    requires Invariant(s)
    ensures s.boundary.ports <= s.boundary.sent.Keys
  {
  }

  lemma FrameKnown(s: System, r: RequestId)
    requires Invariant(s) && r in s.frames
    ensures s.frames[r].port in s.boundary.sent && s.boundary.ports <= s.boundary.sent.Keys
    ensures s.frames[r].Answered? ==> s.frames[r].subscription in s.feeds
  {
  }

  lemma DropFrameKeeps(s: System, r: RequestId)
    requires Invariant(s) && r in s.frames && (s.frames[r].Retracting? || s.frames[r].PageCall?)
    ensures Invariant(s.(frames := s.frames - {r}))
  {
    CountSame(s.boundary, s.frames, s.frames - {r}, r);
  }

  lemma CountSame(b: Boundary, frames: Frames, after: Frames, r: RequestId)
    requires CountsMatch(b.ports, b.router, frames)
    requires forall q :: q != r ==> (q in frames <==> q in after) && (q in frames ==> frames[q] == after[q])
    requires forall p :: Waits(frames, r, p) == Waits(after, r, p)
    ensures CountsMatch(b.ports, b.router, after)
  {
    forall p | p in b.ports ensures b.router.InFlight(p) == |Waiting(after, p)| { WaitingCount(frames, after, r, p); }
  }

  lemma CountUp(b: Boundary, frames: Frames, r: RequestId, frame: Frame)
    requires CountsMatch(b.ports, b.router, frames) && frame.Calling?
    requires r in frames ==> frames[r].Retracting?
    ensures CountsMatch(b.ports, b.router.Begin(frame.port), frames[r := frame])
  {
    forall p | p in b.ports
      ensures b.router.Begin(frame.port).InFlight(p) == |Waiting(frames[r := frame], p)|
    {
      WaitingCount(frames, frames[r := frame], r, p);
    }
  }

  lemma CountDown(b: Boundary, frames: Frames, r: RequestId)
    requires OnlyOpen(b.ports, b.router) && CountsMatch(b.ports, b.router, frames)
    requires r in frames && (frames[r].Calling? || frames[r].Answered?)
    ensures CountsMatch(b.ports, b.router.CancelPending(frames[r].port), frames - {r})
  {
    forall p | p in b.ports
      ensures b.router.CancelPending(frames[r].port).InFlight(p) == |Waiting(frames - {r}, p)|
    {
      WaitingCount(frames, frames - {r}, r, p);
      if p == frames[r].port { assert r in Waiting(frames, p); }
    }
  }

  lemma BeginFrames(s: System, r: RequestId, frame: Frame)
    requires Invariant(s) && frame.Calling? && frame.port in s.boundary.ports
    requires r in s.frames ==> s.frames[r].Retracting?
    ensures var b, frames, router := s.boundary, s.frames[r := frame], s.boundary.router.Begin(frame.port);
      && PortsKnown(b.ports, b.sent, frames) && OnlyOpen(b.ports, router) && CallsIssued(frames, b.unsubscribing)
      && FramesKnown(frames, s.feeds, s.reached)
  {
  }

  lemma BeginBuffers(ports: set<Port>, router: Router<Port>, frames: Frames, feeds: Feeds, queue: seq<CoreEvent>,
      r: RequestId, frame: Frame)
    requires BuffersComplete(ports, router, frames, feeds, queue) && frame.Calling?
    ensures BuffersComplete(ports, router.Begin(frame.port), frames[r := frame], feeds, queue)
  {
    forall x ensures router.Begin(frame.port).Buffer(x) == router.Buffer(x) {}
  }

  /** A subscribe attempt begins: a new call, or the retry of an overflowed one. */
  lemma BeginKeeps(s: System, r: RequestId, port: Port, attempt: nat)
    requires Invariant(s) && port in s.boundary.ports
    requires r in s.frames ==> s.frames[r].Retracting?
    ensures Invariant(s.(boundary := s.boundary.(router := s.boundary.router.Begin(port)),
                         frames := s.frames[r := Calling(port, attempt)]))
  {
    hide PortsKnown, OnlyOpen, CountsMatch, HomesKnown, NoneLeaked, FramesKnown, CallsIssued, PendingKnown, QueueKnown;
    hide FeedsValid, BuffersComplete, PagesFollow, NothingLost;
    var b, frame := s.boundary, Calling(port, attempt);
    BeginFrames(s, r, frame);
    CountUp(b, s.frames, r, frame);
    BeginKeepsSound(b.router, port);
    BeginBuffers(b.ports, b.router, s.frames, s.feeds, s.queue, r, frame);
  }

  lemma CancelKeepsBuffers(ports: set<Port>, router: Router<Port>, after: Router<Port>, frames: Frames, feeds: Feeds,
      queue: seq<CoreEvent>)
    requires BuffersComplete(ports, router, frames, feeds, queue) && CountsMatch(ports, after, frames)
    requires after.inFlight != map[] ==> after.overflowed == router.overflowed && after.pending == router.pending
    ensures BuffersComplete(ports, after, frames, feeds, queue)
  {
    forall q | q in frames && frames[q].Answered? && frames[q].port in ports
      ensures after.inFlight != map[]
    {
      assert q in Waiting(frames, frames[q].port);
      assert after.InFlight(frames[q].port) > 0;
    }
  }

  /** A subscribe call ends without its subscription. */
  lemma CancelKeeps(s: System, r: RequestId)
    requires Invariant(s) && r in s.frames && (s.frames[r].Calling? || s.frames[r].Answered?)
    ensures Invariant(s.(boundary := s.boundary.(router := s.boundary.router.CancelPending(s.frames[r].port)),
                         frames := s.frames - {r}))
  {
    var b, frames := s.boundary, s.frames - {r};
    var after := b.router.CancelPending(s.frames[r].port);
    CountDown(b, s.frames, r);
    CancelKeepsSound(b.router, s.frames[r].port);
    assert BuffersComplete(b.ports, b.router, frames, s.feeds, s.queue);
    CancelKeepsBuffers(b.ports, b.router, after, frames, s.feeds, s.queue);
  }

  lemma {:induction false} OfUnknown(events: seq<CoreEvent>, x: Subscription)
    requires forall i :: 0 <= i < |events| && events[i].Timeline? ==> events[i].event.subscription != x
    ensures Of(events, x) == []
    decreases |events|
  {
    if events != [] { OfUnknown(events[..|events| - 1], x); }
  }

  lemma CreateKeeps(s: System, r: RequestId, x: Subscription, snapshot: seq<string>)
    requires Invariant(s) && r in s.frames && s.frames[r].Calling? && x !in s.feeds
    ensures Invariant(Do(s, Create(r, x, snapshot)))
  {
    hide OnlyOpen, HomesKnown, NoneLeaked, PagesFollow, NothingLost, BuffersComplete;
    var feed, frame := Feed(snapshot, []), Answered(s.frames[r].port, s.frames[r].attempt, x);
    CountSame(s.boundary, s.frames, s.frames[r := frame], r);
    CreateFrames(s, r, frame, feed);
    FeedAdded(s, x, feed);
  }

  lemma CreateFrames(s: System, r: RequestId, frame: Frame, feed: Feed)
    requires Invariant(s) && r in s.frames && frame.Answered? && frame.subscription !in s.feeds
    requires feed.log == []
    ensures var frames, feeds := s.frames[r := frame], s.feeds[frame.subscription := feed];
      && FramesKnown(frames, feeds, s.reached)
      && BuffersComplete(s.boundary.ports, s.boundary.router, frames, feeds, s.queue)
      && FeedsValid(feeds)
  {
    OfUnknown(s.queue, frame.subscription);
    assert Diffs([]) == [];
    assert s.boundary.router.Buffer(frame.subscription) == [];
  }

  lemma FeedAdded(s: System, x: Subscription, feed: Feed)
    requires Invariant(s) && x !in s.feeds
    ensures PagesFollow(s.boundary.sent, s.homes, s.feeds[x := feed])
    ensures NothingLost(s.boundary.sent, s.boundary.router.owners, s.feeds[x := feed], s.queue)
  {
  }

  lemma OfAppended(queue: seq<CoreEvent>, event: CoreEvent, x: Subscription)
    ensures Of(queue + [event], x)
         == Of(queue, x) + if event.Timeline? && event.event.subscription == x then [event.event] else []
  {
    OfConcat(queue, [event], x);
    assert [event][..0] == [];
  }

  /** An event joins the log and the queue together, so what was delivered stays the same prefix. */
  lemma LogGrows(feed: Feed, queue: seq<CoreEvent>, event: CoreEvent, x: Subscription)
    requires |Of(queue, x)| <= |feed.log|
    requires event.Timeline? && event.event.subscription == x
    ensures var longer, n := feed.(log := feed.log + [event.event]), Delivered(feed, queue, x);
      && Delivered(longer, queue + [event], x) == n && longer.log[..n] == feed.log[..n]
      && (feed.log[n..] == Of(queue, x) ==> longer.log[n..] == Of(queue + [event], x))
  {
    OfAppended(queue, event, x);
  }

  lemma EmitOtherKeeps(s: System, event: CoreEvent)
    requires Invariant(s) && event.Other?
    ensures Invariant(Do(s, Emit(event)))
  {
    hide PortsKnown, OnlyOpen, CountsMatch, HomesKnown, NoneLeaked, FramesKnown, CallsIssued, PendingKnown, FeedsValid,
        PagesFollow;
    hide BuffersComplete, NothingLost;
    forall x ensures Of(s.queue + [event], x) == Of(s.queue, x) { OfAppended(s.queue, event, x); }
    SameQueue(s.boundary, s.frames, s.feeds, s.queue, s.queue + [event]);
  }

  lemma SameQueue(b: Boundary, frames: Frames, feeds: Feeds, queue: seq<CoreEvent>, other: seq<CoreEvent>)
    requires forall x :: Of(other, x) == Of(queue, x)
    requires BuffersComplete(b.ports, b.router, frames, feeds, queue)
    requires NothingLost(b.sent, b.router.owners, feeds, queue)
    ensures BuffersComplete(b.ports, b.router, frames, feeds, other)
    ensures NothingLost(b.sent, b.router.owners, feeds, other)
  {
  }

  lemma EmitTimelineKeeps(s: System, event: CoreEvent)
    requires Invariant(s) && event.Timeline?
    ensures Invariant(Do(s, Emit(event)))
  {
    var y := event.event.subscription;
    if y in s.feeds && Emittable(s.feeds[y], event.event) {
      var t := Do(s, Emit(event));
      EmitKeepsPages(s, t, y, event);
      EmitKeepsBuffers(s, t, y, event);
    }
  }

  lemma EmitKeepsBuffers(s: System, t: System, y: Subscription, event: CoreEvent)
    requires BuffersComplete(s.boundary.ports, s.boundary.router, s.frames, s.feeds, s.queue)
    requires y in s.feeds && event.Timeline? && event.event.subscription == y
    requires t.feeds == s.feeds[y := s.feeds[y].(log := s.feeds[y].log + [event.event])]
    requires t.queue == s.queue + [event] && t.frames == s.frames && t.boundary == s.boundary
    ensures BuffersComplete(t.boundary.ports, t.boundary.router, t.frames, t.feeds, t.queue)
  {
    forall x ensures Of(t.queue, x) == Of(s.queue, x) + if x == y then [event.event] else [] {
      OfAppended(s.queue, event, x);
    }
  }

  lemma EmitKeepsPages(s: System, t: System, y: Subscription, event: CoreEvent)
    requires PagesFollow(s.boundary.sent, s.homes, s.feeds)
    requires NothingLost(s.boundary.sent, s.boundary.router.owners, s.feeds, s.queue)
    requires y in s.feeds && event.Timeline? && event.event.subscription == y
    requires t.feeds == s.feeds[y := s.feeds[y].(log := s.feeds[y].log + [event.event])]
    requires t.queue == s.queue + [event] && t.homes == s.homes && t.boundary == s.boundary
    ensures PagesFollow(t.boundary.sent, t.homes, t.feeds)
    ensures NothingLost(t.boundary.sent, t.boundary.router.owners, t.feeds, t.queue)
  {
    forall x | x in t.homes ensures SeesPrefix(SeenBy(t.boundary.sent, t.homes[x], x), t.feeds[x]) {
      var n := |SeenBy(s.boundary.sent, s.homes[x], x)| - 1;
      assert t.feeds[x].log[..n] == s.feeds[x].log[..n];
    }
    forall x | x in t.boundary.router.owners
      ensures Delivered(t.feeds[x], t.queue, x) == Delivered(s.feeds[x], s.queue, x)
      ensures t.feeds[x].log[..Delivered(t.feeds[x], t.queue, x)] == s.feeds[x].log[..Delivered(s.feeds[x], s.queue, x)]
      ensures t.feeds[x].log[Delivered(t.feeds[x], t.queue, x)..] == Of(t.queue, x)
    {
      OfAppended(s.queue, event, x);
      if x == y { LogGrows(s.feeds[x], s.queue, event, x); }
    }
  }

  // ---- closing ports ----

  lemma CloseKeeps(s: System, gone: set<Port>)
    requires InvariantFor(s, s.boundary.router.owners - s.boundary.router.OwnedBy(gone))
    ensures Invariant(s.(boundary := s.boundary.Close(gone)))
  {
    hide PortsKnown, OnlyOpen, CountsMatch, HomesKnown, NoneLeaked, FramesKnown, CallsIssued, PendingKnown, QueueKnown;
    hide FeedsValid, BuffersComplete, PagesFollow, NothingLost, Boundary.CloseOpen;
    var b := s.boundary;
    var closing := gone * b.ports;
    OnlyOpenOwn(b.ports, b.router, gone);
    assert b.router.OwnedBy(gone) == b.router.OwnedBy(closing);
    if closing != {} {
      CloseOpenKeeps(s, closing);
    } else {
      assert b.router.owners - b.router.OwnedBy(gone) == b.router.owners;
    }
  }

  lemma OnlyOpenOwn(ports: set<Port>, router: Router<Port>, gone: set<Port>)
    requires OnlyOpen(ports, router)
    ensures router.OwnedBy(gone) == router.OwnedBy(gone * ports)
  {
  }

  lemma CloseOpenKeeps(s: System, closing: set<Port>)
    requires InvariantFor(s, s.boundary.router.owners - s.boundary.router.OwnedBy(closing))
    ensures Invariant(s.(boundary := s.boundary.CloseOpen(closing)))
  {
    var b := s.boundary;
    var c := b.CloseOpen(closing);
    RemoveKeepsSound(b.router, closing);
    assert OnlyOpen(c.ports, c.router);
    assert HomesKnown(c.router.owners, c.sent, s.homes, s.reached);
    assert NoneLeaked(c.router.owners, c.unsubscribing, s.reached);
    assert PendingKnown(c.router.pending, s.feeds);
    CloseKeepsCounts(b, closing, s.frames);
    CloseKeepsBuffers(b.ports, closing, b.router, s.frames, s.feeds, s.queue);
  }

  lemma CloseKeepsCounts(b: Boundary, closing: set<Port>, frames: Frames)
    requires CountsMatch(b.ports, b.router, frames)
    ensures CountsMatch(b.ports - closing, b.router.RemoveOwners(closing), frames)
  {
    forall p | p in b.ports - closing ensures b.router.RemoveOwners(closing).InFlight(p) == b.router.InFlight(p) {}
  }

  lemma CloseKeepsBuffers(ports: set<Port>, closing: set<Port>, router: Router<Port>, frames: Frames, feeds: Feeds,
      queue: seq<CoreEvent>)
    requires BuffersComplete(ports, router, frames, feeds, queue) && CountsMatch(ports, router, frames)
    requires forall r :: r in frames && frames[r].Answered? ==> frames[r].subscription !in router.owners
    ensures BuffersComplete(ports - closing, router.RemoveOwners(closing), frames, feeds, queue)
  {
    var after := router.RemoveOwners(closing);
    forall r | r in frames && frames[r].Answered? && frames[r].port in ports - closing
      ensures after.overflowed == router.overflowed
        && after.Buffer(frames[r].subscription) == router.Buffer(frames[r].subscription)
    {
      assert r in Waiting(frames, frames[r].port);
      assert router.InFlight(frames[r].port) > 0;
      assert frames[r].port in router.inFlight - closing;
    }
  }

  // ---- delivering a batch ----

  lemma {:induction false} RouteAllKeepsSound(router: Router<Port>, events: seq<CoreEvent>)
    requires router.Sound()
    ensures RouteAll(router, events).Sound()
    decreases |events|
  {
    if events != [] {
      var n := |events| - 1;
      RouteAllKeepsSound(router, events[..n]);
      if events[n].Timeline? { RouteKeepsSound(RouteAll(router, events[..n]), events[n].event); }
    }
  }

  lemma {:induction false} RouteAllPending(router: Router<Port>, events: seq<CoreEvent>, feeds: Feeds)
    requires PendingKnown(router.pending, feeds) && QueueKnown(events, feeds)
    ensures PendingKnown(RouteAll(router, events).pending, feeds)
    decreases |events|
  {
    if events != [] { RouteAllPending(router, events[..|events| - 1], feeds); }
  }

  /** While a subscribe is in flight its events are buffered in order, or everything overflowed. */
  lemma {:induction false} RouteAllBuffers(router: Router<Port>, events: seq<CoreEvent>, x: Subscription)
    requires router.inFlight != map[] && x !in router.owners
    ensures router.overflowed ==> RouteAll(router, events).overflowed
    ensures !RouteAll(router, events).overflowed ==>
      RouteAll(router, events).Buffer(x) == router.Buffer(x) + Of(events, x)
    decreases |events|
  {
    if events != [] {
      RouteAllBuffers(router, events[..|events| - 1], x);
      RouteAllKeepsOwners(router, events[..|events| - 1]);
    }
  }

  /** The batch after all posts and before all closes. */
  ghost function Posted(b: Boundary, events: seq<CoreEvent>, deaf: set<Port>, broken: set<Port>): Boundary {
    var routed := b.(router := RouteAll(b.router, events));
    var shared := if Shared(events) == [] then routed else routed.PostAll(b.ports - {} - deaf, Events(Shared(events)));
    var batches := Routed(b.router.owners, events);
    shared.PostBatches(batches, batches.Keys - {} - broken)
  }

  function Closed(b: Boundary, events: seq<CoreEvent>, deaf: set<Port>, broken: set<Port>): set<Port> {
    (if Shared(events) == [] then {} else deaf - {}) + (Routed(b.router.owners, events).Keys * broken - {})
  }

  lemma HandleEventSplits(b: Boundary, events: seq<CoreEvent>, deaf: set<Port>, broken: set<Port>)
    ensures b.HandleEvent(events, deaf, broken)
        == Posted(b, events, deaf, broken).Close(Closed(b, events, deaf, broken))
  {
    var batches := Routed(b.router.owners, events);
    var last := batches.Keys * broken - {};
    if Shared(events) != [] {
      var posted := b.(router := RouteAll(b.router, events)).PostAll(b.ports - {} - deaf, Events(Shared(events)));
      ClosesCompose(posted.PostBatches(batches, batches.Keys - {} - broken), deaf - {}, last);
    } else {
      assert {} + last == last;
    }
  }

  lemma SharedSeen(b: Boundary, receivers: set<Port>, events: seq<CoreEvent>, p: Port, x: Subscription)
    ensures SeenBy(b.PostAll(receivers, Events(Shared(events))).sent, p, x) == SeenBy(b.sent, p, x)
  {
    OfShared(events, x);
    SeenPosted(At(b.sent, p), Events(Shared(events)), x);
    assert At(b.sent, p) + [] == At(b.sent, p);
  }

  lemma BatchSeen(b: Boundary, batches: map<Port, seq<CoreEvent>>, receivers: set<Port>, p: Port, x: Subscription)
    requires receivers <= batches.Keys
    ensures SeenBy(b.PostBatches(batches, receivers).sent, p, x)
         == SeenBy(b.sent, p, x) + if p in receivers then Gots(Of(batches[p], x)) else []
  {
    assert At(b.sent, p) + [] == At(b.sent, p);
    if p in receivers { SeenPosted(At(b.sent, p), Events(batches[p]), x); }
  }

  lemma PostedSeen(b: Boundary, events: seq<CoreEvent>, deaf: set<Port>, broken: set<Port>, p: Port, x: Subscription)
    ensures SeenBy(Posted(b, events, deaf, broken).sent, p, x)
         == SeenBy(b.sent, p, x)
            + if p !in broken && x in b.router.owners && b.router.owners[x] == p then Gots(Of(events, x)) else []
  {
    var batches := Routed(b.router.owners, events);
    var routed := b.(router := RouteAll(b.router, events));
    var shared := if Shared(events) == [] then routed else routed.PostAll(b.ports - {} - deaf, Events(Shared(events)));
    SharedSeen(routed, b.ports - {} - deaf, events, p, x);
    BatchSeen(shared, batches, batches.Keys - {} - broken, p, x);
    OfRouted(b.router.owners, events, p, x);
  }

  lemma PostedRest(b: Boundary, events: seq<CoreEvent>, deaf: set<Port>, broken: set<Port>)
    ensures var m := Posted(b, events, deaf, broken);
      m.ports == b.ports && m.router == RouteAll(b.router, events) && m.unsubscribing == b.unsubscribing
        && b.sent.Keys <= m.sent.Keys
  {
  }

  lemma RouteAllCompletes(router: Router<Port>, events: seq<CoreEvent>, rest: seq<CoreEvent>, x: Subscription,
      log: seq<TimelineEvent>)
    requires router.inFlight != map[] && x !in router.owners
    requires !router.overflowed ==> router.Buffer(x) + Of(events + rest, x) == log
    ensures !RouteAll(router, events).overflowed ==> RouteAll(router, events).Buffer(x) + Of(rest, x) == log
  {
    RouteAllBuffers(router, events, x);
    OfConcat(events, rest, x);
  }

  lemma PostedKeepsBuffers(ports: set<Port>, router: Router<Port>, frames: Frames, feeds: Feeds,
      events: seq<CoreEvent>, rest: seq<CoreEvent>)
    requires BuffersComplete(ports, router, frames, feeds, events + rest) && CountsMatch(ports, router, frames)
    requires forall r :: r in frames && frames[r].Answered? ==>
      frames[r].subscription in feeds && frames[r].subscription !in router.owners
    ensures BuffersComplete(ports, RouteAll(router, events), frames, feeds, rest)
  {
    forall r | r in frames && frames[r].Answered? && frames[r].port in ports
      ensures !RouteAll(router, events).overflowed ==>
        RouteAll(router, events).Buffer(frames[r].subscription) + Of(rest, frames[r].subscription)
            == feeds[frames[r].subscription].log
    {
      assert r in Waiting(frames, frames[r].port);
      assert router.InFlight(frames[r].port) > 0;
      RouteAllCompletes(router, events, rest, frames[r].subscription, feeds[frames[r].subscription].log);
    }
  }

  lemma SplitLog(log: seq<TimelineEvent>, k: nat, first: seq<TimelineEvent>, second: seq<TimelineEvent>)
    requires k <= |log| && log[k..] == first + second
    ensures log[..k + |first|] == log[..k] + first && log[k + |first|..] == second
  {
    assert log == log[..k] + log[k..];
  }

  /** What a page owning the subscription is still owed shrinks by exactly what it is posted. */
  lemma DeliverOne(seen: seq<Seen>, feed: Feed, events: seq<CoreEvent>, rest: seq<CoreEvent>, x: Subscription)
    requires seen == [Opened(feed.snapshot)] + Gots(feed.log[..Delivered(feed, events + rest, x)])
    requires feed.log[Delivered(feed, events + rest, x)..] == Of(events + rest, x)
    ensures var n := Delivered(feed, rest, x);
      && seen + Gots(Of(events, x)) == [Opened(feed.snapshot)] + Gots(feed.log[..n])
      && feed.log[n..] == Of(rest, x)
  {
    var k, posted := Delivered(feed, events + rest, x), Of(events, x);
    OfConcat(events, rest, x);
    SplitLog(feed.log, k, posted, Of(rest, x));
    GotsConcat(feed.log[..k], posted);
  }

  predicate Reaches(owners: Owners, broken: set<Port>, p: Port, x: Subscription) {
    p !in broken && x in owners && owners[x] == p
  }

  ghost predicate Grown(sent: Mail, after: Mail, owners: Owners, broken: set<Port>, events: seq<CoreEvent>) {
    forall p, x ::
      SeenBy(after, p, x) == SeenBy(sent, p, x) + (if Reaches(owners, broken, p, x) then Gots(Of(events, x)) else [])
  }

  lemma OwnedGrows(sent: Mail, after: Mail, owners: Owners, feeds: Feeds,
                   events: seq<CoreEvent>, rest: seq<CoreEvent>, broken: set<Port>, x: Subscription)
    requires NothingLost(sent, owners, feeds, events + rest) && Grown(sent, after, owners, broken, events)
    requires x in owners && (owners[x] !in broken || Of(events, x) == [])
    ensures x in feeds
    ensures SeenBy(after, owners[x], x)
        == [Opened(feeds[x].snapshot)] + Gots(feeds[x].log[..Delivered(feeds[x], rest, x)])
    ensures feeds[x].log[Delivered(feeds[x], rest, x)..] == Of(rest, x)
  {
    DeliverOne(SeenBy(sent, owners[x], x), feeds[x], events, rest, x);
    assert SeenBy(after, owners[x], x) == SeenBy(sent, owners[x], x) + Gots(Of(events, x));
  }

  lemma HomeGrows(sent: Mail, after: Mail, owners: Owners, homes: Owners, feeds: Feeds,
                  events: seq<CoreEvent>, rest: seq<CoreEvent>, broken: set<Port>, x: Subscription)
    requires PagesFollow(sent, homes, feeds)
    requires NothingLost(sent, owners, feeds, events + rest) && Grown(sent, after, owners, broken, events)
    requires x in homes
    ensures SeesPrefix(SeenBy(after, homes[x], x), feeds[x])
  {
    hide SeenAll, Of, Gots;
    if Reaches(owners, broken, homes[x], x) {
      OwnedGrows(sent, after, owners, feeds, events, rest, broken, x);
    } else {
      assert SeenBy(after, homes[x], x) == SeenBy(sent, homes[x], x);
    }
  }

  lemma PagesGrow(sent: Mail, after: Mail, owners: Owners, homes: Owners, feeds: Feeds,
                  events: seq<CoreEvent>, rest: seq<CoreEvent>, broken: set<Port>)
    requires PagesFollow(sent, homes, feeds) && Grown(sent, after, owners, broken, events)
    requires NothingLost(sent, owners, feeds, events + rest)
    requires forall x :: x in owners ==> x in homes && homes[x] == owners[x]
    ensures PagesFollow(after, homes, feeds)
  {
    forall x | x in homes ensures SeesPrefix(SeenBy(after, homes[x], x), feeds[x]) {
      HomeGrows(sent, after, owners, homes, feeds, events, rest, broken, x);
    }
  }

  lemma OwnedGrow(sent: Mail, after: Mail, owners: Owners, kept: Owners, feeds: Feeds,
                  events: seq<CoreEvent>, rest: seq<CoreEvent>, broken: set<Port>)
    requires NothingLost(sent, owners, feeds, events + rest) && Grown(sent, after, owners, broken, events)
    requires forall x :: x in kept ==>
      x in owners && kept[x] == owners[x] && (owners[x] !in broken || Of(events, x) == [])
    ensures NothingLost(after, kept, feeds, rest)
  {
    forall x | x in kept
      ensures x in feeds
      ensures SeenBy(after, kept[x], x)
          == [Opened(feeds[x].snapshot)] + Gots(feeds[x].log[..Delivered(feeds[x], rest, x)])
      ensures feeds[x].log[Delivered(feeds[x], rest, x)..] == Of(rest, x)
    {
      OwnedGrows(sent, after, owners, feeds, events, rest, broken, x);
    }
  }

  /** Who stays open owns nothing of the batch that was not posted. */
  lemma KeptReached(b: Boundary, events: seq<CoreEvent>, deaf: set<Port>, broken: set<Port>, x: Subscription)
    requires x in b.router.owners && b.router.owners[x] !in Closed(b, events, deaf, broken)
    ensures b.router.owners[x] !in broken || Of(events, x) == []
  {
    OfRouted(b.router.owners, events, b.router.owners[x], x);
  }

  lemma PostedKeepsPages(b: Boundary, homes: Owners, feeds: Feeds, events: seq<CoreEvent>, rest: seq<CoreEvent>,
      deaf: set<Port>, broken: set<Port>)
    requires PagesFollow(b.sent, homes, feeds) && NothingLost(b.sent, b.router.owners, feeds, events + rest)
    requires forall x :: x in b.router.owners ==> x in homes && homes[x] == b.router.owners[x]
    ensures PagesFollow(Posted(b, events, deaf, broken).sent, homes, feeds)
    ensures NothingLost(Posted(b, events, deaf, broken).sent,
        b.router.owners - b.router.OwnedBy(Closed(b, events, deaf, broken)), feeds, rest)
  {
    var after, owners := Posted(b, events, deaf, broken).sent, b.router.owners;
    assert Grown(b.sent, after, owners, broken, events) by {
      forall p, x { PostedSeen(b, events, deaf, broken, p, x); }
    }
    PagesGrow(b.sent, after, owners, homes, feeds, events, rest, broken);
    var kept := owners - b.router.OwnedBy(Closed(b, events, deaf, broken));
    forall x | x in kept
      ensures x in owners && (owners[x] !in broken || Of(events, x) == []) { KeptReached(b, events, deaf, broken, x); }
    OwnedGrow(b.sent, after, owners, kept, feeds, events, rest, broken);
  }

  /** The state after all posts of a batch and before all its closes. */
  ghost function PostedState(s: System, events: seq<CoreEvent>, rest: seq<CoreEvent>, deaf: set<Port>,
      broken: set<Port>): System {
    s.(boundary := Posted(s.boundary, events, deaf, broken), queue := rest)
  }

  lemma PostedRouter(s: System, events: seq<CoreEvent>, rest: seq<CoreEvent>)
    requires Invariant(s) && s.queue == events + rest
    ensures var b := s.boundary; var router := RouteAll(b.router, events);
      && router.Sound() && OnlyOpen(b.ports, router) && CountsMatch(b.ports, router, s.frames)
      && PendingKnown(router.pending, s.feeds) && QueueKnown(rest, s.feeds)
      && BuffersComplete(b.ports, router, s.frames, s.feeds, rest)
  {
    var b := s.boundary;
    RouteAllKeepsSound(b.router, events);
    RouteAllKeepsOwners(b.router, events);
    assert QueueKnown(events, s.feeds) by {
      forall i | 0 <= i < |events| ensures events[i] == s.queue[i] {}
    }
    RouteAllPending(b.router, events, s.feeds);
    PostedKeepsBuffers(b.ports, b.router, s.frames, s.feeds, events, rest);
    assert QueueKnown(rest, s.feeds) by {
      forall i | 0 <= i < |rest| ensures rest[i] == s.queue[|events| + i] {}
    }
  }

  lemma PostedMail(s: System, events: seq<CoreEvent>, rest: seq<CoreEvent>, deaf: set<Port>, broken: set<Port>)
    requires Invariant(s) && s.queue == events + rest
    ensures var b, m := s.boundary, Posted(s.boundary, events, deaf, broken);
      && PortsKnown(b.ports, m.sent, s.frames) && HomesKnown(b.router.owners, m.sent, s.homes, s.reached)
      && PagesFollow(m.sent, s.homes, s.feeds)
      && NothingLost(m.sent, b.router.owners - b.router.OwnedBy(Closed(b, events, deaf, broken)), s.feeds, rest)
  {
    PostedRest(s.boundary, events, deaf, broken);
    PostedKeepsPages(s.boundary, s.homes, s.feeds, events, rest, deaf, broken);
  }

  lemma PostedKeeps(s: System, events: seq<CoreEvent>, rest: seq<CoreEvent>, deaf: set<Port>, broken: set<Port>)
    requires Invariant(s) && s.queue == events + rest
    ensures var t, gone := PostedState(s, events, rest, deaf, broken), Closed(s.boundary, events, deaf, broken);
      InvariantFor(t, t.boundary.router.owners - t.boundary.router.OwnedBy(gone))
  {
    hide PortsKnown, OnlyOpen, CountsMatch, HomesKnown, NoneLeaked, FramesKnown, CallsIssued, PendingKnown, QueueKnown;
    hide FeedsValid, BuffersComplete, PagesFollow, NothingLost, Posted;
    var b, t, gone := s.boundary, PostedState(s, events, rest, deaf, broken), Closed(s.boundary, events, deaf, broken);
    PostedRest(b, events, deaf, broken);
    PostedRouter(s, events, rest);
    PostedMail(s, events, rest, deaf, broken);
    RouteAllKeepsOwners(b.router, events);
    assert t.boundary.router.OwnedBy(gone) == b.router.OwnedBy(gone);
  }

  lemma DeliverKeeps(s: System, count: nat, deaf: set<Port>, broken: set<Port>)
    requires Invariant(s) && count <= |s.queue|
    ensures Invariant(Do(s, Deliver(count, deaf, broken)))
  {
    hide InvariantFor, Posted, Closed;
    var b, events, rest := s.boundary, s.queue[..count], s.queue[count..];
    assert s.queue == events + rest;
    PostedKeeps(s, events, rest, deaf, broken);
    CloseKeeps(PostedState(s, events, rest, deaf, broken), Closed(b, events, deaf, broken));
    HandleEventSplits(b, events, deaf, broken);
  }

  // ---- the core's reply to a subscribe ----

  ghost predicate NotAwaited(frames: Frames, x: Subscription) {
    forall r :: r in frames && frames[r].Answered? ==> frames[r].subscription != x
  }

  lemma ForgetKeeps(s: System, x: Subscription)
    requires Invariant(s) && NotAwaited(s.frames, x)
    ensures var router := s.boundary.router;
      Invariant(s.(boundary := s.boundary.(router := router.(pending := router.pending - {x}))))
  {
    ForgetKeepsSound(s.boundary.router, x);
  }

  function RetractedState(s: System, r: RequestId, frame: Frame, x: Subscription): System {
    s.(boundary := s.boundary.(unsubscribing := s.boundary.unsubscribing + {x}),
       frames := s.frames[r := frame], reached := s.reached + {x})
  }

  lemma RetractFrames(s: System, r: RequestId, frame: Frame, x: Subscription)
    requires Invariant(s) && frame.Retracting? && frame.port in s.boundary.sent && r !in s.frames
    requires x in s.feeds && NotAwaited(s.frames, x)
    ensures var b, frames, reached := s.boundary, s.frames[r := frame], s.reached + {x};
      && PortsKnown(b.ports, b.sent, frames) && CallsIssued(frames, b.unsubscribing + {x})
      && HomesKnown(b.router.owners, b.sent, s.homes, reached)
        && NoneLeaked(b.router.owners, b.unsubscribing + {x}, reached)
  {
  }

  lemma RetractBuffers(s: System, r: RequestId, frame: Frame, x: Subscription)
    requires Invariant(s) && frame.Retracting? && r !in s.frames
    requires x in s.feeds && NotAwaited(s.frames, x)
    ensures var frames := s.frames[r := frame];
      && FramesKnown(frames, s.feeds, s.reached + {x})
      && BuffersComplete(s.boundary.ports, s.boundary.router, frames, s.feeds, s.queue)
  {
  }

  lemma RetractKeeps(s: System, r: RequestId, frame: Frame, x: Subscription)
    requires Invariant(s) && frame.Retracting? && frame.port in s.boundary.sent && r !in s.frames
    requires x in s.feeds && NotAwaited(s.frames, x)
    ensures Invariant(RetractedState(s, r, frame, x))
  {
    hide PortsKnown, OnlyOpen, CountsMatch, HomesKnown, NoneLeaked, FramesKnown, CallsIssued, PendingKnown, QueueKnown;
    hide FeedsValid, BuffersComplete, PagesFollow, NothingLost;
    CountSame(s.boundary, s.frames, s.frames[r := frame], r);
    RetractFrames(s, r, frame, x);
    RetractBuffers(s, r, frame, x);
  }

  /** The `ok` reply, and the buffered events when there are any. */
  function Opening(b: Boundary, r: RequestId, port: Port, x: Subscription, snapshot: seq<string>,
      buffered: seq<TimelineEvent>): Boundary {
    var answered := b.Post(port, Ok(r, x, snapshot));
    if buffered == [] then answered else answered.Post(port, Events(Timelines(buffered)))
  }

  lemma PostSeen(b: Boundary, port: Port, message: Message, p: Port, y: Subscription)
    ensures SeenBy(b.Post(port, message).sent, p, y)
         == SeenBy(b.sent, p, y) + if p == port then SeenIn(message, y) else []
  {
    SeenPosted(At(b.sent, port), message, y);
  }

  ghost predicate GrownAt(sent: Mail, after: Mail, port: Port, x: Subscription, more: seq<Seen>) {
    forall p, y :: SeenBy(after, p, y) == SeenBy(sent, p, y) + (if p == port && y == x then more else [])
  }

  lemma OpeningSeenAt(b: Boundary, r: RequestId, port: Port, x: Subscription, snapshot: seq<string>,
      buffered: seq<TimelineEvent>, p: Port, y: Subscription)
    requires forall i :: 0 <= i < |buffered| ==> buffered[i].subscription == x
    ensures SeenBy(Opening(b, r, port, x, snapshot, buffered).sent, p, y)
         == SeenBy(b.sent, p, y) + (if p == port && y == x then [Opened(snapshot)] + Gots(buffered) else [])
  {
    hide SeenAll;
    OfTimelines(buffered, x, y);
    PostSeen(b, port, Ok(r, x, snapshot), p, y);
    PostSeen(b.Post(port, Ok(r, x, snapshot)), port, Events(Timelines(buffered)), p, y);
  }

  lemma OpeningSeen(b: Boundary, r: RequestId, port: Port, x: Subscription, snapshot: seq<string>,
      buffered: seq<TimelineEvent>)
    requires forall i :: 0 <= i < |buffered| ==> buffered[i].subscription == x
    ensures GrownAt(b.sent, Opening(b, r, port, x, snapshot, buffered).sent, port, x,
                    [Opened(snapshot)] + Gots(buffered))
  {
    forall p, y { OpeningSeenAt(b, r, port, x, snapshot, buffered, p, y); }
  }

  lemma OpeningRest(b: Boundary, r: RequestId, port: Port, x: Subscription, snapshot: seq<string>,
      buffered: seq<TimelineEvent>)
    ensures var c := Opening(b, r, port, x, snapshot, buffered);
      c.ports == b.ports && c.router == b.router && c.unsubscribing == b.unsubscribing
        && c.sent.Keys == b.sent.Keys + {port}
  {
  }

  lemma OwnedRouter(ports: set<Port>, router: Router<Port>, frames: Frames, feeds: Feeds, queue: seq<CoreEvent>,
      port: Port, x: Subscription)
    requires router.Sound() && OnlyOpen(ports, router) && CountsMatch(ports, router, frames)
    requires BuffersComplete(ports, router, frames, feeds, queue)
    requires port in ports && x !in router.pending
    ensures var after := router.(owners := router.owners[x := port]);
      && after.Sound() && OnlyOpen(ports, after) && CountsMatch(ports, after, frames)
      && BuffersComplete(ports, after, frames, feeds, queue)
  {
    var after := router.(owners := router.owners[x := port]);
    forall y ensures after.Buffer(y) == router.Buffer(y) {}
    forall p ensures after.InFlight(p) == router.InFlight(p) {}
  }

  lemma OpenKeeps(s: System, r: RequestId, port: Port, x: Subscription, buffered: seq<TimelineEvent>)
    requires Invariant(s) && port in s.boundary.ports
    requires x in s.feeds && x !in s.reached && NotAwaited(s.frames, x) && x !in s.boundary.router.pending
    requires buffered + Of(s.queue, x) == s.feeds[x].log
    requires forall i :: 0 <= i < |buffered| ==> buffered[i].subscription == x
    ensures Invariant(OpenedState(s, r, port, x, buffered))
  {
    var router := s.boundary.router;
    var b := s.boundary.(router := router.(owners := router.owners[x := port]));
    var c := Opening(b, r, port, x, s.feeds[x].snapshot, buffered);
    OpeningSeen(b, r, port, x, s.feeds[x].snapshot, buffered);
    OpenedHomes(b.sent, c.sent, s.homes, s.feeds, port, x, buffered, Of(s.queue, x));
    OpenedOwned(b.sent, c.sent, router.owners, s.homes, s.feeds, s.queue, port, x, buffered);
    OpeningRest(b, r, port, x, s.feeds[x].snapshot, buffered);
    OwnedRouter(s.boundary.ports, router, s.frames, s.feeds, s.queue, port, x);
  }

  function OpenedState(s: System, r: RequestId, port: Port, x: Subscription, buffered: seq<TimelineEvent>): System
    requires x in s.feeds
  {
    var router := s.boundary.router;
    var b := s.boundary.(router := router.(owners := router.owners[x := port]));
    s.(boundary := Opening(b, r, port, x, s.feeds[x].snapshot, buffered),
       homes := s.homes[x := port], reached := s.reached + {x})
  }

  lemma OpenedHomes(sent: Mail, after: Mail, homes: Owners, feeds: Feeds,
                    port: Port, x: Subscription, buffered: seq<TimelineEvent>, queued: seq<TimelineEvent>)
    requires PagesFollow(sent, homes, feeds)
    requires x in feeds && x !in homes && buffered + queued == feeds[x].log
    requires GrownAt(sent, after, port, x, [Opened(feeds[x].snapshot)] + Gots(buffered))
    ensures PagesFollow(after, homes[x := port], feeds)
  {
    hide SeenAll, Of;
    assert SeenBy(sent, port, x) == [];
    assert SeenBy(after, port, x) == [Opened(feeds[x].snapshot)] + Gots(buffered);
    assert feeds[x].log[..|buffered|] == buffered;
    forall y | y in homes ensures SeesPrefix(SeenBy(after, homes[y], y), feeds[y]) {
      assert SeenBy(after, homes[y], y) == SeenBy(sent, homes[y], y);
    }
  }

  lemma OpenedOwned(sent: Mail, after: Mail, owners: Owners, homes: Owners, feeds: Feeds, queue: seq<CoreEvent>,
                    port: Port, x: Subscription, buffered: seq<TimelineEvent>)
    requires PagesFollow(sent, homes, feeds) && NothingLost(sent, owners, feeds, queue)
    requires x in feeds && x !in homes && x !in owners && buffered + Of(queue, x) == feeds[x].log
    requires GrownAt(sent, after, port, x, [Opened(feeds[x].snapshot)] + Gots(buffered))
    ensures NothingLost(after, owners[x := port], feeds, queue)
  {
    assert SeenBy(sent, port, x) == [];
    assert SeenBy(after, port, x) == [Opened(feeds[x].snapshot)] + Gots(buffered);
    assert feeds[x].log[..|buffered|] == buffered;
    forall y | y in owners ensures SeenBy(after, owners[y], y) == SeenBy(sent, owners[y], y) {}
  }

  lemma ReplyKeeps(s: System, r: RequestId)
    requires Invariant(s) && r in s.frames && s.frames[r].Answered?
    ensures Invariant(DoReply(s, r))
  {
    var f, b := s.frames[r], s.boundary;
    var x := f.subscription;
    var claimed := b.router.Claim(x, f.port).1;
    if claimed.NotPending? {
      ClosedReplyKeeps(s, r);
    } else {
      OpenReplyKeeps(s, r);
    }
  }

  /** The port closed while the core was answering, so nothing is claimed. */
  lemma ClosedReplyKeeps(s: System, r: RequestId)
    requires Invariant(s) && r in s.frames && s.frames[r].Answered?
    requires s.frames[r].port !in s.boundary.router.inFlight
    ensures Invariant(DoReply(s, r))
  {
    var f := s.frames[r];
    var x := f.subscription;
    CancelKeeps(s, r);
    var dropped := s.(frames := s.frames - {r});
    assert s.boundary.router.CancelPending(f.port) == s.boundary.router;
    RetractKeeps(dropped, r, Retracting(f.port, f.attempt, false), x);
    assert dropped.frames[r := Retracting(f.port, f.attempt, false)]
        == s.frames[r := Retracting(f.port, f.attempt, false)];
  }

  /** The router after the claim took the buffer out and ended the subscribe. */
  lemma TakeKeeps(s: System, r: RequestId)
    requires Invariant(s) && r in s.frames && s.frames[r].Answered?
    ensures Invariant(Taken(s, r))
  {
    var f := s.frames[r];
    CancelKeeps(s, r);
    var cancelled :=
      s.(boundary := s.boundary.(router := s.boundary.router.CancelPending(f.port)), frames := s.frames - {r});
    ForgetKeeps(cancelled, f.subscription);
    CancelThenForget(s.boundary.router, f.subscription, f.port);
  }

  function Taken(s: System, r: RequestId): System
    requires r in s.frames && s.frames[r].Answered?
  {
    var f, router := s.frames[r], s.boundary.router;
    s.(boundary := s.boundary.(router := router.(pending := router.pending - {f.subscription}).CancelPending(f.port)),
       frames := s.frames - {r})
  }

  lemma OverflowedReply(s: System, r: RequestId)
    requires r in s.frames && s.frames[r].Answered? && s.frames[r].subscription in s.feeds
    requires s.frames[r].port in s.boundary.router.inFlight && s.boundary.router.overflowed
    ensures var f := s.frames[r];
      DoReply(s, r) == RetractedState(Taken(s, r), r, Retracting(f.port, f.attempt, true), f.subscription)
  {
    var f := s.frames[r];
    assert (s.frames - {r})[r := Retracting(f.port, f.attempt, true)]
        == s.frames[r := Retracting(f.port, f.attempt, true)];
  }

  lemma BufferedReply(s: System, r: RequestId)
    requires r in s.frames && s.frames[r].Answered? && s.frames[r].subscription in s.feeds
    requires s.frames[r].port in s.boundary.router.inFlight && s.frames[r].port in s.boundary.ports
    requires !s.boundary.router.overflowed
    ensures var f := s.frames[r];
      DoReply(s, r) == OpenedState(Taken(s, r), r, f.port, f.subscription, s.boundary.router.Buffer(f.subscription))
  {
  }

  lemma OpenReplyKeeps(s: System, r: RequestId)
    requires Invariant(s) && r in s.frames && s.frames[r].Answered?
    requires s.frames[r].port in s.boundary.router.inFlight
    ensures Invariant(DoReply(s, r))
  {
    TakeKeeps(s, r);
    var f := s.frames[r];
    if s.boundary.router.overflowed {
      OverflowedReply(s, r);
      RetractKeeps(Taken(s, r), r, Retracting(f.port, f.attempt, true), f.subscription);
    } else {
      BufferedReply(s, r);
      TakenBuffer(s, r);
      OpenKeeps(Taken(s, r), r, f.port, f.subscription, s.boundary.router.Buffer(f.subscription));
    }
  }

  lemma TakenBuffer(s: System, r: RequestId)
    requires Invariant(s) && r in s.frames && s.frames[r].Answered? && !s.boundary.router.overflowed
    requires s.frames[r].port in s.boundary.ports
    ensures var x := s.frames[r].subscription; var buffered := s.boundary.router.Buffer(x);
      && buffered + Of(s.queue, x) == s.feeds[x].log
      && (forall i :: 0 <= i < |buffered| ==> buffered[i].subscription == x)
      && x !in Taken(s, r).boundary.router.pending && NotAwaited(Taken(s, r).frames, x)
  {
    CancelThenForget(s.boundary.router, s.frames[r].subscription, s.frames[r].port);
  }

  lemma FrameAdded(s: System, r: RequestId, frame: Frame)
    requires Invariant(s) && r !in s.frames && frame.PageCall? && frame.subscription in s.reached
    ensures var frames := s.frames[r := frame];
      && FramesKnown(frames, s.feeds, s.reached)
      && BuffersComplete(s.boundary.ports, s.boundary.router, frames, s.feeds, s.queue)
      && CountsMatch(s.boundary.ports, s.boundary.router, frames)
  {
    CountSame(s.boundary, s.frames, s.frames[r := frame], r);
  }

  lemma PageUnsubscribeKeeps(s: System, r: RequestId, port: Port, x: Subscription)
    requires Invariant(s) && r !in s.frames && port in s.boundary.sent
    requires x in s.boundary.router.owners && s.boundary.router.owners[x] == port
    ensures Invariant(s.(boundary := s.boundary.(unsubscribing := s.boundary.unsubscribing + {x}),
                         frames := s.frames[r := PageCall(port, x)]))
  {
    FrameAdded(s, r, PageCall(port, x));
  }

  lemma ReleaseKeeps(s: System, x: Subscription)
    requires Invariant(s) && x in s.reached && x in s.boundary.unsubscribing
    ensures Invariant(s.(boundary := s.boundary.(router := s.boundary.router.Release(x))))
  {
    ReleaseKeepsSound(s.boundary.router, x);
  }

  // ---- every run ----

  lemma RetractedKeeps(s: System, r: RequestId, ok: bool)
    requires Invariant(s) && r in s.frames && s.frames[r].Retracting?
    ensures Invariant(Do(s, Retracted(r, ok)))
  {
    hide InvariantFor;
    FrameKnown(s, r);
    var f := s.frames[r];
    var (b, next) := s.boundary.Unsubscribed(r, f.port, f.attempt, f.retry, ok);
    if next.CallSubscribe? {
      BeginKeeps(s, r, f.port, f.attempt + 1);
    } else {
      DropFrameKeeps(s, r);
      PostKeeps(s.(frames := s.frames - {r}), f.port, Err(r));
    }
  }

  lemma FailKeeps(s: System, r: RequestId)
    requires Invariant(s) && r in s.frames && (s.frames[r].Calling? || s.frames[r].Answered?)
    ensures Invariant(Do(s, Fail(r)))
  {
    hide InvariantFor;
    FrameKnown(s, r);
    var port := s.frames[r].port;
    CancelKeeps(s, r);
    var cancelled :=
      s.(boundary := s.boundary.(router := s.boundary.router.CancelPending(port)), frames := s.frames - {r});
    PostKeeps(cancelled, port, Err(r));
  }

  lemma PageUnsubscribedKeeps(s: System, r: RequestId, ok: bool)
    requires Invariant(s) && r in s.frames && s.frames[r].PageCall?
    ensures Invariant(Do(s, PageUnsubscribed(r, ok)))
  {
    hide InvariantFor;
    PageCallKnown(s, r);
    var f, dropped := s.frames[r], s.(frames := s.frames - {r});
    if ok {
      PageReleasedKeeps(dropped, r, f.port, f.subscription);
    } else {
      PostKeeps(dropped, f.port, Err(r));
    }
  }

  lemma PageCallKnown(s: System, r: RequestId)
    requires Invariant(s) && r in s.frames && s.frames[r].PageCall?
    ensures Invariant(s.(frames := s.frames - {r})) && s.frames[r].port in s.boundary.sent
    ensures s.frames[r].subscription in s.reached && s.frames[r].subscription in s.boundary.unsubscribing
  {
    DropFrameKeeps(s, r);
  }

  lemma PageReleasedKeeps(s: System, r: RequestId, port: Port, x: Subscription)
    requires Invariant(s) && port in s.boundary.sent && x in s.reached && x in s.boundary.unsubscribing
    ensures Invariant(s.(boundary := s.boundary.(router := s.boundary.router.Release(x)).Post(port, Done(r))))
  {
    ReleaseKeeps(s, x);
    PostKeeps(s.(boundary := s.boundary.(router := s.boundary.router.Release(x))), port, Done(r));
  }

  lemma SubscribeKeeps(s: System, r: RequestId, port: Port)
    requires Invariant(s) && r !in s.frames && port in s.boundary.sent
    ensures Invariant(Do(s, Subscribe(r, port)))
  {
    hide InvariantFor;
    if port in s.boundary.ports { BeginKeeps(s, r, port, 0); } else { assert s.frames - {r} == s.frames; }
  }

  lemma PageUnsubscribeStep(s: System, r: RequestId, port: Port, x: Subscription)
    requires Invariant(s) && r !in s.frames && port in s.boundary.sent
    ensures Invariant(Do(s, PageUnsubscribe(r, port, x)))
  {
    hide InvariantFor;
    if x in s.boundary.router.owners && s.boundary.router.owners[x] == port {
      PageUnsubscribeKeeps(s, r, port, x);
    } else {
      PostKeeps(s, port, Err(r));
    }
  }

  /** No step, enabled or not, breaks the invariant. */
  lemma StepKeeps(s: System, step: Step)
    requires Invariant(s)
    ensures Invariant(Do(s, step))
  {
    hide InvariantFor;
    PortsSent(s);
    match step
    case Connect(port) => if port !in s.boundary.sent { ConnectKeeps(s, port); }
    case Subscribe(r, port) => if r !in s.frames && port in s.boundary.sent { SubscribeKeeps(s, r, port); }
    case Create(r, x, snapshot) =>
      if r in s.frames && s.frames[r].Calling? && x !in s.feeds { CreateKeeps(s, r, x, snapshot); }
    case Emit(event) => if event.Other? { EmitOtherKeeps(s, event); } else { EmitTimelineKeeps(s, event); }
    case Deliver(count, deaf, broken) => if count <= |s.queue| { DeliverKeeps(s, count, deaf, broken); }
    case Reply(r) => if r in s.frames && s.frames[r].Answered? { ReplyKeeps(s, r); }
    case Fail(r) => if r in s.frames && (s.frames[r].Calling? || s.frames[r].Answered?) { FailKeeps(s, r); }
    case Retracted(r, ok) => if r in s.frames && s.frames[r].Retracting? { RetractedKeeps(s, r, ok); }
    case Close(port) => PortCloseKeeps(s, port);
    case PageUnsubscribe(r, port, x) =>
      if r !in s.frames && port in s.boundary.sent { PageUnsubscribeStep(s, r, port, x); }
    case PageUnsubscribed(r, ok) => if r in s.frames && s.frames[r].PageCall? { PageUnsubscribedKeeps(s, r, ok); }
  }

  lemma PortCloseKeeps(s: System, port: Port)
    requires Invariant(s)
    ensures Invariant(Do(s, Close(port)))
  {
    CloseKeeps(s, {port});
  }

  lemma {:induction false} RunKeeps(steps: seq<Step>)
    ensures Invariant(Run(steps))
    decreases |steps|
  {
    hide InvariantFor;
    if steps == [] {
      InitialHolds();
    } else {
      RunKeeps(steps[..|steps| - 1]);
      StepKeeps(Run(steps[..|steps| - 1]), steps[|steps| - 1]);
    }
  }

  lemma InitialHolds()
    ensures Invariant(Initial())
  {
  }

  // ---- what a page sees ----

  lemma {:induction false} DiffsConcat(a: seq<TimelineEvent>, b: seq<TimelineEvent>)
    ensures Diffs(a + b) == Diffs(a) + Diffs(b)
    decreases |b|
  {
    if b == [] {
      assert a + b == a;
    } else {
      assert (a + b)[..|a + b| - 1] == a + b[..|b| - 1];
      DiffsConcat(a, b[..|b| - 1]);
    }
  }

  lemma {:induction false} PrefixInRange(list: seq<string>, first: seq<Diff<string>>, second: seq<Diff<string>>)
    requires AllInRange(list, first + second)
    ensures AllInRange(list, first)
    decreases |first|
  {
    if first != [] {
      assert (first + second)[1..] == first[1..] + second;
      PrefixInRange(CoreApply(list, first[0]), first[1..], second);
    }
  }

  /** Folding the events one by one is replaying all their diffs. */
  lemma {:induction false} PageListFolds(snapshot: seq<string>, events: seq<TimelineEvent>)
    ensures PageList([Opened(snapshot)] + Gots(events)) == PageApplyAll(Lift(snapshot), Diffs(events))
    decreases |events|
  {
    var seen := [Opened(snapshot)] + Gots(events);
    if events != [] {
      var n := |events| - 1;
      assert seen[..|seen| - 1] == [Opened(snapshot)] + Gots(events[..n]);
      PageListFolds(snapshot, events[..n]);
      assert seen[|seen| - 1] == Got(events[n]);
      if events[n].TimelineDiff? {
        BatchesCompose(Lift(snapshot), Diffs(events[..n]), events[n].diffs);
      } else {
        assert Diffs(events) == Diffs(events[..n]);
      }
    }
  }

  /** A page's list is the core's list after the events it was posted, whatever it is missing. */
  lemma PageListFollows(seen: seq<Seen>, feed: Feed)
    requires SeesPrefix(seen, feed) && AllInRange(feed.snapshot, Diffs(feed.log))
    ensures AllInRange(feed.snapshot, Diffs(feed.log[..|seen| - 1]))
    ensures PageList(seen) == Lift(CoreList(feed, |seen| - 1))
  {
    var k := |seen| - 1;
    assert feed.log[..k] + feed.log[k..] == feed.log;
    DiffsConcat(feed.log[..k], feed.log[k..]);
    PrefixInRange(feed.snapshot, Diffs(feed.log[..k]), Diffs(feed.log[k..]));
    PageListFolds(feed.snapshot, feed.log[..k]);
    PageFollowsCore(feed.snapshot, Diffs(feed.log[..k]));
  }

  // ---- the theorems ----

  /** On every interleaving: what any port was ever posted about a subscription is nothing at all,
      unless the subscription was opened there; then it is the reply first and after it a prefix of
      the subscription's log, in order, without gap or repetition. */
  lemma {:induction false} EveryPageSeesAPrefix(steps: seq<Step>, port: Port, x: Subscription)
    ensures var s := Run(steps); var seen := SeenBy(s.boundary.sent, port, x);
      if x in s.homes && s.homes[x] == port then x in s.feeds && SeesPrefix(seen, s.feeds[x]) else seen == []
  {
    RunKeeps(steps);
  }

  /** What was posted and what is queued of a subscription are together its log. */
  ghost predicate Partitions(seen: seq<Seen>, feed: Feed, queued: seq<TimelineEvent>) {
    exists posted :: seen == [Opened(feed.snapshot)] + Gots(posted) && posted + queued == feed.log
  }

  lemma DeliveredPartitions(sent: Mail, owners: Owners, feeds: Feeds, queue: seq<CoreEvent>, x: Subscription)
    requires NothingLost(sent, owners, feeds, queue) && x in owners
    ensures x in feeds && Partitions(SeenBy(sent, owners[x], x), feeds[x], Of(queue, x))
  {
    hide SeenAll, Of, Gots;
    var n := Delivered(feeds[x], queue, x);
    assert feeds[x].log[..n] + feeds[x].log[n..] == feeds[x].log;
  }

  /** While a page owns the subscription nothing of its log is lost: it was posted, or is queued. */
  lemma {:induction false} OwnedPagesLoseNothing(steps: seq<Step>, x: Subscription)
    requires x in Run(steps).boundary.router.owners
    ensures var s := Run(steps);
      && x in s.feeds && s.boundary.router.owners[x] in s.boundary.ports
      && exists posted ::
           && SeenBy(s.boundary.sent, s.boundary.router.owners[x], x) == [Opened(s.feeds[x].snapshot)] + Gots(posted)
           && posted + Of(s.queue, x) == s.feeds[x].log
  {
    hide SeenBy, Of, Gots, Run, NothingLost, PagesFollow, BuffersComplete, CountsMatch, FramesKnown, FeedsValid,
        HomesKnown;
    RunKeeps(steps);
    var s := Run(steps);
    DeliveredPartitions(s.boundary.sent, s.boundary.router.owners, s.feeds, s.queue, x);
  }

  /** What the page makes of its messages is the core's list after as many events of the log. */
  ghost predicate ShowsCoreList(seen: seq<Seen>, feed: Feed) {
    && 1 <= |seen| <= |feed.log| + 1
    && AllInRange(feed.snapshot, Diffs(feed.log[..|seen| - 1]))
    && PageList(seen) == Lift(CoreList(feed, |seen| - 1))
  }

  lemma PrefixShowsCoreList(seen: seq<Seen>, feed: Feed)
    requires SeesPrefix(seen, feed) && AllInRange(feed.snapshot, Diffs(feed.log))
    ensures ShowsCoreList(seen, feed)
  {
    hide PageList, AllInRange, Diffs, CoreList;
    PageListFollows(seen, feed);
  }

  /** With nothing queued the page has seen the whole log. */
  lemma OwnerIsUpToDate(sent: Mail, owners: Owners, feeds: Feeds, queue: seq<CoreEvent>, x: Subscription)
    requires NothingLost(sent, owners, feeds, queue) && x in owners
    ensures x in feeds && (Of(queue, x) == [] ==> |SeenBy(sent, owners[x], x)| - 1 == |feeds[x].log|)
  {
    hide SeenAll, Of;
  }

  /** Folding `applyDiffs` over what a page was ever posted about a subscription it opened gives the
      core's list at that point of the log, also after an unsubscribe or a close; and for the owning
      page the core's present list once nothing of the subscription is queued. */
  lemma {:induction false} PageListEqualsCoreList(steps: seq<Step>, x: Subscription)
    requires x in Run(steps).homes
    ensures var s := Run(steps); var seen := SeenBy(s.boundary.sent, s.homes[x], x);
      && x in s.feeds && ShowsCoreList(seen, s.feeds[x])
      && (x in s.boundary.router.owners && Of(s.queue, x) == [] ==> |seen| - 1 == |s.feeds[x].log|)
  {
    hide SeenBy, Of, Run, ShowsCoreList, SeesPrefix, NothingLost, BuffersComplete, CountsMatch, FramesKnown;
    hide AllInRange, Diffs;
    RunKeeps(steps);
    var s := Run(steps);
    if x in s.boundary.router.owners {
      OwnerIsUpToDate(s.boundary.sent, s.boundary.router.owners, s.feeds, s.queue, x);
    }
    PrefixShowsCoreList(SeenBy(s.boundary.sent, s.homes[x], x), s.feeds[x]);
  }

  /** The page that owns a subscription opened it. */
  lemma {:induction false} OwnersAreHomes(steps: seq<Step>, x: Subscription)
    requires x in Run(steps).boundary.router.owners
    ensures x in Run(steps).homes && Run(steps).homes[x] == Run(steps).boundary.router.owners[x]
  {
    hide Run, NothingLost, BuffersComplete, CountsMatch, FramesKnown, PagesFollow;
    RunKeeps(steps);
  }

  /** Bookkeeping on every interleaving: an open port's count is its subscribe calls in flight,
      closed ports own nothing and are pending nowhere, no subscription leaks, and the buffers stay
      within the limit and are gone once no subscribe is in flight. */
  lemma {:induction false} NothingLeaks(steps: seq<Step>)
    ensures var s := Run(steps); var router := s.boundary.router;
      && (forall p :: p in s.boundary.ports ==> router.InFlight(p) == |Waiting(s.frames, p)|)
      && (forall p :: p !in s.boundary.ports ==> p !in router.inFlight && p !in router.owners.Values)
      && (forall x :: x in s.reached ==>
            (x in router.owners && router.owners[x] in s.boundary.ports) || x in s.boundary.unsubscribing)
      && Total(router.pending) <= MAX_PENDING_EVENTS
      && (router.inFlight == map[] ==> router.pending == map[] && !router.overflowed)
  {
    RunKeeps(steps);
  }
}
