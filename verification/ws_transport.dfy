/** The websocket transport against the server that replays what a dropped socket missed. */
module WsTransport {
  import opened Options

  type Event(==, !new)
  type Value(==, !new)

  datatype Result = Ok(value: Value) | Failed(error: string)

  datatype Frame =
    | Hello(run: nat)
    | Reset
    | Event(run: nat, index: nat, event: Event)
    | Reply(id: nat, result: Result)
  {
    function Number(): nat { if Event? then index else 0 }
  }

  /** The page's side. `armed` is the stall timer, `heard` what the listeners were given, `reloads`
      how often a reload was asked for. */
  datatype Transport = Transport(
    pending: set<nat>,
    settled: map<nat, Result>,
    nextId: nat,
    closed: bool,
    stalled: bool,
    armed: bool,
    runId: Option<nat>,
    last: nat,
    heard: seq<Frame>,
    reloads: nat)
  {
    function RejectPending(error: string): Transport {
      this.(pending := {}, settled := settled + Rejections(pending, error), armed := false, stalled := false)
    }

    function Handle(frame: Frame): Transport {
      match frame
      case Hello(run) => this.(runId := Some(run))
      case Reset => this.(reloads := reloads + 1)
      case Event(_, n, _) => if n <= last then this else this.(last := n, heard := heard + [frame])
      case Reply(id, result) =>
        if id !in pending then this
        else
          this.(pending := pending - {id}, settled := settled[id := result],
                armed := armed && pending != {id}, stalled := false)
    }

    function Request(): Transport {
      if closed then this else this.(nextId := nextId + 1, pending := pending + {nextId}, armed := true)
    }

    function StallFires(): Transport { this.(armed := false, stalled := true) }

    function Close(): Transport {
      if closed then this else RejectPending("transport closed").(closed := true)
    }
  }

  function Rejections(ids: set<nat>, error: string): map<nat, Result> { map id | id in ids :: Failed(error) }

  function Created(): Transport { Transport({}, map[], 1, false, false, false, None, 0, [], 0) }

  class WebSocketTransport {
    var pending: set<nat>
    var settled: map<nat, Result>
    var nextId: nat
    var closed: bool
    var stalled: bool
    var armed: bool
    var runId: Option<nat>
    var lastReceivedEvent: nat
    var heard: seq<Frame>
    var reloads: nat

    function State(): Transport
      reads this
    {
      Transport(pending, settled, nextId, closed, stalled, armed, runId, lastReceivedEvent, heard, reloads)
    }

    constructor ()
      ensures State() == Created()
    {
      pending, settled, nextId, closed, stalled, armed := {}, map[], 1, false, false, false;
      runId, lastReceivedEvent, heard, reloads := None, 0, [], 0;
    }

    method HandleMessage(frame: Frame)
      modifies this
      ensures State() == old(State()).Handle(frame)
    {
      match frame
      case Hello(run) => runId := Some(run);
      case Reset => reloads := reloads + 1;
      case Event(_, n, _) =>
        if n <= lastReceivedEvent { return; }
        lastReceivedEvent := n;
        heard := heard + [frame];
      case Reply(id, result) =>
        if id !in pending { return; }
        pending := pending - {id};
        if pending == {} && armed { armed := false; }
        stalled := false;
        settled := settled[id := result];
    }

    method RejectPending(error: string)
      modifies this`pending, this`settled, this`armed, this`stalled
      ensures State() == old(State()).RejectPending(error)
    {
      var rest := pending;
      while rest != {}
        modifies this`settled
        invariant rest <= pending
        invariant settled == old(settled) + Rejections(pending - rest, error)
      {
        var id :| id in rest;
        rest := rest - {id};
        settled := settled[id := Failed(error)];
      }
      assert pending - rest == pending;
      pending, armed, stalled := {}, false, false;
    }

    method OnOpen()
      modifies this`stalled
      ensures State() == old(State()).(stalled := false)
    {
      stalled := false;
    }

    method OnClose()
      modifies this`pending, this`settled, this`armed, this`stalled
      ensures State() == old(State()).RejectPending("websocket closed")
    {
      RejectPending("websocket closed");
    }

    /** The id to send the request under; a closed transport rejects it instead. */
    method Request() returns (id: Option<nat>)
      modifies this`pending, this`nextId, this`armed
      ensures State() == old(State()).Request()
      ensures id == if old(closed) then None else Some(old(nextId))
    {
      if closed { return None; }
      id := Some(nextId);
      nextId := nextId + 1;
      pending := pending + {id.value};
      if !armed { armed := true; }
    }

    method OnStallTimer()
      modifies this`armed, this`stalled
      ensures State() == old(State()).StallFires()
    {
      armed, stalled := false, true;
    }

    method Close()
      modifies this
      ensures State() == old(State()).Close()
    {
      if closed { return; }
      closed, armed := true, false;
      RejectPending("transport closed");
    }
  }

  // ---- the server ----

  const EVENT_BUFFER: nat := 256

  /** A connection: the run it was opened to, the frames on their way, the events already forwarded. */
  datatype Wire = Wire(run: nat, frames: seq<Frame>, cursor: nat, ended: bool)

  /** `logs` holds what each run of the server published; the last run is the one that serves. */
  datatype Net = Net(transport: Transport, logs: seq<seq<Event>>, wire: Option<Wire>)

  datatype Step =
    | Publish(event: Event)
    | Restart
    | Connect
    | Forward
    | Answer(id: nat, result: Result)
    | Receive
    | Drop
    | Ask
    | Stall
    | CloseTransport

  function Initial(): Net { Net(Created(), [[]], None) }

  function Numbered(run: nat, log: seq<Event>, from: nat): seq<Frame>
    requires from <= |log|
  {
    seq(|log| - from, i requires 0 <= i < |log| - from => Event(run, from + i + 1, log[from + i]))
  }

  /** The first number the bounded buffer still holds. */
  function First(log: seq<Event>): nat {
    if |log| <= EVENT_BUFFER then 1 else |log| - EVENT_BUFFER + 1
  }

  /** What the server says first: a client that heard nothing names nothing and gets no replay. */
  function Greeting(t: Transport, run: nat, log: seq<Event>): seq<Frame> {
    [Hello(run)] +
    if t.last == 0 then []
    else if t.runId != Some(run) then [Reset]
    else if log == [] then []
    else if t.last + 1 < First(log) then [Reset]
    else Numbered(run, log, if t.last <= |log| then t.last else |log|)
  }

  function Log(net: Net): seq<Event>
    requires net.logs != []
  {
    net.logs[|net.logs| - 1]
  }

  function Disconnected(net: Net): Net {
    if net.wire.None? then net else net.(wire := None, transport := net.transport.RejectPending("websocket closed"))
  }

  function Do(net: Net, step: Step): Net
    requires net.logs != []
  {
    var t := net.transport;
    match step
    case Publish(event) => net.(logs := net.logs[|net.logs| - 1 := Log(net) + [event]])
    case Restart => Disconnected(net).(logs := net.logs + [[]])
    case Connect =>
      if net.wire.Some? || t.closed then net
      else
        net.(wire := Some(Wire(|net.logs| - 1, Greeting(t, |net.logs| - 1, Log(net)), |Log(net)|, false)),
             transport := t.(stalled := false))
    case Forward =>
      if net.wire.None? || net.wire.value.ended || net.wire.value.cursor >= |Log(net)| then net
      else
        var w := net.wire.value;
        if |Log(net)| - w.cursor > EVENT_BUFFER then net.(wire := Some(w.(frames := w.frames + [Reset], ended := true)))
        else
          var next := Event(w.run, w.cursor + 1, Log(net)[w.cursor]);
          net.(wire := Some(w.(frames := w.frames + [next], cursor := w.cursor + 1)))
    case Answer(id, result) =>
      if net.wire.None? || net.wire.value.ended then net
      else net.(wire := Some(net.wire.value.(frames := net.wire.value.frames + [Reply(id, result)])))
    case Receive =>
      if net.wire.None? || net.wire.value.frames == [] then net
      else
        net.(transport := t.Handle(net.wire.value.frames[0]),
             wire := Some(net.wire.value.(frames := net.wire.value.frames[1..])))
    case Drop => if t.closed then net else net.(wire := None, transport := t.RejectPending("websocket closed"))
    case Ask => net.(transport := t.Request())
    case Stall => if t.armed then net.(transport := t.StallFires()) else net
    case CloseTransport => net.(transport := t.Close(), wire := None)
  }

  function Run(steps: seq<Step>): (net: Net)
    ensures net.logs != []
  {
    if steps == [] then Initial() else Do(Run(steps[..|steps| - 1]), steps[|steps| - 1])
  }

  // ---- requests ----

  /** Every id handed out is pending or settled, never both, and a running stall watch has a request. */
  ghost predicate Accounted(t: Transport) {
    && t.nextId >= 1 && t.pending !! t.settled.Keys
    && (forall id :: id in t.pending || id in t.settled <==> 1 <= id < t.nextId)
    && (t.armed || t.stalled ==> t.pending != {})
    && (t.closed ==> t.pending == {})
  }

  lemma StepAccounts(net: Net, step: Step)
    requires net.logs != [] && Accounted(net.transport)
    ensures var t, after := net.transport, Do(net, step).transport;
      && Accounted(after)
      && t.nextId <= after.nextId
      && (forall id :: id in t.settled ==> id in after.settled && after.settled[id] == t.settled[id])
      && (forall id :: id in after.settled && id !in t.settled ==> id in t.pending)
  {
    var t := net.transport;
    if step.Ask? && !t.closed { assert t.nextId in t.Request().pending; }
  }

  /** Each request is settled once or still pending, and what settled it is never replaced. */
  lemma {:induction false} RequestsSettleOnce(steps: seq<Step>, more: seq<Step>)
    ensures Accounted(Run(steps + more).transport)
    ensures forall id :: id in Run(steps).transport.settled ==>
      id in Run(steps + more).transport.settled
        && Run(steps + more).transport.settled[id] == Run(steps).transport.settled[id]
    decreases |steps| + |more|
  {
    if more == [] {
      assert steps + more == steps;
      if steps != [] {
        var n := |steps| - 1;
        RequestsSettleOnce(steps[..n], []);
        assert steps[..n] + [] == steps[..n];
        StepAccounts(Run(steps[..n]), steps[n]);
      }
    } else {
      var n := |more| - 1;
      assert (steps + more)[..|steps + more| - 1] == steps + more[..n];
      RequestsSettleOnce(steps, more[..n]);
      StepAccounts(Run(steps + more[..n]), more[n]);
    }
  }

  predicate Given(steps: seq<Step>, id: nat, result: Result) {
    || Answer(id, result) in steps
    || result == Failed("websocket closed") || result == Failed("transport closed")
  }

  ghost predicate RepliesGiven(net: Net, steps: seq<Step>) {
    && (forall id :: id in net.transport.settled ==> Given(steps, id, net.transport.settled[id]))
    && (net.wire.Some? ==>
          forall i :: 0 <= i < |net.wire.value.frames| && net.wire.value.frames[i].Reply? ==>
            Answer(net.wire.value.frames[i].id, net.wire.value.frames[i].result) in steps)
  }

  lemma {:induction false} StepKeepsGiven(net: Net, steps: seq<Step>, step: Step)
    requires net.logs != [] && RepliesGiven(net, steps)
    ensures RepliesGiven(Do(net, step), steps + [step])
  {
    var longer := steps + [step];
    assert step in longer && forall other :: other in steps ==> other in longer;
    if step.Connect? { GreetingAnswersNothing(net.transport, |net.logs| - 1, Log(net)); }
  }

  lemma {:induction false} GreetingAnswersNothing(t: Transport, run: nat, log: seq<Event>)
    ensures forall i :: 0 <= i < |Greeting(t, run, log)| ==> !Greeting(t, run, log)[i].Reply?
  {
  }

  /** A settled request got what the server answered under its id, or the end of a connection. */
  lemma {:induction false} RepliesSettleTheirOwn(steps: seq<Step>)
    ensures RepliesGiven(Run(steps), steps)
    decreases |steps|
  {
    if steps != [] {
      var before, step := steps[..|steps| - 1], steps[|steps| - 1];
      RepliesSettleTheirOwn(before);
      StepKeepsGiven(Run(before), before, step);
      assert before + [step] == steps;
    }
  }

  /** The server's reply to the request is the next frame to arrive. */
  predicate Answers(net: Net, step: Step, id: nat) {
    && step.Receive? && net.wire.Some? && net.wire.value.frames != []
    && net.wire.value.frames[0].Reply? && net.wire.value.frames[0].id == id
  }

  /** The connection of an open transport ends. */
  predicate Cuts(net: Net, step: Step) {
    || (step.Drop? && !net.transport.closed) || (step.Restart? && net.wire.Some?)
    || (step.CloseTransport? && !net.transport.closed)
  }

  /** A pending request is settled exactly when its reply arrives, with what the reply says, or its
      connection ends, with an error. A reply leaves the others pending, and the stall timer running
      for them if it was. */
  lemma {:induction false} SettlesExactlyWhen(steps: seq<Step>, step: Step, id: nat)
    requires id in Run(steps).transport.pending
    ensures var net, t, after := Run(steps), Run(steps).transport, Run(steps + [step]).transport;
      && (id in after.pending <==> !Answers(net, step, id) && !Cuts(net, step))
      && (Answers(net, step, id) ==>
            && after.settled == t.settled[id := net.wire.value.frames[0].result] && after.pending == t.pending - {id}
            && (after.armed <==> t.armed && after.pending != {}) && !after.stalled)
      && (Cuts(net, step) ==>
            && after.pending == {} && id in after.settled
            && after.settled[id] == Failed(if step.CloseTransport? then "transport closed" else "websocket closed"))
  {
    RequestsAccounted(steps);
    assert (steps + [step])[..|steps|] == steps;
  }

  /** A request of an open transport is pending under the next id and watched; when the timer fires
      with nothing received the stall is raised, and nothing is settled. */
  lemma {:induction false} SilenceStalls(steps: seq<Step>)
    requires !Run(steps).transport.closed
    ensures var t, asked := Run(steps).transport, Run(steps + [Ask]).transport;
      var stalled := Run(steps + [Ask] + [Stall]).transport;
      && t.nextId !in t.pending && asked.pending == t.pending + {t.nextId} && asked.nextId == t.nextId + 1
      && asked.armed && asked.settled == t.settled
      && stalled.stalled && !stalled.armed && stalled.pending == asked.pending && stalled.settled == t.settled
  {
    RequestsAccounted(steps);
    assert (steps + [Ask])[..|steps|] == steps;
    assert (steps + [Ask] + [Stall])[..|steps| + 1] == steps + [Ask];
  }

  /** Some pending request would still raise a stall. */
  predicate Watched(t: Transport) { t.pending != {} ==> t.armed || t.stalled }

  /** A reply ends the stall of the others too, and so does a new connection. */
  predicate Unwatches(net: Net, step: Step) {
    && !net.transport.armed
    && ((step.Connect? && net.wire.None? && !net.transport.closed && net.transport.pending != {})
        || (step.Receive? && net.wire.Some? && net.wire.value.frames != [] && net.wire.value.frames[0].Reply?
            && net.wire.value.frames[0].id in net.transport.pending
              && net.transport.pending != {net.wire.value.frames[0].id}))
  }

  lemma StepUnwatchesExactlyWhen(net: Net, step: Step)
    requires net.logs != [] && Accounted(net.transport) && Watched(net.transport)
    ensures Watched(Do(net, step).transport) <==> !Unwatches(net, step)
  {
  }

  /** A new request is watched, and the others with it; or nothing is left to watch. */
  predicate Rewatches(net: Net, step: Step) {
    || (step.Ask? && !net.transport.closed)
    || (step.Drop? && !net.transport.closed) || (step.Restart? && net.wire.Some?)
    || (step.CloseTransport? && !net.transport.closed)
    || (step.Receive? && net.wire.Some? && net.wire.value.frames != [] && net.wire.value.frames[0].Reply?
        && net.transport.pending == {net.wire.value.frames[0].id})
  }

  lemma StepRewatchesExactlyWhen(net: Net, step: Step)
    requires net.logs != [] && Accounted(net.transport) && !Watched(net.transport)
    ensures Watched(Do(net, step).transport) <==> Rewatches(net, step)
  {
  }

  /** The last step to end or start the watch ended it. */
  predicate Unwatched(steps: seq<Step>) {
    steps != [] &&
      var net, step := Run(steps[..|steps| - 1]), steps[|steps| - 1];
      if Unwatched(steps[..|steps| - 1]) then !Rewatches(net, step) else Unwatches(net, step)
  }

  /** Over every run pending requests are watched exactly unless a stall ended under them, with no
      request since. */
  lemma {:induction false} WatchedExactlyWhen(steps: seq<Step>)
    ensures Watched(Run(steps).transport) <==> !Unwatched(steps)
    decreases |steps|
  {
    if steps != [] {
      hide Do, Unwatches, Rewatches, Accounted, Watched;
      var net, step := Run(steps[..|steps| - 1]), steps[|steps| - 1];
      WatchedExactlyWhen(steps[..|steps| - 1]);
      RequestsAccounted(steps[..|steps| - 1]);
      if Watched(net.transport) { StepUnwatchesExactlyWhen(net, step); } else { StepRewatchesExactlyWhen(net, step); }
    } else { assert Watched(Created()); }
  }

  lemma {:induction false} RequestsAccounted(steps: seq<Step>)
    ensures Accounted(Run(steps).transport)
  {
    RequestsSettleOnce(steps, []);
    assert steps + [] == steps;
  }

  // ---- numbers never go back ----

  ghost predicate Rising(t: Transport) {
    && (t.heard == [] ==> t.last == 0)
    && (t.heard != [] ==> t.last == t.heard[|t.heard| - 1].Number())
    && (forall i :: 0 <= i < |t.heard| ==> t.heard[i].Event?)
    && (forall i, j :: 0 <= i < j < |t.heard| ==> t.heard[i].Number() < t.heard[j].Number())
  }

  lemma HandleRises(t: Transport, frame: Frame)
    requires Rising(t)
    ensures Rising(t.Handle(frame))
  {
  }

  lemma StepRises(net: Net, step: Step)
    requires net.logs != [] && Rising(net.transport)
    ensures Rising(Do(net, step).transport)
  {
    hide Transport.Handle;
    if step.Receive? && net.wire.Some? && net.wire.value.frames != [] {
      HandleRises(net.transport, net.wire.value.frames[0]);
    }
  }

  /** Over any number of drops, reconnects and restarts, what listeners are given only counts up. */
  lemma {:induction false} NumbersRise(steps: seq<Step>)
    ensures Rising(Run(steps).transport)
    decreases |steps|
  {
    if steps != [] {
      NumbersRise(steps[..|steps| - 1]);
      StepRises(Run(steps[..|steps| - 1]), steps[|steps| - 1]);
    }
  }

  // ---- and nothing is missed ----

  /** The events a client will handle before a reset. */
  function Upcoming(frames: seq<Frame>): seq<Frame> {
    if frames == [] || frames[0].Reset? then []
    else (if frames[0].Event? then [frames[0]] else []) + Upcoming(frames[1..])
  }

  lemma {:induction false} UpcomingAppended(frames: seq<Frame>, frame: Frame)
    ensures Upcoming(frames + [frame]) == Upcoming(frames) + if Reset !in frames && frame.Event? then [frame] else []
    decreases |frames|
  {
    if frames == [] {
      assert [frame][1..] == [];
    } else {
      assert (frames + [frame])[1..] == frames[1..] + [frame];
      UpcomingAppended(frames[1..], frame);
      assert Reset in frames <==> frames[0].Reset? || Reset in frames[1..];
    }
  }

  lemma {:induction false} UpcomingOfEvents(frames: seq<Frame>)
    requires forall i :: 0 <= i < |frames| ==> frames[i].Event?
    ensures Upcoming(frames) == frames
    decreases |frames|
  {
    if frames != [] { UpcomingOfEvents(frames[1..]); }
  }

  /** The frames are consecutive events of one run of the server, as it published them. */
  ghost predicate Consecutive(logs: seq<seq<Event>>, frames: seq<Frame>) {
    forall i :: 0 <= i < |frames| ==> Follows(logs, frames, i)
  }

  ghost predicate Follows(logs: seq<seq<Event>>, frames: seq<Frame>, i: nat)
    requires i < |frames|
  {
    && frames[0].Event? && frames[i].Event?
    && frames[i].run == frames[0].run < |logs| && frames[i].Number() == frames[0].Number() + i
    && 1 <= frames[i].Number() <= |logs[frames[i].run]|
    && frames[i].event == logs[frames[i].run][frames[i].Number() - 1]
  }

  function Frames(net: Net): seq<Frame> { if net.wire.Some? then net.wire.value.frames else [] }

  function Coming(net: Net): seq<Frame> { net.transport.heard + Upcoming(Frames(net)) }

  /** Until a reset, what was heard and what is on its way run up to what the connection forwarded. */
  ghost predicate InOrder(net: Net) {
    var known := Coming(net);
    && Consecutive(net.logs, known)
    && (net.wire.Some? && Reset !in net.wire.value.frames && known != [] ==>
          && known[|known| - 1].Event? && known[|known| - 1].run == net.wire.value.run
          && known[|known| - 1].Number() == net.wire.value.cursor)
  }

  ghost predicate WireFits(net: Net) {
    net.wire.Some? ==>
      && net.logs != [] && net.wire.value.run == |net.logs| - 1
      && net.wire.value.cursor <= |net.logs[|net.logs| - 1]|
      && (net.wire.value.ended && net.transport.reloads == 0 ==> Reset in net.wire.value.frames)
  }

  ghost predicate Invariant(net: Net) {
    net.logs != [] && Rising(net.transport) && WireFits(net) && (net.transport.reloads == 0 ==> InOrder(net))
  }

  /** The run the client names is the run of what it heard last. */
  predicate Named(t: Transport) {
    t.heard == [] || (t.heard[|t.heard| - 1].Event? && t.runId == Some(t.heard[|t.heard| - 1].run))
  }

  lemma {:induction false} PrefixConsecutive(logs: seq<seq<Event>>, a: seq<Frame>, b: seq<Frame>)
    requires Consecutive(logs, a + b)
    ensures Consecutive(logs, a)
  {
    forall i | 0 <= i < |a| ensures Follows(logs, a, i) { assert Follows(logs, a + b, i); }
  }

  /** The next event on the way is the next in number, so it is taken. */
  lemma NextIsNewer(net: Net)
    requires Invariant(net) && net.transport.reloads == 0
    requires net.wire.Some? && net.wire.value.frames != [] && net.wire.value.frames[0].Event?
    ensures net.wire.value.frames[0].Number() > net.transport.last
  {
    hide WireFits;
    var t, known := net.transport, Coming(net);
    assert known[|t.heard|] == net.wire.value.frames[0];
    assert Follows(net.logs, known, |t.heard|);
    if t.heard != [] { assert Follows(net.logs, known, |t.heard| - 1); }
  }

  /** Frames may move from the wire to the listeners, and others be added behind a reset. */
  lemma SameComing(net: Net, after: Net)
    requires InOrder(net) && Coming(after) == Coming(net) && after.logs == net.logs
    requires net.wire.Some? && after.wire.Some? && after.wire.value.run == net.wire.value.run
    requires Reset in after.wire.value.frames
      || (Reset !in net.wire.value.frames && after.wire.value.cursor == net.wire.value.cursor)
    ensures InOrder(after)
  {
    hide Coming, Consecutive;
  }

  lemma ReceiveKeeps(net: Net)
    requires Invariant(net) && Do(net, Receive).transport.reloads == 0
    ensures InOrder(Do(net, Receive))
  {
    hide WireFits, Rising, InOrder, Coming;
    if net.wire.Some? && net.wire.value.frames != [] {
      if net.wire.value.frames[0].Event? { NextIsNewer(net); }
      ReceivedComing(net);
      SameComing(net, Do(net, Receive));
    }
  }

  lemma ReceivedComing(net: Net)
    requires net.logs != [] && net.wire.Some? && net.wire.value.frames != [] && !net.wire.value.frames[0].Reset?
    requires net.wire.value.frames[0].Event? ==> net.wire.value.frames[0].Number() > net.transport.last
    ensures Coming(Do(net, Receive)) == Coming(net)
  {
    hide Upcoming;
    UpcomingFirst(net.transport.heard, net.wire.value.frames);
  }

  lemma UpcomingFirst(heard: seq<Frame>, frames: seq<Frame>)
    requires frames != [] && !frames[0].Reset?
    ensures heard + Upcoming(frames)
         == (if frames[0].Event? then heard + [frames[0]] else heard) + Upcoming(frames[1..])
  {
    UpcomingUnfolds(frames);
    hide Upcoming;
    if frames[0].Event? { Regrouped(heard, [frames[0]], Upcoming(frames[1..])); }
  }

  lemma UpcomingUnfolds(frames: seq<Frame>)
    requires frames != [] && !frames[0].Reset?
    ensures Upcoming(frames) == if frames[0].Event? then [frames[0]] + Upcoming(frames[1..]) else Upcoming(frames[1..])
  {
  }

  lemma Regrouped(a: seq<Frame>, b: seq<Frame>, c: seq<Frame>)
    ensures (a + b) + c == a + (b + c)
  {
  }

  lemma {:induction false} Extended(logs: seq<seq<Event>>, known: seq<Frame>, frame: Frame)
    requires Consecutive(logs, known) && Follows(logs, [frame], 0)
    requires known != [] ==> (known[|known| - 1].Event? && known[|known| - 1].run == frame.run
                              && frame.Number() == known[|known| - 1].Number() + 1)
    ensures Consecutive(logs, known + [frame])
  {
    if known != [] { assert Follows(logs, known, |known| - 1); }
    forall i | 0 <= i < |known| ensures Follows(logs, known + [frame], i) { assert Follows(logs, known, i); }
  }

  lemma ForwardKeeps(net: Net)
    requires Invariant(net) && net.transport.reloads == 0
    ensures InOrder(Do(net, Forward))
  {
    hide InOrder, Rising, Upcoming;
    if net.wire.Some? && !net.wire.value.ended && net.wire.value.cursor < |Log(net)| {
      var w, after := net.wire.value, Do(net, Forward);
      if |Log(net)| - w.cursor > EVENT_BUFFER {
        UpcomingAppended(w.frames, Reset);
        assert Reset in after.wire.value.frames;
        SameComing(net, after);
      } else {
        ForwardedKeeps(net, after, Event(w.run, w.cursor + 1, Log(net)[w.cursor]));
      }
    }
  }

  lemma ForwardedKeeps(net: Net, after: Net, frame: Frame)
    requires Invariant(net) && net.transport.reloads == 0 && net.wire.Some? && net.wire.value.cursor < |Log(net)|
    requires frame == Event(net.wire.value.run, net.wire.value.cursor + 1, Log(net)[net.wire.value.cursor])
    requires var w := net.wire.value;
      after == net.(wire := Some(w.(frames := w.frames + [frame], cursor := w.cursor + 1)))
    ensures InOrder(after)
  {
    hide Rising, Upcoming, Consecutive;
    var known := Coming(net);
    UpcomingAppended(net.wire.value.frames, frame);
    if Reset in net.wire.value.frames {
      assert Reset in after.wire.value.frames;
      SameComing(net, after);
    } else {
      Extended(net.logs, known, frame);
      assert Coming(after) == known + [frame];
    }
  }

  lemma AnswerKeeps(net: Net, id: nat, result: Result)
    requires Invariant(net) && net.transport.reloads == 0
    ensures InOrder(Do(net, Answer(id, result)))
  {
    hide InOrder, Rising, Upcoming;
    if net.wire.Some? {
      UpcomingAppended(net.wire.value.frames, Reply(id, result));
      assert Reset in net.wire.value.frames ==> Reset in (net.wire.value.frames + [Reply(id, result)]);
      SameComing(net, Do(net, Answer(id, result)));
    }
  }

  lemma {:induction false} LogsGrow(logs: seq<seq<Event>>, longer: seq<seq<Event>>, known: seq<Frame>)
    requires Consecutive(logs, known) && |logs| <= |longer|
    requires forall run :: 0 <= run < |logs| ==> logs[run] <= longer[run]
    ensures Consecutive(longer, known)
  {
    forall i | 0 <= i < |known| ensures Follows(longer, known, i) { assert Follows(logs, known, i); }
  }

  /** A connection resumes in order exactly when the client names the run it last heard, heard nothing
      yet, or is told to reset. */
  lemma ResumesExactlyWhen(net: Net)
    requires Invariant(net) && net.transport.reloads == 0 && net.wire.None? && !net.transport.closed
    ensures InOrder(Do(net, Connect)) <==>
      Named(net.transport) || Reset in Greeting(net.transport, |net.logs| - 1, Log(net))
  {
    hide Greeting, Upcoming, WireFits, Rising;
    var t, run, log := net.transport, |net.logs| - 1, Log(net);
    UpcomingGreeting(t, run, log);
    NothingComing(net);
    if t.heard == [] || Reset in Greeting(t, run, log) {
      LastIsZero(t);
      assert Coming(Do(net, Connect)) == t.heard;
    } else {
      LastIsZero(t);
      assert Follows(net.logs, t.heard, |t.heard| - 1);
      ReplayInOrder(net);
    }
  }

  lemma NothingComing(net: Net)
    requires net.wire.None?
    ensures Coming(net) == net.transport.heard
  {
  }

  lemma LastIsZero(t: Transport)
    requires Rising(t)
    ensures t.heard == [] ==> t.last == 0
    ensures t.heard != [] ==> t.last == t.heard[|t.heard| - 1].Number()
  {
  }

  lemma ReplayInOrder(net: Net)
    requires net.logs != [] && Consecutive(net.logs, net.transport.heard) && net.transport.heard != []
    requires var t := net.transport; t.last == t.heard[|t.heard| - 1].Number() && t.last != 0
    requires net.wire.None? && !net.transport.closed
    requires Reset !in Greeting(net.transport, |net.logs| - 1, Log(net))
    ensures InOrder(Do(net, Connect)) <==> Named(net.transport)
  {
    hide Greeting, Upcoming;
    var t, run, log, after := net.transport, |net.logs| - 1, Log(net), Do(net, Connect);
    var n := |t.heard|;
    UpcomingGreeting(t, run, log);
    assert Follows(net.logs, t.heard, n - 1);
    var replay := Numbered(run, log, if t.last <= |log| then t.last else |log|);
    assert Coming(after) == t.heard + replay;
    if Named(t) { ReplayFollows(net.logs, t.heard, run); }
    else if replay != [] && Consecutive(net.logs, t.heard + replay) { SameRun(net.logs, t.heard + replay, n - 1, n); }
  }

  lemma {:induction false} SameRun(logs: seq<seq<Event>>, frames: seq<Frame>, i: nat, j: nat)
    requires Consecutive(logs, frames) && i < |frames| && j < |frames|
    ensures frames[i].Event? && frames[j].Event? && frames[i].run == frames[j].run
  {
    assert Follows(logs, frames, i) && Follows(logs, frames, j);
  }

  lemma {:induction false} UpcomingGreeting(t: Transport, run: nat, log: seq<Event>)
    ensures var greeting := Greeting(t, run, log);
      && (Reset in greeting ==> Upcoming(greeting) == [])
      && (t.last == 0 ==> Upcoming(greeting) == [])
      && (t.last != 0 && Reset !in greeting ==>
            t.runId == Some(run) && Upcoming(greeting) == Numbered(run, log, if t.last <= |log| then t.last else |log|))
  {
    var greeting := Greeting(t, run, log);
    var replay := Numbered(run, log, if t.last <= |log| then t.last else |log|);
    UpcomingOfEvents(replay);
    assert greeting[1..] == [] || greeting[1..] == [Reset] || greeting[1..] == replay;
    assert greeting == [Hello(run)] + greeting[1..];
    assert Reset !in replay;
  }

  lemma {:induction false} ReplayFollows(logs: seq<seq<Event>>, heard: seq<Frame>, run: nat)
    requires Consecutive(logs, heard) && heard != [] && run < |logs|
    requires heard[|heard| - 1].Event? && heard[|heard| - 1].run == run
    ensures heard[|heard| - 1].Number() <= |logs[run]|
    ensures Consecutive(logs, heard + Numbered(run, logs[run], heard[|heard| - 1].Number()))
  {
    assert Follows(logs, heard, |heard| - 1);
    var replay := Numbered(run, logs[run], heard[|heard| - 1].Number());
    forall i | 0 <= i < |heard + replay| ensures Follows(logs, heard + replay, i) {
      if i < |heard| { assert Follows(logs, heard, i); }
    }
  }

  ghost predicate Resumes(net: Net, step: Step)
    requires net.logs != []
  {
    step.Connect? && net.wire.None? && !net.transport.closed && net.transport.reloads == 0 ==>
      Named(net.transport) || Reset in Greeting(net.transport, |net.logs| - 1, Log(net))
  }

  lemma StepKeeps(net: Net, step: Step)
    requires Invariant(net) && Resumes(net, step)
    ensures Invariant(Do(net, step))
  {
    hide Greeting, Upcoming, Rising, Consecutive;
    StepRises(net, step);
    StepKeepsWire(net, step);
    var after := Do(net, step);
    if after.transport.reloads == 0 {
      match step
      case Receive => ReceiveKeeps(net);
      case Forward => ForwardKeeps(net);
      case Answer(id, result) => AnswerKeeps(net, id, result);
      case Connect => if net.wire.None? && !net.transport.closed { ResumesExactlyWhen(net); }
      case Publish(event) => LogsGrow(net.logs, after.logs, Coming(net));
      case Restart => RestartKeeps(net);
      case Drop =>
        if !net.transport.closed {
          PrefixConsecutive(net.logs, net.transport.heard, Upcoming(Frames(net)));
          NothingComing(after);
        }
      case CloseTransport =>
        PrefixConsecutive(net.logs, net.transport.heard, Upcoming(Frames(net)));
        NothingComing(after);
      case Ask =>
      case Stall =>
    }
  }

  lemma RestartKeeps(net: Net)
    requires Invariant(net) && net.transport.reloads == 0
    ensures InOrder(Do(net, Restart))
  {
    var after := Do(net, Restart);
    PrefixConsecutive(net.logs, net.transport.heard, Upcoming(Frames(net)));
    NothingComing(after);
    LogsGrow(net.logs, after.logs, net.transport.heard);
  }

  lemma StepKeepsWire(net: Net, step: Step)
    requires Invariant(net)
    ensures WireFits(Do(net, step))
  {
    hide InOrder, Rising;
  }

  ghost predicate AllResume(steps: seq<Step>) {
    steps != [] ==>
      AllResume(steps[..|steps| - 1]) && Resumes(Run(steps[..|steps| - 1]), steps[|steps| - 1])
  }

  lemma {:induction false} RunKeeps(steps: seq<Step>)
    requires AllResume(steps)
    ensures Invariant(Run(steps))
    decreases |steps|
  {
    if steps != [] {
      RunKeeps(steps[..|steps| - 1]);
      StepKeeps(Run(steps[..|steps| - 1]), steps[|steps| - 1]);
    } else { assert Coming(Initial()) == []; }
  }

  /** From the first event a listener gets, it gets every one, once and in order; and once a
      connection has nothing left to deliver, up to the last one published. */
  lemma {:induction false} ListenersMissNothing(steps: seq<Step>)
    requires AllResume(steps) && Run(steps).transport.reloads == 0
    ensures var net := Run(steps); var heard := net.transport.heard;
      && Consecutive(net.logs, heard)
      && (heard != [] && net.wire.Some? && net.wire.value.frames == [] && net.wire.value.cursor == |Log(net)| ==>
            heard[|heard| - 1].Event? && heard[|heard| - 1].run == |net.logs| - 1
              && heard[|heard| - 1].Number() == |Log(net)|)
  {
    var net := Run(steps);
    RunKeeps(steps);
    PrefixConsecutive(net.logs, net.transport.heard, Upcoming(Frames(net)));
    if Frames(net) == [] { assert Coming(net) == net.transport.heard; }
  }

  // ---- where hearing begins ----

  /** A run of the server and how much of it was published. */
  datatype Point = Point(run: nat, published: nat)

  predicate Connects(net: Net, step: Step) { step.Connect? && net.wire.None? && !net.transport.closed }

  /** Where the server stood at the last connection made before anything was heard. */
  function LastDeafConnection(steps: seq<Step>): Point {
    if steps == [] then Point(0, 0)
    else
      var before := Run(steps[..|steps| - 1]);
      if Connects(before, steps[|steps| - 1]) && before.transport.heard == []
        then Point(|before.logs| - 1, |Log(before)|)
      else LastDeafConnection(steps[..|steps| - 1])
  }

  predicate NextAfter(frame: Frame, point: Point) {
    frame.Event? && frame.run == point.run && frame.Number() == point.published + 1
  }

  /** A connection of a client that heard nothing: its first event is the next one published, and a
      reset is the last thing it says. */
  ghost predicate Opens(wire: Wire, point: Point) {
    && wire.run == point.run
    && (if Upcoming(wire.frames) == [] then !wire.ended ==> wire.cursor == point.published
        else NextAfter(Upcoming(wire.frames)[0], point))
    && (forall i :: 0 <= i < |wire.frames| && wire.frames[i].Reset? ==> wire.ended && i == |wire.frames| - 1)
  }

  ghost predicate BeginsAt(net: Net, point: Point) {
    && Rising(net.transport)
    && (if net.transport.heard != [] then NextAfter(net.transport.heard[0], point)
        else net.wire.Some? ==> Opens(net.wire.value, point))
  }

  lemma DeafConnectionOpens(net: Net)
    requires net.logs != [] && Rising(net.transport) && net.transport.heard == [] && Connects(net, Connect)
    ensures BeginsAt(Do(net, Connect), Point(|net.logs| - 1, |Log(net)|))
  {
    var greeting := Greeting(net.transport, |net.logs| - 1, Log(net));
    UpcomingGreeting(net.transport, |net.logs| - 1, Log(net));
    assert greeting == [Hello(|net.logs| - 1)];
  }

  lemma ForwardOpens(net: Net, point: Point)
    requires net.logs != [] && net.wire.Some? && Opens(net.wire.value, point)
    ensures Opens(Do(net, Forward).wire.value, point)
  {
    var w, after := net.wire.value, Do(net, Forward).wire.value;
    if after != w {
      UpcomingAppended(w.frames, after.frames[|w.frames|]);
      assert after.frames == w.frames + [after.frames[|w.frames|]];
    }
  }

  lemma AnswerOpens(net: Net, point: Point, id: nat, result: Result)
    requires net.logs != [] && net.wire.Some? && Opens(net.wire.value, point)
    ensures Opens(Do(net, Answer(id, result)).wire.value, point)
  {
    UpcomingAppended(net.wire.value.frames, Reply(id, result));
  }

  lemma ReceiveBegins(net: Net, point: Point)
    requires net.logs != [] && BeginsAt(net, point)
    ensures BeginsAt(Do(net, Receive), point)
  {
    hide Rising;
    StepRises(net, Receive);
    LastIsZero(net.transport);
    if net.transport.heard == [] && net.wire.Some? && net.wire.value.frames != [] {
      var frames := net.wire.value.frames;
      if frames[0].Reset? { assert frames[1..] == []; }
      forall i | 0 <= i < |frames| - 1 && frames[1..][i].Reset? ensures net.wire.value.ended && i == |frames| - 2 {
        assert frames[i + 1].Reset?;
      }
    }
  }

  lemma StepBegins(net: Net, point: Point, step: Step)
    requires net.logs != [] && BeginsAt(net, point)
    requires !(Connects(net, step) && net.transport.heard == [])
    ensures BeginsAt(Do(net, step), point)
  {
    hide Upcoming, Rising, Opens;
    StepRises(net, step);
    match step
    case Receive => ReceiveBegins(net, point);
    case Forward => if net.wire.Some? && net.transport.heard == [] { ForwardOpens(net, point); }
    case Answer(id, result) => if net.wire.Some? && net.transport.heard == [] { AnswerOpens(net, point, id, result); }
    case _ =>
  }

  lemma {:induction false} RunFits(steps: seq<Step>)
    ensures BeginsAt(Run(steps), LastDeafConnection(steps))
    decreases |steps|
  {
    if steps != [] {
      var before, step := Run(steps[..|steps| - 1]), steps[|steps| - 1];
      RunFits(steps[..|steps| - 1]);
      if Connects(before, step) && before.transport.heard == [] { DeafConnectionOpens(before); }
      else { StepBegins(before, LastDeafConnection(steps[..|steps| - 1]), step); }
    }
  }

  /** In every run the first event a client hears is the next one published after its last connection
      before it. */
  lemma {:induction false} FirstHeardFollowsItsConnection(steps: seq<Step>)
    requires Run(steps).transport.heard != []
    ensures NextAfter(Run(steps).transport.heard[0], LastDeafConnection(steps))
  {
    RunFits(steps);
  }

  /** So of the run it hears an event is missed exactly when it was published before that connection. */
  lemma {:induction false} MissedExactlyWhen(steps: seq<Step>, n: nat)
    requires AllResume(steps) && Run(steps).transport.reloads == 0 && Run(steps).transport.heard != []
    requires var heard := Run(steps).transport.heard; 1 <= n <= heard[|heard| - 1].Number()
    ensures var heard := Run(steps).transport.heard;
      (exists i :: 0 <= i < |heard| && heard[i].Number() == n) <==> n > LastDeafConnection(steps).published
  {
    hide Run, Consecutive, AllResume;
    ListenersMissNothing(steps);
    FirstHeardFollowsItsConnection(steps);
    NumbersInOrder(Run(steps).logs, Run(steps).transport.heard, n);
  }

  /** Consecutive events have every number from the first to the last, and no other. */
  lemma {:induction false} NumbersInOrder(logs: seq<seq<Event>>, heard: seq<Frame>, n: nat)
    requires Consecutive(logs, heard) && heard != [] && n <= heard[|heard| - 1].Number()
    ensures (exists i :: 0 <= i < |heard| && heard[i].Number() == n) <==> n >= heard[0].Number()
  {
    var first := heard[0].Number();
    assert Follows(logs, heard, |heard| - 1);
    assert forall i :: 0 <= i < |heard| ==> Follows(logs, heard, i) && heard[i].Number() == first + i;
    if n >= first { assert heard[n - first].Number() == n; }
  }

  // ---- a connection that does not resume ----

  function RunFrom(net: Net, steps: seq<Step>): (after: Net)
    requires net.logs != []
    ensures after.logs != []
  {
    if steps == [] then net else Do(RunFrom(net, steps[..|steps| - 1]), steps[|steps| - 1])
  }

  /** The first event of a run of the server is past for the client, and was not heard. */
  ghost predicate PassedOver(net: Net, run: nat) {
    && Rising(net.transport) && net.transport.last >= 1
    && (forall i :: 0 <= i < |net.transport.heard| ==>
          !(net.transport.heard[i].Event? && net.transport.heard[i].run == run && net.transport.heard[i].Number() == 1))
  }

  lemma StepPassesOver(net: Net, step: Step, run: nat)
    requires net.logs != [] && PassedOver(net, run)
    ensures PassedOver(Do(net, step), run)
  {
    StepRises(net, step);
  }

  lemma {:induction false} PassedOverForGood(net: Net, steps: seq<Step>, run: nat)
    requires net.logs != [] && PassedOver(net, run)
    ensures PassedOver(RunFrom(net, steps), run)
    decreases |steps|
  {
    if steps != [] {
      PassedOverForGood(net, steps[..|steps| - 1], run);
      StepPassesOver(RunFrom(net, steps[..|steps| - 1]), steps[|steps| - 1], run);
    }
  }

  lemma {:induction false} UnnamedPassesOver(net: Net)
    requires Invariant(net) && net.transport.reloads == 0 && net.wire.None? && !net.transport.closed
    requires !Named(net.transport) && Reset !in Greeting(net.transport, |net.logs| - 1, Log(net))
    ensures PassedOver(net, |net.logs| - 1)
  {
    hide Greeting, Upcoming;
    var t, run := net.transport, |net.logs| - 1;
    UpcomingGreeting(t, run, Log(net));
    NothingComing(net);
    LastIsZero(t);
    assert Follows(net.logs, t.heard, |t.heard| - 1);
    forall i | 0 <= i < |t.heard| ensures t.heard[i].Event? && t.heard[i].run != run {
      SameRun(net.logs, t.heard, i, |t.heard| - 1);
    }
  }

  /** A client whose connection does not resume, and is not told so, never hears the first event of
      the run that serves it, published before or after, whatever comes. */
  lemma {:induction false} UnresumedNeverHearsTheFirst(net: Net, steps: seq<Step>, event: Event)
    requires Invariant(net) && net.transport.reloads == 0 && net.wire.None? && !net.transport.closed
    requires !InOrder(Do(net, Connect))
    ensures Event(|net.logs| - 1, 1, event) !in RunFrom(net, steps).transport.heard
  {
    hide InOrder, Greeting, Named, RunFrom;
    ResumesExactlyWhen(net);
    UnnamedPassesOver(net);
    PassedOverForGood(net, steps, |net.logs| - 1);
  }

  // ---- what a connection says, and what a gap costs ----

  /** The server asks for a reload exactly when the client names another run, or has missed more than
      the 256 events it keeps; and to a client it has connected, when that is as far behind. */
  lemma ResetsExactlyWhen(net: Net)
    requires net.logs != []
    ensures var t, log := net.transport, Log(net);
      Reset in Greeting(t, |net.logs| - 1, log)
      <==> t.last != 0 && (t.runId != Some(|net.logs| - 1) || |log| - t.last > 256)
    ensures var after := Do(net, Forward);
      net.wire.Some? && !net.wire.value.ended ==>
        (after.wire.value.ended <==> |Log(net)| - net.wire.value.cursor > 256)
        && (after.wire.value.ended ==> after.wire.value.frames == net.wire.value.frames + [Reset])
  {
    var t, run, log := net.transport, |net.logs| - 1, Log(net);
    var greeting := Greeting(t, run, log);
    if t.last != 0 && (t.runId != Some(run) || |log| - t.last > 256) { assert greeting[1] == Reset; }
  }

  function Receives(count: nat): seq<Step> { seq(count, _ => Receive) }

  lemma ReceivedNext(net: Net)
    requires net.logs != [] && net.wire.Some? && net.wire.value.frames != []
    requires net.wire.value.frames[0].Event? && net.wire.value.frames[0].index == net.transport.last + 1
    ensures var t, w := net.transport, net.wire.value;
      Do(net, Receive) == net.(transport := t.(last := t.last + 1, heard := t.heard + [w.frames[0]]),
                               wire := Some(w.(frames := w.frames[1..])))
  {
  }

  /** Events that come in the order of their numbers, above the last one, are heard one by one. */
  lemma {:induction false} ReceivedInOrder(net: Net, count: nat)
    requires net.logs != [] && net.wire.Some? && count <= |net.wire.value.frames|
    requires var frames := net.wire.value.frames;
      forall i :: 0 <= i < |frames| ==> frames[i].Event? && frames[i].index == net.transport.last + 1 + i
    ensures var t, w, after := net.transport, net.wire.value, RunFrom(net, Receives(count));
      && after.transport == t.(last := t.last + count, heard := t.heard + w.frames[..count])
      && after.wire == Some(w.(frames := w.frames[count..])) && after.logs == net.logs
    decreases count
  {
    hide Do;
    if count > 0 {
      assert Receives(count)[..count - 1] == Receives(count - 1);
      ReceivedInOrder(net, count - 1);
      assert net.wire.value.frames[count - 1..][0] == net.wire.value.frames[count - 1];
      ReceivedNext(RunFrom(net, Receives(count - 1)));
    }
  }

  /** A client that lost its connection and missed no more than the server keeps hears, once it is
      connected again, exactly the events it missed, in order, and need not reload. */
  lemma {:induction false} GapsAreReplayed(net: Net)
    requires net.logs != [] && net.wire.None? && !net.transport.closed
    requires var t := net.transport; 1 <= t.last <= |Log(net)| <= t.last + 256 && t.runId == Some(|net.logs| - 1)
    ensures var t, missed := net.transport, |Log(net)| - net.transport.last;
      var after := RunFrom(Do(Do(net, Connect), Receive), Receives(missed));
      && after.transport == t.(last := |Log(net)|, stalled := false,
                               heard := t.heard + Numbered(|net.logs| - 1, Log(net), t.last))
      && after.wire == Some(Wire(|net.logs| - 1, [], |Log(net)|, false)) && after.logs == net.logs
  {
    var t, run, log := net.transport, |net.logs| - 1, Log(net);
    var replay, greeted := Numbered(run, log, t.last), Do(Do(net, Connect), Receive);
    GreetedWithReplay(net);
    hide Do, Numbered, RunFrom, Receives;
    ReplayNumbers(run, log, t.last);
    ReceivedInOrder(greeted, |log| - t.last);
    assert replay[..|replay|] == replay && replay[|replay|..] == [];
  }

  lemma ReplayNumbers(run: nat, log: seq<Event>, from: nat)
    requires from <= |log|
    ensures |Numbered(run, log, from)| == |log| - from
    ensures forall i :: 0 <= i < |log| - from ==>
      Numbered(run, log, from)[i].Event? && Numbered(run, log, from)[i].index == from + 1 + i
  {
  }

  lemma GreetedWithReplay(net: Net)
    requires net.logs != [] && net.wire.None? && !net.transport.closed
    requires var t := net.transport; 1 <= t.last <= |Log(net)| <= t.last + 256 && t.runId == Some(|net.logs| - 1)
    ensures var t, run, log := net.transport, |net.logs| - 1, Log(net);
      Do(Do(net, Connect), Receive)
        == net.(transport := t.(stalled := false), wire := Some(Wire(run, Numbered(run, log, t.last), |log|, false)))
  {
    var t, run, log := net.transport, |net.logs| - 1, Log(net);
    var replay := Numbered(run, log, t.last);
    assert Greeting(t, run, log) == [Hello(run)] + replay;
    assert ([Hello(run)] + replay)[1..] == replay;
  }

  // ---- two ways to miss an event ----

  lemma Then(before: seq<Step>, step: Step) returns (steps: seq<Step>)
    ensures steps == before + [step] && Run(steps) == Do(Run(before), step)
  {
    steps := before + [step];
    assert steps[..|steps| - 1] == before;
  }

  /** The client and the newest run of the server, with the frames on their way between them. */
  ghost predicate Linked(net: Net, t: Transport, run: nat, log: seq<Event>, frames: seq<Frame>) {
    && net.transport == t && |net.logs| == run + 1 && net.logs[run] == log
    && net.wire.Some? && net.wire.value.run == run && net.wire.value.frames == frames
    && net.wire.value.cursor == |log| && !net.wire.value.ended
  }

  ghost predicate Unlinked(net: Net, t: Transport, run: nat, log: seq<Event>) {
    net.transport == t && |net.logs| == run + 1 && net.logs[run] == log && net.wire.None?
  }

  lemma {:induction false} Dropped(before: seq<Step>, step: Step, t: Transport) returns (steps: seq<Step>)
    requires (step == Drop || step == Restart) && Run(before).wire.Some?
    requires Run(before).transport == t && t.pending == {} && !t.armed && !t.stalled && !t.closed
    ensures steps == before + [step] && Run(steps).transport == t && Run(steps).wire.None?
    ensures Run(steps).logs == if step.Drop? then Run(before).logs else Run(before).logs + [[]]
  {
    steps := Then(before, step);
    assert t.settled + Rejections({}, "websocket closed") == t.settled;
  }

  /** An event is published, forwarded and handled while nothing else is on its way. */
  lemma {:induction false} Delivered(before: seq<Step>, t: Transport, run: nat, log: seq<Event>, event: Event)
    returns (steps: seq<Step>)
    requires Linked(Run(before), t, run, log, [])
    ensures Linked(Run(steps), t.Handle(Event(run, |log| + 1, event)), run, log + [event], [])
  {
    steps := Then(before, Publish(event));
    steps := Then(steps, Forward);
    assert Run(steps).wire.value.frames == [Event(run, |log| + 1, event)];
    steps := Then(steps, Receive);
    assert Run(steps).wire.value.frames == [];
  }

  /** A client that heard nothing yet asks for no replay, so what a drop cost it stays lost. */
  lemma EarlyEventsAreLost(lost: Event, event: Event) returns (steps: seq<Step>)
    ensures var t := Created().(runId := Some(0), last := 2, heard := [Event(0, 2, event)]);
      Linked(Run(steps), t, 0, [lost, event], [])
  {
    steps := Then([], Connect);
    steps := Dropped(steps, Drop, Created());
    steps := Then(steps, Publish(lost));
    assert Unlinked(Run(steps), Created(), 0, [lost]);
    steps := Then(steps, Connect);
    assert Run(steps).wire.value.frames == [Hello(0)];
    steps := Then(steps, Receive);
    assert Linked(Run(steps), Created().(runId := Some(0)), 0, [lost], []);
    steps := Delivered(steps, Created().(runId := Some(0)), 0, [lost], event);
  }

  /** A restarted server's hello renames the run before its reset arrives. When a drop takes the reset,
      the next connection names the new run with the old number, and new events are passed over. */
  lemma LostResetHidesEvents(earlier: Event, hidden: Event) returns (steps: seq<Step>)
    ensures var t := Created().(runId := Some(1), last := 1, heard := [Event(0, 1, earlier)]);
      Linked(Run(steps), t, 1, [hidden], [])
  {
    var t := Created().(runId := Some(1), last := 1, heard := [Event(0, 1, earlier)]);
    steps := ResetLost(earlier);
    steps := Then(steps, Connect);
    assert Run(steps).wire.value.frames == [Hello(1)];
    steps := Then(steps, Receive);
    assert Linked(Run(steps), t, 1, [], []);
    steps := Delivered(steps, t, 1, [], hidden);
    assert [] + [hidden] == [hidden];
  }

  lemma HeardOne(event: Event) returns (steps: seq<Step>)
    ensures var t := Created().(runId := Some(0), last := 1, heard := [Event(0, 1, event)]);
      Linked(Run(steps), t, 0, [event], [])
  {
    var t := Created().(runId := Some(0));
    steps := Then([], Connect);
    assert Run(steps).wire.value.frames == [Hello(0)];
    steps := Then(steps, Receive);
    assert Linked(Run(steps), t, 0, [], []);
    steps := Delivered(steps, t, 0, [], event);
    assert [] + [event] == [event];
  }

  lemma ResetLost(earlier: Event) returns (steps: seq<Step>)
    ensures var t := Created().(runId := Some(1), last := 1, heard := [Event(0, 1, earlier)]);
      Unlinked(Run(steps), t, 1, [])
  {
    var t := Created().(runId := Some(0), last := 1, heard := [Event(0, 1, earlier)]);
    steps := HeardOne(earlier);
    steps := Dropped(steps, Restart, t);
    steps := Then(steps, Connect);
    assert Run(steps).wire.value.frames == [Hello(1), Reset];
    steps := Then(steps, Receive);
    steps := Dropped(steps, Drop, t.(runId := Some(1)));
  }
}
