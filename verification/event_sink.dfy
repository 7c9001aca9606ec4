/** The native event sink: it keeps early events for the first channel, which gets them in pieces
    before anything live. */
module EventSink {
  import opened Options

  type Event(==, !new)
  type Channel(==, !new)

  const BATCH_LIMIT: nat := 256
  const BACKLOG_LIMIT: nat := 4096

  datatype Post = Post(channel: Channel, events: seq<Event>)

  function Chunks(events: seq<Event>): seq<seq<Event>>
    decreases |events|
  {
    if events == [] then []
    else if |events| <= BATCH_LIMIT then [events]
    else [events[..BATCH_LIMIT]] + Chunks(events[BATCH_LIMIT..])
  }

  function Posts(channel: Channel, batches: seq<seq<Event>>): seq<Post> {
    seq(|batches|, i requires 0 <= i < |batches| => Post(channel, batches[i]))
  }

  /** `posts` is what went out, to whichever channel, in order. */
  datatype Sink = Sink(channel: Option<Channel>, backlog: seq<Event>, posts: seq<Post>) {
    function Replace(next: Channel): Sink {
      Sink(Some(next), [], posts + Posts(next, Chunks(backlog)))
    }

    /** The part of a send under the lock: without a channel, the events are kept while there is room. */
    function Accept(events: seq<Event>): Sink {
      if channel.None? && |backlog| < BACKLOG_LIMIT then this.(backlog := backlog + events) else this
    }

    function Send(post: Post): Sink { this.(posts := posts + [post]) }
  }

  class ReplaySink {
    var channel: Option<Channel>
    var backlog: seq<Event>
    var posts: seq<Post>

    function State(): Sink
      reads this
    {
      Sink(channel, backlog, posts)
    }

    constructor ()
      ensures State() == Sink(None, [], [])
    {
      channel, backlog, posts := None, [], [];
    }

    method Replace(next: Channel) returns (had: bool)
      modifies this
      ensures State() == old(State()).Replace(next) && had == old(channel).Some?
    {
      var pending := backlog;
      backlog := [];
      while pending != []
        invariant backlog == [] && channel == old(channel)
        invariant posts + Posts(next, Chunks(pending)) == old(posts) + Posts(next, Chunks(old(backlog)))
        decreases |pending|
      {
        var cut := if |pending| < BATCH_LIMIT then |pending| else BATCH_LIMIT;
        var head, tail := pending[..cut], pending[cut..];
        assert Chunks(pending) == [head] + Chunks(tail) by { assert pending[..|pending|] == pending; }
        assert Posts(next, [head] + Chunks(tail)) == [Post(next, head)] + Posts(next, Chunks(tail));
        posts := posts + [Post(next, head)];
        pending := tail;
      }
      had := channel.Some?;
      channel := Some(next);
    }

    method Accept(events: seq<Event>) returns (to: Option<Channel>)
      modifies this`backlog
      ensures State() == old(State()).Accept(events) && to == channel
    {
      to := channel;
      if channel.None? && |backlog| < BACKLOG_LIMIT { backlog := backlog + events; }
    }

    /** The other part, after the lock is let go: the channel may have been replaced by then. */
    method Send(to: Channel, events: seq<Event>)
      modifies this`posts
      ensures State() == old(State()).Send(Post(to, events))
    {
      posts := posts + [Post(to, events)];
    }
  }

  // ---- the pieces ----

  function Flat(batches: seq<seq<Event>>): seq<Event> {
    if batches == [] then [] else Flat(batches[..|batches| - 1]) + batches[|batches| - 1]
  }

  lemma {:induction false} FlatGrows(batches: seq<seq<Event>>, events: seq<Event>)
    ensures Flat(batches + [events]) == Flat(batches) + events
  {
    assert (batches + [events])[..|batches|] == batches;
  }

  lemma {:induction false} FlatConcat(a: seq<seq<Event>>, b: seq<seq<Event>>)
    ensures Flat(a + b) == Flat(a) + Flat(b)
    decreases |b|
  {
    if b == [] {
      assert a + b == a;
    } else {
      hide Flat;
      var rest, last := b[..|b| - 1], b[|b| - 1];
      assert a + b == (a + rest) + [last] && b == rest + [last];
      FlatConcat(a, rest);
      FlatGrows(a + rest, last);
      FlatGrows(rest, last);
    }
  }

  /** Pieces are whole but for the last, none is empty, and together they are the events in order. */
  lemma {:induction false} ChunksCover(events: seq<Event>)
    ensures Flat(Chunks(events)) == events
    ensures forall i :: 0 <= i < |Chunks(events)| ==> 0 < |Chunks(events)[i]| <= BATCH_LIMIT
    ensures forall i :: 0 <= i < |Chunks(events)| - 1 ==> |Chunks(events)[i]| == BATCH_LIMIT
    decreases |events|
  {
    if events == [] {
    } else if |events| <= BATCH_LIMIT {
      assert Flat([events][..0]) == [];
    } else {
      ChunksCover(events[BATCH_LIMIT..]);
      FlatConcat([events[..BATCH_LIMIT]], Chunks(events[BATCH_LIMIT..]));
      assert [events[..BATCH_LIMIT]][..0] == [];
    }
  }

  // ---- runs of one sender against any number of channels ----

  /** `sent` is every batch there was; `kept` of the first `early` were taken before there was a channel. */
  datatype Feed = Feed(sink: Sink, inFlight: Option<Post>, sent: seq<seq<Event>>, kept: nat, early: nat)

  datatype Step = Attach(channel: Channel) | Begin(events: seq<Event>) | Finish

  function Initial(): Feed { Feed(Sink(None, [], []), None, [], 0, 0) }

  function Do(f: Feed, step: Step): Feed {
    match step
    case Attach(channel) => f.(sink := f.sink.Replace(channel))
    case Begin(events) =>
      if f.inFlight.Some? then f
      else
        var sent := f.(sink := f.sink.Accept(events), sent := f.sent + [events]);
        if f.sink.channel.Some? then sent.(inFlight := Some(Post(f.sink.channel.value, events)))
        else
          sent.(early := f.early + 1, kept := if |f.sink.backlog| < BACKLOG_LIMIT then f.kept + 1 else f.kept)
    case Finish => if f.inFlight.None? then f else f.(sink := f.sink.Send(f.inFlight.value), inFlight := None)
  }

  function Run(steps: seq<Step>): Feed {
    if steps == [] then Initial() else Do(Run(steps[..|steps| - 1]), steps[|steps| - 1])
  }

  function Events(posts: seq<Post>): seq<Event> {
    if posts == [] then [] else Events(posts[..|posts| - 1]) + posts[|posts| - 1].events
  }

  ghost predicate Counted(f: Feed) { f.kept <= f.early <= |f.sent| }

  /** A batch is turned away only once the backlog is full. */
  ghost predicate KeptFits(f: Feed)
    requires Counted(f)
  {
    && (f.kept < f.early ==> |Flat(f.sent[..f.kept])| >= BACKLOG_LIMIT)
    && (f.kept > 0 ==> |Flat(f.sent[..f.kept - 1])| < BACKLOG_LIMIT)
  }

  ghost predicate BacklogFits(f: Feed)
    requires Counted(f)
  {
    if f.sink.channel.None? then
      f.sink.posts == [] && f.inFlight.None? && f.early == |f.sent| && f.sink.backlog == Flat(f.sent[..f.kept])
    else f.sink.backlog == []
  }

  /** What went out is the kept batches and then every later one, to the batch in flight. */
  ghost predicate OutFits(f: Feed)
    requires Counted(f)
  {
    f.sink.channel.Some? ==>
      Events(f.sink.posts) + (if f.inFlight.Some? then f.inFlight.value.events else [])
      == Flat(f.sent[..f.kept]) + Flat(f.sent[f.early..])
  }

  ghost predicate Invariant(f: Feed) { Counted(f) && KeptFits(f) && BacklogFits(f) && OutFits(f) }

  lemma {:induction false} EventsOfPosts(posts: seq<Post>, channel: Channel, batches: seq<seq<Event>>)
    ensures Events(posts + Posts(channel, batches)) == Events(posts) + Flat(batches)
    decreases |batches|
  {
    if batches == [] {
      assert posts + Posts(channel, batches) == posts;
    } else {
      var n, all := |batches| - 1, posts + Posts(channel, batches);
      assert all[..|all| - 1] == posts + Posts(channel, batches[..n]);
      EventsOfPosts(posts, channel, batches[..n]);
    }
  }

  lemma AttachKeeps(f: Feed, channel: Channel)
    requires Invariant(f)
    ensures Invariant(Do(f, Attach(channel)))
  {
    hide Chunks, Posts;
    ChunksCover(f.sink.backlog);
    EventsOfPosts(f.sink.posts, channel, Chunks(f.sink.backlog));
    if f.sink.channel.None? { assert Flat(f.sent[f.early..]) == []; }
  }

  lemma StepKeeps(f: Feed, step: Step)
    requires Invariant(f)
    ensures Invariant(Do(f, step))
  {
    hide Sink.Replace, Sink.Accept;
    match step
    case Attach(channel) => AttachKeeps(f, channel);
    case Begin(events) =>
      if f.inFlight.None? {
        if f.sink.channel.Some? { LiveKeeps(f, events); } else { EarlyKeeps(f, events); }
      }
    case Finish =>
      if f.inFlight.Some? { assert (f.sink.posts + [f.inFlight.value])[..|f.sink.posts|] == f.sink.posts; }
  }

  lemma {:induction false} Joined(out: seq<Event>, kept: seq<Event>, live: seq<Event>, events: seq<Event>)
    requires out + [] == kept + live
    ensures out + events == kept + (live + events)
  {
    assert out == kept + live;
  }

  lemma {:induction false} LiveKeeps(f: Feed, events: seq<Event>)
    requires Invariant(f) && f.inFlight.None? && f.sink.channel.Some?
    ensures Invariant(Do(f, Begin(events)))
  {
    hide Flat, Events, Chunks, Posts;
    var after := Do(f, Begin(events));
    assert after.sent[..f.kept] == f.sent[..f.kept];
    if f.kept > 0 { assert after.sent[..f.kept - 1] == f.sent[..f.kept - 1]; }
    assert after.sent[f.early..] == f.sent[f.early..] + [events];
    FlatGrows(f.sent[f.early..], events);
    Joined(Events(f.sink.posts), Flat(f.sent[..f.kept]), Flat(f.sent[f.early..]), events);
  }

  lemma {:induction false} EarlyKeeps(f: Feed, events: seq<Event>)
    requires Invariant(f) && f.sink.channel.None?
    ensures Invariant(Do(f, Begin(events)))
  {
    hide Flat, Events, Chunks, Posts;
    var after := Do(f, Begin(events));
    assert after.sent[..f.kept] == f.sent[..f.kept];
    if f.kept > 0 { assert after.sent[..f.kept - 1] == f.sent[..f.kept - 1]; }
    if after.kept == f.kept + 1 {
      assert after.sent[..f.kept + 1] == f.sent[..f.kept] + [events];
      FlatGrows(f.sent[..f.kept], events);
    }
  }

  lemma {:induction false} RunKeeps(steps: seq<Step>)
    ensures Invariant(Run(steps))
    decreases |steps|
  {
    if steps != [] {
      RunKeeps(steps[..|steps| - 1]);
      StepKeeps(Run(steps[..|steps| - 1]), steps[|steps| - 1]);
    }
  }

  /** Once there is a channel, everything sent has gone out in order but for the early batches that
      came after the backlog was full. */
  lemma {:induction false} OnlyAFullBacklogLosesEvents(steps: seq<Step>)
    requires Run(steps).sink.channel.Some?
    ensures var f := Run(steps);
      && f.kept <= f.early <= |f.sent|
      && Events(f.sink.posts) + (if f.inFlight.Some? then f.inFlight.value.events else [])
          == Flat(f.sent[..f.kept]) + Flat(f.sent[f.early..])
      && (f.kept < f.early ==> |Flat(f.sent[..f.kept])| >= BACKLOG_LIMIT)
  {
    RunKeeps(steps);
  }

  /** The backlog holds fewer events than its limit, and one batch more. */
  lemma {:induction false} BacklogIsBounded(steps: seq<Step>)
    requires Run(steps).sink.backlog != []
    ensures var f := Run(steps);
      && 0 < f.kept <= |f.sent|
      && |f.sink.backlog| <= BACKLOG_LIMIT - 1 + |f.sent[f.kept - 1]|
  {
    var f := Run(steps);
    RunKeeps(steps);
    assert f.kept > 0;
    assert f.sent[..f.kept][..f.kept - 1] == f.sent[..f.kept - 1];
  }

  /** The first channel gets the early events whole, in pieces, ahead of everything else. */
  lemma {:induction false} FirstChannelGetsTheBacklogFirst(steps: seq<Step>, channel: Channel)
    requires Run(steps).sink.channel.None?
    ensures var f := Run(steps);
      && f.kept <= |f.sent| && f.sink.posts == []
      && Do(f, Attach(channel)).sink == Sink(Some(channel), [], Posts(channel, Chunks(Flat(f.sent[..f.kept]))))
  {
    RunKeeps(steps);
  }

  // ---- where everything goes ----

  function LastAttached(steps: seq<Step>): Option<Channel> {
    if steps == [] then None
    else match steps[|steps| - 1]
      case Attach(channel) => Some(channel)
      case _ => LastAttached(steps[..|steps| - 1])
  }

  /** The early events there was room for. */
  function Kept(steps: seq<Step>): seq<Event> {
    if steps == [] then []
    else
      var before := Kept(steps[..|steps| - 1]);
      match steps[|steps| - 1]
      case Begin(events) =>
        if LastAttached(steps[..|steps| - 1]).None? && |before| < 4096 then before + events else before
      case _ => before
  }

  /** A live batch is for the channel attached last when it was sent, whatever is attached meanwhile. */
  function Pending(steps: seq<Step>): Option<Post> {
    if steps == [] then None
    else
      var before, to := Pending(steps[..|steps| - 1]), LastAttached(steps[..|steps| - 1]);
      match steps[|steps| - 1]
      case Attach(_) => before
      case Begin(events) => if before.None? && to.Some? then Some(Post(to.value, events)) else before
      case Finish => None
  }

  function Outgoing(steps: seq<Step>): seq<Post> {
    if steps == [] then []
    else
      var before := steps[..|steps| - 1];
      match steps[|steps| - 1]
      case Attach(channel) =>
        Outgoing(before) + if LastAttached(before).None? then Posts(channel, Chunks(Kept(before))) else []
      case Begin(_) => Outgoing(before)
      case Finish => Outgoing(before) + if Pending(before).Some? then [Pending(before).value] else []
  }

  /** Over every run what goes out is the kept early events to the first channel and then each live
      batch to the channel that was attached last when it was sent, in order. */
  lemma {:induction false} EverythingGoesToTheLastChannel(steps: seq<Step>)
    ensures var f := Run(steps);
      && f.sink.channel == LastAttached(steps) && f.inFlight == Pending(steps) && f.sink.posts == Outgoing(steps)
      && (LastAttached(steps).None? ==> f.sink.backlog == Kept(steps) && Pending(steps).None?)
      && (LastAttached(steps).Some? ==> f.sink.backlog == [])
    decreases |steps|
  {
    if steps != [] { EverythingGoesToTheLastChannel(steps[..|steps| - 1]); }
  }
}
