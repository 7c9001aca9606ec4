/** The search options the worker hands to the core, and the foreground flag that follows the
    visibility of the open pages through a queue of calls. */
module SearchActivity {
  import opened Options

  type Port(==, !new)

  datatype SearchOptions = SearchOptions(settings: string, foreground: bool)

  /** A queued call; once started it carries what it passed to the core. */
  datatype Call = Queued(options: SearchOptions) | Started(options: SearchOptions)

  /** `core` is what the core last accepted; a reset worker is `stopping`, then `terminated`.
      `lastFailed` is history: whether the call that ended last was rejected. */
  datatype Activity = Activity(
    ports: set<Port>,
    visibility: map<Port, bool>,
    searchOptions: Option<SearchOptions>,
    calls: seq<Call>,
    core: Option<SearchOptions>,
    stopping: bool,
    terminated: bool,
    lastFailed: bool)
  {
    ghost predicate AnyVisible() {
      exists p :: p in visibility && visibility[p]
    }

    ghost function Apply(options: SearchOptions): Activity {
      var current := options.(foreground := AnyVisible());
      this.(searchOptions := Some(current), calls := calls + [Queued(current)])
    }

    ghost function UpdateForeground(): Activity {
      if searchOptions.None? || searchOptions.value.foreground == AnyVisible() then this else Apply(searchOptions.value)
    }

    ghost function SetVisible(port: Port, visible: bool): Activity {
      this.(visibility := visibility[port := visible]).UpdateForeground()
    }

    ghost function SetOptions(port: Port, options: SearchOptions): Activity {
      if port !in ports then this
      else
        var seen := if port in visibility then visibility else visibility[port := options.foreground];
        this.(visibility := seen).Apply(options)
    }

    ghost function Close(port: Port): Activity {
      if port !in ports then this
      else this.(ports := ports - {port}, visibility := visibility - {port}).UpdateForeground()
    }

    /** The last page resets the caches: the worker forgets the options and will stop. */
    ghost function Reset(port: Port): Activity {
      if ports != {port} then this else this.(searchOptions := None, stopping := true).Close(port)
    }

    /** The queue's head reaches the call into the core and reads the visibility of that moment. */
    ghost function StartCall(): Activity {
      if calls == [] || calls[0].Started? then this
      else this.(calls := calls[0 := Started(calls[0].options.(foreground := AnyVisible()))])
    }

    ghost function EndCall(ok: bool): Activity {
      if calls == [] || calls[0].Queued? then this
      else this.(calls := calls[1..], lastFailed := !ok, core := if ok then Some(calls[0].options) else core)
    }
  }

  class SearchTask {
    var ports: set<Port>
    var visibility: map<Port, bool>
    var searchOptions: Option<SearchOptions>
    var calls: seq<Call>
    var core: Option<SearchOptions>
    var stopping: bool
    var terminated: bool
    ghost var lastFailed: bool

    ghost function State(): Activity
      reads this
    {
      Activity(ports, visibility, searchOptions, calls, core, stopping, terminated, lastFailed)
    }

    constructor ()
      ensures State() == Start()
    {
      ports, visibility, searchOptions, calls, core := {}, map[], None, [], None;
      stopping, terminated, lastFailed := false, false, false;
    }

    method AnyVisible() returns (any: bool)
      ensures any == State().AnyVisible()
    {
      any := false;
      var rest := visibility.Keys;
      while rest != {}
        invariant rest <= visibility.Keys
        invariant any <==> exists p :: p in visibility.Keys - rest && visibility[p]
      {
        var p :| p in rest;
        rest := rest - {p};
        any := any || visibility[p];
      }
    }

    method ApplySearchOptions(options: SearchOptions)
      modifies this
      ensures State() == old(State()).Apply(options)
    {
      var foreground := AnyVisible();
      searchOptions := Some(options.(foreground := foreground));
      calls := calls + [Queued(options.(foreground := foreground))];
    }

    method UpdateSearchForeground()
      modifies this
      ensures State() == old(State()).UpdateForeground()
    {
      var foreground := AnyVisible();
      if searchOptions.None? || searchOptions.value.foreground == foreground { return; }
      ApplySearchOptions(searchOptions.value);
    }

    method SetVisible(port: Port, visible: bool)
      modifies this
      ensures State() == old(State()).SetVisible(port, visible)
    {
      visibility := visibility[port := visible];
      UpdateSearchForeground();
    }

    method SetSearchOptions(port: Port, options: SearchOptions)
      modifies this
      ensures State() == old(State()).SetOptions(port, options)
    {
      if port !in ports { return; }
      if port !in visibility { visibility := visibility[port := options.foreground]; }
      ApplySearchOptions(options);
    }

    method ClosePort(port: Port)
      modifies this
      ensures State() == old(State()).Close(port)
    {
      if port !in ports { return; }
      ports := ports - {port};
      visibility := visibility - {port};
      UpdateSearchForeground();
    }

    /** Whether the worker goes on to stop its core; with other pages open the reset is refused. */
    method Reset(port: Port) returns (stops: bool)
      modifies this
      ensures State() == old(State()).Reset(port) && (stops <==> old(ports) == {port})
    {
      if ports != {port} { return false; }
      searchOptions, stopping := None, true;
      ClosePort(port);
      return true;
    }

    method Terminate()
      modifies this`terminated
      ensures State() == old(State()).(terminated := stopping)
    {
      terminated := stopping;
    }

    method StartCall()
      modifies this
      ensures State() == old(State()).StartCall()
    {
      if calls == [] || calls[0].Started? { return; }
      var foreground := AnyVisible();
      calls := calls[0 := Started(calls[0].options.(foreground := foreground))];
    }

    method EndCall(ok: bool)
      modifies this
      ensures State() == old(State()).EndCall(ok)
    {
      if calls == [] || calls[0].Queued? { return; }
      if ok { core := Some(calls[0].options); }
      lastFailed := !ok;
      calls := calls[1..];
    }
  }

  // ---- runs ----

  datatype Step =
    | Connect(port: Port)
    | SetVisible(port: Port, visible: bool)
    | SetOptions(port: Port, options: SearchOptions)
    | Close(port: Port)
    | Reset(port: Port)
    | StartCall
    | EndCall(ok: bool)
    | Terminate

  function Start(): Activity {
    Activity({}, map[], None, [], None, false, false, false)
  }

  /** Once terminated, a worker does nothing more. */
  ghost function Do(a: Activity, step: Step): Activity {
    if a.terminated then a else Act(a, step)
  }

  ghost function Act(a: Activity, step: Step): Activity {
    match step
    case Connect(port) => a.(ports := a.ports + {port})
    case SetVisible(port, visible) => if port in a.ports then a.SetVisible(port, visible) else a
    case SetOptions(port, options) => a.SetOptions(port, options)
    case Close(port) => a.Close(port)
    case Reset(port) => a.Reset(port)
    case StartCall => a.StartCall()
    case EndCall(ok) => a.EndCall(ok)
    case Terminate => a.(terminated := a.stopping)
  }

  ghost function Run(steps: seq<Step>): Activity {
    if steps == [] then Start() else Do(Run(steps[..|steps| - 1]), steps[|steps| - 1])
  }

  /** What the pages did, apart from what the worker made of it: which are open, what each said last
      of its visibility, the settings sent last since a reset, and whether the last page reset the
      worker and it has terminated. */
  datatype Pages = Pages(open: set<Port>, said: map<Port, bool>, asked: Option<string>, reset: bool, ended: bool)

  function After(p: Pages, step: Step): Pages {
    if p.ended then p
    else match step
      case Connect(port) => p.(open := p.open + {port})
      case SetVisible(port, visible) => if port in p.open then p.(said := p.said[port := visible]) else p
      case SetOptions(port, options) =>
        if port !in p.open then p
        else
          p.(asked := Some(options.settings),
             said := if port in p.said then p.said else p.said[port := options.foreground])
      case Close(port) => p.(open := p.open - {port}, said := p.said - {port})
      case Reset(port) =>
        if p.open == {port} then p.(open := {}, said := p.said - {port}, asked := None, reset := true) else p
      case StartCall => p
      case EndCall(_) => p
      case Terminate => p.(ended := p.reset)
  }

  function Told(steps: seq<Step>): Pages {
    if steps == [] then Pages({}, map[], None, false, false)
    else After(Told(steps[..|steps| - 1]), steps[|steps| - 1])
  }

  function Last(calls: seq<Call>): Call
    requires calls != []
  {
    calls[|calls| - 1]
  }

  /** Only open pages count, the recorded flag is current, and the last call of the queue, or the
      call that ended last, carries the last settings and will carry or carried the current flag. */
  ghost predicate Invariant(a: Activity, pages: Pages) {
    && Listened(a, pages) && Current(a, pages.asked)
  }

  ghost predicate Listened(a: Activity, pages: Pages) {
    && a.ports == pages.open && a.visibility == pages.said
    && a.stopping == pages.reset && a.terminated == pages.ended
  }

  ghost predicate Current(a: Activity, asked: Option<string>) {
    && a.visibility.Keys <= a.ports
    && (forall i :: 0 < i < |a.calls| ==> a.calls[i].Queued?)
    && asked == (if a.searchOptions.Some? then Some(a.searchOptions.value.settings) else None)
    && (asked.None? && !a.stopping ==> a.calls == [] && a.core.None?)
    && (a.searchOptions.Some? ==>
      && a.searchOptions.value.foreground == a.AnyVisible()
      && (a.calls != [] ==> Last(a.calls).options.settings == a.searchOptions.value.settings)
      && (a.calls != [] && Last(a.calls).Started? ==> Last(a.calls).options == a.searchOptions.value)
      && (a.calls == [] && !a.lastFailed ==> a.core == a.searchOptions))
  }

  lemma UpdateKeeps(a: Activity, b: Activity, asked: Option<string>)
    requires Current(a, asked) && b == a.(ports := b.ports, visibility := b.visibility)
    requires b.visibility.Keys <= b.ports
    ensures Current(b.UpdateForeground(), asked)
  {
  }

  lemma StepIsCurrent(a: Activity, pages: Pages, step: Step)
    requires Invariant(a, pages)
    ensures Current(Do(a, step), After(pages, step).asked)
  {
    match step
    case SetVisible(port, visible) =>
      if port in a.ports { UpdateKeeps(a, a.(visibility := a.visibility[port := visible]), pages.asked); }
    case Close(port) =>
      UpdateKeeps(a, a.(ports := a.ports - {port}, visibility := a.visibility - {port}), pages.asked);
    case Reset(port) =>
      var b := a.(searchOptions := None, stopping := true);
      UpdateKeeps(b, b.(ports := a.ports - {port}, visibility := a.visibility - {port}), None);
    case Connect(port) => assert a.(ports := a.ports + {port}).AnyVisible() == a.AnyVisible();
    case _ =>
  }

  lemma StepListens(a: Activity, pages: Pages, step: Step)
    requires Invariant(a, pages)
    ensures Listened(Do(a, step), After(pages, step))
  {
    match step
    case Close(port) =>
      if port !in a.ports {
        assert a.ports - {port} == a.ports;
        assert a.visibility - {port} == a.visibility;
      }
    case _ =>
  }

  lemma {:induction false} RunKeeps(steps: seq<Step>)
    ensures Invariant(Run(steps), Told(steps))
    decreases |steps|
  {
    if steps != [] {
      RunKeeps(steps[..|steps| - 1]);
      StepIsCurrent(Run(steps[..|steps| - 1]), Told(steps[..|steps| - 1]), steps[|steps| - 1]);
      StepListens(Run(steps[..|steps| - 1]), Told(steps[..|steps| - 1]), steps[|steps| - 1]);
    }
  }

  /** On every interleaving of visibility changes, closes, resets, requests and calls: once the queue
      has drained and its last call did not fail, the core holds the settings any page sent last, in
      the foreground exactly when some page still open said last that it is visible. It holds something
      else only when no page sent any since a reset, which stops the worker. Earlier failures do not
      matter. */
  lemma {:induction false} DrainedQueueIsCurrent(steps: seq<Step>)
    requires Run(steps).calls == [] && !Run(steps).lastFailed
    ensures var pages := Told(steps);
      var visible := exists p :: p in pages.open && p in pages.said && pages.said[p];
      match pages.asked
      case Some(settings) => Run(steps).core == Some(SearchOptions(settings, visible))
      case None => Run(steps).core.None? || pages.reset
  {
    RunKeeps(steps);
    var a, pages := Run(steps), Told(steps);
    assert a.AnyVisible() <==> exists p :: p in pages.open && p in pages.said && pages.said[p];
  }

  /** The worker ends exactly when it is told to after its last page has reset it. */
  lemma {:induction false} EndsAfterAReset(steps: seq<Step>)
    ensures Run(steps).terminated <==> Told(steps).ended
    ensures Run(steps).stopping <==> Told(steps).reset
  {
    RunKeeps(steps);
  }
}
