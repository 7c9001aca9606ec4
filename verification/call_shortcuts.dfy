/** Global call shortcuts: native handles that come and go with focus, and the presses they report. */
module CallShortcuts {
  import opened Options

  type Binding(==, !new)

  datatype Id = Talk | Mute
  datatype Backend = Passive | Portal | Exclusive
  datatype Sent = Key(id: Id, pressed: bool) | Ready(backend: Backend) | Error

  /** What a native handle reports. */
  datatype Report = NativeReady | NativeError | NativeKey(id: Id, pressed: bool)

  /** A native handle ever opened, with the generation its callback remembers. */
  datatype Native = Native(generation: nat, backend: Backend, open: bool)

  /** `pressed` is in order of pressing; `handle` indexes the native handle held, in `natives`. */
  datatype Shortcuts = Shortcuts(
    handle: Option<nat>,
    generation: nat,
    pressed: seq<Id>,
    bindings: seq<Binding>,
    wayland: bool,
    focused: bool,
    backend: Option<Backend>,
    sent: seq<Sent>,
    natives: seq<Native>)
  {
    function Send(event: Sent): Shortcuts { this.(sent := sent + [event]) }

    function ReleaseAll(): Shortcuts { this.(sent := sent + Releases(pressed), pressed := []) }

    function Close(): Shortcuts {
      var closed := if handle.Some? && handle.value < |natives|
        then natives[handle.value := natives[handle.value].(open := false)] else natives;
      this.(generation := generation + 1, natives := closed, handle := None).ReleaseAll()
    }

    function Stop(): Shortcuts { Close().(bindings := [], backend := None) }

    function Open(next: Backend): Shortcuts {
      var withHandle :=
        this.(handle := Some(|natives|), natives := natives + [Native(generation, next, true)], backend := Some(next));
      if next.Portal? then withHandle else withHandle.Send(Ready(next))
    }

    /** `available` are the backends that can be opened now; the others throw. */
    function Start(available: set<Backend>): Shortcuts {
      var next := if wayland then Portal else Exclusive;
      if Passive in available then Open(Passive)
      else if next.Exclusive? && focused then this.(backend := Some(next)).Send(Ready(next))
      else if next in available then this.(backend := Some(next)).Open(next)
      else this.(backend := Some(next)).Stop().Send(Error)
    }

    function Configure(wanted: seq<Binding>, onWayland: bool, available: set<Backend>): Shortcuts {
      var stopped := Stop().(bindings := wanted, wayland := onWayland);
      if wanted == [] then stopped else stopped.Start(available)
    }

    function SetFocused(now: bool, available: set<Backend>): Shortcuts {
      if focused == now then this
      else
        var turned := this.(focused := now);
        if backend != Some(Exclusive) then turned
        else if now then turned.Close()
        else turned.Start(available)
    }

    function Notify(native: Native, report: Report): Shortcuts {
      if native.generation != generation then this
      else
        match report
        case NativeReady => Send(Ready(native.backend))
        case NativeError => Stop().Send(Error)
        case NativeKey(id, down) =>
          if down && focused && !native.backend.Portal? then this
          else if (id in pressed) == down then this
          else this.(pressed := if down then pressed + [id] else Without(pressed, id)).Send(Key(id, down))
    }
  }

  function Releases(pressed: seq<Id>): seq<Sent> {
    seq(|pressed|, i requires 0 <= i < |pressed| => Key(pressed[i], false))
  }

  function Without(ids: seq<Id>, id: Id): seq<Id> {
    if ids == [] then []
    else if ids[0] == id then Without(ids[1..], id)
    else [ids[0]] + Without(ids[1..], id)
  }

  function Created(): Shortcuts { Shortcuts(None, 0, [], [], false, false, None, [], []) }

  class CallShortcutsController {
    var handle: Option<nat>
    var generation: nat
    var pressed: seq<Id>
    var bindings: seq<Binding>
    var wayland: bool
    var focused: bool
    var backend: Option<Backend>
    var sent: seq<Sent>
    var natives: seq<Native>

    function State(): Shortcuts
      reads this
    {
      Shortcuts(handle, generation, pressed, bindings, wayland, focused, backend, sent, natives)
    }

    constructor ()
      ensures State() == Created()
    {
      handle, generation, pressed, bindings, wayland, focused, backend := None, 0, [], [], false, false, None;
      sent, natives := [], [];
    }

    method ReleaseAll()
      modifies this`sent, this`pressed
      ensures State() == old(State()).ReleaseAll()
    {
      for i := 0 to |pressed|
        invariant pressed == old(pressed) && sent == old(sent) + Releases(pressed[..i])
      {
        sent := sent + [Key(pressed[i], false)];
        assert Releases(pressed[..i + 1]) == Releases(pressed[..i]) + [Key(pressed[i], false)];
      }
      assert pressed[..|pressed|] == pressed;
      pressed := [];
    }

    method CloseHandle()
      modifies this
      ensures State() == old(State()).Close()
    {
      generation := generation + 1;
      if handle.Some? && handle.value < |natives| {
        natives := natives[handle.value := natives[handle.value].(open := false)];
      }
      handle := None;
      ReleaseAll();
    }

    method Stop()
      modifies this
      ensures State() == old(State()).Stop()
    {
      CloseHandle();
      bindings, backend := [], None;
    }

    method Open(next: Backend)
      modifies this
      ensures State() == old(State()).Open(next)
    {
      handle := Some(|natives|);
      natives := natives + [Native(generation, next, true)];
      backend := Some(next);
      if !next.Portal? { sent := sent + [Ready(next)]; }
    }

    method Start(available: set<Backend>)
      modifies this
      ensures State() == old(State()).Start(available)
    {
      if Passive in available {
        Open(Passive);
        return;
      }
      var next := if wayland then Portal else Exclusive;
      backend := Some(next);
      if next.Exclusive? && focused {
        sent := sent + [Ready(next)];
        return;
      }
      if next in available { Open(next); }
      else {
        Stop();
        sent := sent + [Error];
      }
    }

    method Configure(wanted: seq<Binding>, onWayland: bool, available: set<Backend>)
      modifies this
      ensures State() == old(State()).Configure(wanted, onWayland, available)
    {
      Stop();
      bindings, wayland := wanted, onWayland;
      if wanted != [] { Start(available); }
    }

    method SetFocused(now: bool, available: set<Backend>)
      modifies this
      ensures State() == old(State()).SetFocused(now, available)
    {
      if focused == now { return; }
      focused := now;
      if backend != Some(Exclusive) { return; }
      if now { CloseHandle(); } else { Start(available); }
    }

    method Notify(native: Native, report: Report)
      modifies this
      ensures State() == old(State()).Notify(native, report)
    {
      if native.generation != generation { return; }
      match report
      case NativeReady => sent := sent + [Ready(native.backend)];
      case NativeError =>
        Stop();
        sent := sent + [Error];
      case NativeKey(id, down) =>
        if down && focused && !native.backend.Portal? { return; }
        if (id in pressed) == down { return; }
        if down { pressed := pressed + [id]; } else { pressed := Without(pressed, id); }
        sent := sent + [Key(id, down)];
    }
  }

  // ---- runs ----

  datatype Step =
    | Configure(bindings: seq<Binding>, wayland: bool, available: set<Backend>)
    | Focus(focused: bool, available: set<Backend>)
    | Stop
    | ReleaseAll
    | Notify(native: nat, report: Report)

  /** Any handle ever opened may still report, closed or not. */
  function Do(s: Shortcuts, step: Step): Shortcuts {
    match step
    case Configure(bindings, wayland, available) => s.Configure(bindings, wayland, available)
    case Focus(focused, available) => s.SetFocused(focused, available)
    case Stop => s.Stop()
    case ReleaseAll => s.ReleaseAll()
    case Notify(native, report) => if native < |s.natives| then s.Notify(s.natives[native], report) else s
  }

  function Run(steps: seq<Step>): Shortcuts {
    if steps == [] then Created() else Do(Run(steps[..|steps| - 1]), steps[|steps| - 1])
  }

  /** What was sent about one shortcut. */
  function Keys(sent: seq<Sent>, id: Id): seq<bool> {
    if sent == [] then []
    else
      var last := sent[|sent| - 1];
      Keys(sent[..|sent| - 1], id) + if last.Key? && last.id == id then [last.pressed] else []
  }

  ghost predicate Alternate(keys: seq<bool>) {
    forall i :: 0 <= i < |keys| ==> keys[i] == (i % 2 == 0)
  }

  /** A shortcut is pressed exactly when its last event was a press. */
  ghost predicate KeysFit(sent: seq<Sent>, pressed: seq<Id>, id: Id) {
    Alternate(Keys(sent, id)) && (id in pressed <==> |Keys(sent, id)| % 2 == 1)
  }

  ghost predicate Distinct(ids: seq<Id>) {
    forall i, j :: 0 <= i < j < |ids| ==> ids[i] != ids[j]
  }

  ghost predicate AllKeysFit(s: Shortcuts) {
    Distinct(s.pressed) && forall id :: KeysFit(s.sent, s.pressed, id)
  }

  /** The open handle is the one held, of the current generation; older ones are closed for good. */
  ghost predicate NativesFit(s: Shortcuts) {
    && (forall i :: 0 <= i < |s.natives| ==>
          && s.natives[i].generation <= s.generation
          && (s.natives[i].open <==> s.handle == Some(i))
          && (s.natives[i].open <==> s.natives[i].generation == s.generation))
    && (s.handle.Some? ==> s.handle.value < |s.natives|)
  }

  ghost predicate HandlesFit(s: Shortcuts) {
    && NativesFit(s)
    && (s.handle.Some? ==> s.backend == Some(s.natives[s.handle.value].backend))
    && (s.backend == Some(Exclusive) && s.focused ==> s.handle.None?)
    && (s.backend == Some(Exclusive) && !s.focused ==> s.handle.Some?)
  }

  // ---- what every step keeps ----

  lemma KeysAfter(sent: seq<Sent>, event: Sent, id: Id)
    ensures Keys(sent + [event], id) == Keys(sent, id) + if event.Key? && event.id == id then [event.pressed] else []
  {
    assert (sent + [event])[..|sent|] == sent;
  }

  /** A key event that changes whether the shortcut is pressed carries its events on. */
  lemma KeysFitAfter(sent: seq<Sent>, before: seq<Id>, after: seq<Id>, event: Sent, id: Id)
    requires KeysFit(sent, before, id)
    requires if event.Key? && event.id == id then (id in before) != event.pressed && (id in after) == event.pressed
             else id in after <==> id in before
    ensures KeysFit(sent + [event], after, id)
  {
    KeysAfter(sent, event, id);
    if !(event.Key? && event.id == id) { assert Keys(sent, id) + [] == Keys(sent, id); }
  }

  lemma SendKeepsKeys(s: Shortcuts, event: Sent)
    requires AllKeysFit(s) && !event.Key?
    ensures AllKeysFit(s.Send(event))
  {
    forall id ensures KeysFit(s.sent + [event], s.pressed, id) {
      KeysFitAfter(s.sent, s.pressed, s.pressed, event, id);
    }
  }

  /** Releasing every pressed shortcut ends the events of each with a release. */
  lemma {:induction false} ReleasesFit(sent: seq<Sent>, pressed: seq<Id>, id: Id)
    requires Distinct(pressed) && KeysFit(sent, pressed, id)
    ensures KeysFit(sent + Releases(pressed), [], id)
    decreases |pressed|
  {
    if pressed == [] {
      assert sent + Releases(pressed) == sent;
    } else {
      var first := Key(pressed[0], false);
      assert sent + Releases(pressed) == (sent + [first]) + Releases(pressed[1..]);
      assert id in pressed <==> id == pressed[0] || id in pressed[1..];
      assert pressed[0] !in pressed[1..];
      KeysFitAfter(sent, pressed, pressed[1..], first, id);
      ReleasesFit(sent + [first], pressed[1..], id);
    }
  }

  lemma ReleaseKeepsKeys(s: Shortcuts)
    requires AllKeysFit(s)
    ensures AllKeysFit(s.ReleaseAll()) && s.ReleaseAll().pressed == []
  {
    forall id ensures KeysFit(s.ReleaseAll().sent, [], id) { ReleasesFit(s.sent, s.pressed, id); }
  }

  lemma StartKeepsKeys(s: Shortcuts, available: set<Backend>)
    requires AllKeysFit(s)
    ensures AllKeysFit(s.Start(available)) && (s.pressed == [] ==> s.Start(available).pressed == [])
  {
    ReleaseKeepsKeys(s);
    SendKeepsKeys(s, Ready(Passive));
    SendKeepsKeys(s, Ready(Exclusive));
    SendKeepsKeys(s.ReleaseAll(), Error);
  }

  lemma {:induction false} WithoutKeeps(ids: seq<Id>, id: Id)
    requires Distinct(ids)
    ensures Distinct(Without(ids, id))
    ensures forall other :: other in Without(ids, id) <==> other in ids && other != id
    decreases |ids|
  {
    if ids != [] {
      var rest := Without(ids[1..], id);
      WithoutKeeps(ids[1..], id);
      assert ids[0] !in ids[1..];
      assert forall i :: 0 <= i < |rest| ==> rest[i] in rest;
      assert forall other :: other in ids <==> other == ids[0] || other in ids[1..];
    }
  }

  lemma NotifyKeepsKeys(s: Shortcuts, native: Native, report: Report)
    requires AllKeysFit(s)
    ensures AllKeysFit(s.Notify(native, report))
  {
    match report
    case NativeReady => SendKeepsKeys(s, Ready(native.backend));
    case NativeError =>
      ReleaseKeepsKeys(s);
      SendKeepsKeys(s.Stop(), Error);
    case NativeKey(id, down) => KeyKeepsKeys(s, id, down);
  }

  lemma KeyKeepsKeys(s: Shortcuts, id: Id, down: bool)
    requires AllKeysFit(s)
    ensures (id in s.pressed) != down ==>
      AllKeysFit(s.(pressed := if down then s.pressed + [id] else Without(s.pressed, id)).Send(Key(id, down)))
  {
    hide KeysFit;
    WithoutKeeps(s.pressed, id);
    if (id in s.pressed) != down {
      var after := if down then s.pressed + [id] else Without(s.pressed, id);
      forall other ensures KeysFit(s.sent + [Key(id, down)], after, other) {
        assert KeysFit(s.sent, s.pressed, other);
        KeysFitAfter(s.sent, s.pressed, after, Key(id, down), other);
      }
    }
  }

  lemma StepKeepsKeys(s: Shortcuts, step: Step)
    requires AllKeysFit(s)
    ensures AllKeysFit(Do(s, step))
    ensures step.Stop? || step.Configure? || step.ReleaseAll? ==> Do(s, step).pressed == []
    ensures step.Focus? && step.focused && !s.focused && s.backend == Some(Exclusive) ==> Do(s, step).pressed == []
  {
    hide AllKeysFit, Shortcuts.Start, Shortcuts.Notify;
    ReleaseKeepsKeys(s);
    match step
    case Configure(bindings, wayland, available) =>
      SameKeys(s.ReleaseAll(), s.Stop().(bindings := bindings, wayland := wayland));
      StartKeepsKeys(s.Stop().(bindings := bindings, wayland := wayland), available);
    case Focus(focused, available) =>
      SameKeys(s, s.(focused := focused));
      SameKeys(s.ReleaseAll(), s.(focused := focused).Close());
      if s.focused != focused && !focused && s.backend == Some(Exclusive) {
        StartKeepsKeys(s.(focused := focused), available);
      }
    case Stop => SameKeys(s.ReleaseAll(), s.Stop());
    case ReleaseAll =>
    case Notify(native, report) => if native < |s.natives| { NotifyKeepsKeys(s, s.natives[native], report); }
  }

  lemma SameKeys(s: Shortcuts, other: Shortcuts)
    requires AllKeysFit(s) && other.sent == s.sent && other.pressed == s.pressed
    ensures AllKeysFit(other)
  {
  }

  lemma StartKeepsHandles(s: Shortcuts, available: set<Backend>)
    requires NativesFit(s) && s.handle.None?
    ensures HandlesFit(s.Start(available))
  {
  }

  lemma CloseKeepsHandles(s: Shortcuts)
    requires NativesFit(s)
    ensures NativesFit(s.Close()) && s.Close().handle.None?
    ensures s.Close().focused == s.focused && s.Close().backend == s.backend
  {
  }

  lemma StepKeepsHandles(s: Shortcuts, step: Step)
    requires HandlesFit(s)
    ensures HandlesFit(Do(s, step))
  {
    hide Shortcuts.Start, Shortcuts.Close, Shortcuts.Notify;
    CloseKeepsHandles(s);
    match step
    case Configure(bindings, wayland, available) =>
      StartKeepsHandles(s.Stop().(bindings := bindings, wayland := wayland), available);
    case Focus(focused, available) =>
      if s.handle.None? { StartKeepsHandles(s.(focused := focused), available); }
      CloseKeepsHandles(s.(focused := focused));
    case Stop =>
    case ReleaseAll =>
    case Notify(native, report) => if native < |s.natives| { NotifyKeepsHandles(s, s.natives[native], report); }
  }

  lemma NotifyKeepsHandles(s: Shortcuts, native: Native, report: Report)
    requires HandlesFit(s)
    ensures HandlesFit(s.Notify(native, report))
  {
    hide Shortcuts.Close;
    CloseKeepsHandles(s);
  }

  lemma {:induction false} RunKeeps(steps: seq<Step>)
    ensures AllKeysFit(Run(steps)) && HandlesFit(Run(steps))
    decreases |steps|
  {
    if steps != [] {
      RunKeeps(steps[..|steps| - 1]);
      StepKeepsKeys(Run(steps[..|steps| - 1]), steps[|steps| - 1]);
      StepKeepsHandles(Run(steps[..|steps| - 1]), steps[|steps| - 1]);
    }
  }

  // ---- the promises ----

  /** Each shortcut's events alternate, starting with a press, and end with one exactly while it is held. */
  lemma {:induction false} PressesAlternate(steps: seq<Step>, id: Id)
    ensures var s := Run(steps); Alternate(Keys(s.sent, id)) && (id in s.pressed <==> |Keys(s.sent, id)| % 2 == 1)
  {
    RunKeeps(steps);
    assert KeysFit(Run(steps).sent, Run(steps).pressed, id);
  }

  /** After a stop, a new configuration or a close for focus, every press has had its release. */
  lemma {:induction false} EveryPressIsReleased(steps: seq<Step>, step: Step, id: Id)
    requires step.Stop? || step.Configure? || step.ReleaseAll?
      || (step.Focus? && step.focused && !Run(steps).focused && Run(steps).backend == Some(Exclusive))
    ensures |Keys(Do(Run(steps), step).sent, id)| % 2 == 0
  {
    RunKeeps(steps);
    StepKeepsKeys(Run(steps), step);
    assert KeysFit(Do(Run(steps), step).sent, [], id);
  }

  /** A closed handle's reports change and send nothing. */
  lemma {:induction false} ClosedHandlesAreSilent(steps: seq<Step>, native: nat, report: Report)
    requires native < |Run(steps).natives| && !Run(steps).natives[native].open
    ensures Do(Run(steps), Notify(native, report)) == Run(steps)
  {
    RunKeeps(steps);
  }

  lemma {:induction false} OneHandleIsOpen(steps: seq<Step>, i: nat, j: nat)
    requires i < |Run(steps).natives| && j < |Run(steps).natives|
    requires Run(steps).natives[i].open && Run(steps).natives[j].open
    ensures i == j && Run(steps).backend == Some(Run(steps).natives[i].backend)
    ensures !(Run(steps).backend == Some(Exclusive) && Run(steps).focused)
  {
    RunKeeps(steps);
  }

  /** While the window has focus, only the portal's handle can start a press. */
  lemma {:induction false} FocusedPressesComeFromThePortal(steps: seq<Step>, step: Step, id: Id)
    requires Run(steps).focused && id !in Run(steps).pressed && id in Do(Run(steps), step).pressed
    ensures Run(steps).backend == Some(Portal)
  {
    RunKeeps(steps);
    hide Shortcuts.Start;
    var s := Run(steps);
    match step
    case Configure(bindings, wayland, available) => StepKeepsKeys(s, step);
    case Focus(focused, available) =>
      if s.backend == Some(Exclusive) { StartPressesNothing(s.(focused := focused), available); }
    case Stop =>
    case ReleaseAll =>
    case Notify(native, report) => WithoutKeeps(s.pressed, if report.NativeKey? then report.id else id);
  }

  lemma StartPressesNothing(s: Shortcuts, available: set<Backend>)
    ensures forall id :: id in s.Start(available).pressed ==> id in s.pressed
  {
  }

  // ---- what is opened, and what an open handle's reports do ----

  /** A native handle of this backend is open, and reports. */
  predicate Listens(s: Shortcuts, backend: Backend) {
    && s.handle.Some? && s.handle.value < |s.natives| && s.backend == Some(backend)
    && s.natives[s.handle.value].open && s.natives[s.handle.value].backend == backend
  }

  predicate SaidLast(s: Shortcuts, event: Sent) { s.sent != [] && s.sent[|s.sent| - 1] == event }

  /** Passive shortcuts wherever they can be had; otherwise the portal on Wayland and exclusive ones
      elsewhere, these held back while the window has focus; and otherwise none, and an error. */
  predicate Opened(s: Shortcuts, wayland: bool, available: set<Backend>) {
    if Passive in available then Listens(s, Passive) && SaidLast(s, Ready(Passive))
    else if wayland && Portal in available then Listens(s, Portal)
    else if !wayland && s.focused then s.backend == Some(Exclusive) && s.handle.None? && SaidLast(s, Ready(Exclusive))
    else if !wayland && Exclusive in available then Listens(s, Exclusive) && SaidLast(s, Ready(Exclusive))
    else s.backend == None && s.handle.None? && s.bindings == [] && SaidLast(s, Error)
  }

  /** Configuring opens the first backend it can, and losing focus opens what focus held back. */
  lemma {:induction false} FirstAvailableBackendOpens(steps: seq<Step>, wanted: seq<Binding>, wayland: bool,
      available: set<Backend>)
    requires wanted != []
    ensures var s := Run(steps); var configured := Do(s, Configure(wanted, wayland, available));
      && Opened(configured, wayland, available) && configured.focused == s.focused
      && (configured.backend.Some? ==> configured.bindings == wanted && configured.wayland == wayland)
    ensures var s := Run(steps); var unfocused := Do(s, Focus(false, available));
      s.focused && s.backend == Some(Exclusive) ==> Opened(unfocused, s.wayland, available)
  {
    RunKeeps(steps);
  }

  /** Focus closes an exclusive handle and leaves the others open; without bindings nothing is open. */
  lemma {:induction false} FocusHoldsBackOnlyExclusive(steps: seq<Step>, available: set<Backend>, wayland: bool)
    ensures var s := Run(steps); var focused := Do(s, Focus(true, available));
      && focused.backend == s.backend
      && (focused.handle == if s.backend == Some(Exclusive) && !s.focused then None else s.handle)
    ensures Do(Run(steps), Configure([], wayland, available)).handle.None?
      && Do(Run(steps), Configure([], wayland, available)).backend.None?
  {
  }

  /** A key report of the open handle is passed on and remembered exactly when it changes whether the
      shortcut is held, and is no press that focus keeps for the window itself. */
  lemma {:induction false} KeysAreSentExactlyWhen(steps: seq<Step>, native: nat, id: Id, down: bool)
    requires native < |Run(steps).natives| && Run(steps).natives[native].open
    ensures var s := Run(steps); var after := Do(s, Notify(native, NativeKey(id, down)));
      if (id in s.pressed) == down || (down && s.focused && s.backend != Some(Portal)) then after == s
      else
        && after.sent == s.sent + [Key(id, down)] && (id in after.pressed <==> down)
        && (forall other :: other != id ==> (other in after.pressed <==> other in s.pressed))
        && after.handle == s.handle && after.natives == s.natives && after.backend == s.backend
  {
    RunKeeps(steps);
    WithoutKeeps(Run(steps).pressed, id);
  }

  /** The open handle's status is passed on; an error also closes it. */
  lemma {:induction false} StatusIsSent(steps: seq<Step>, native: nat)
    requires native < |Run(steps).natives| && Run(steps).natives[native].open
    ensures var s := Run(steps);
      var ready, failed := Do(s, Notify(native, NativeReady)), Do(s, Notify(native, NativeError));
      && s.backend.Some? && ready == s.(sent := s.sent + [Ready(s.backend.value)])
      && failed.sent == s.sent + Releases(s.pressed) + [Error]
      && failed.pressed == [] && failed.handle.None? && failed.backend.None? && !failed.natives[native].open
  {
    RunKeeps(steps);
  }
}
