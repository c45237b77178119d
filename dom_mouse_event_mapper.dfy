/** The browser mouse-event mapper: raw DOM mouse events on the plot element
    (and, while dragging, on the document) pass through a small state machine
    that decides which plot mouse events are dispatched, with coordinates
    relative to the plot. */
module DomMouseEventMapper {
  import opened Common

  datatype DomEventType = CLICK | DOUBLE_CLICK | MOUSE_ENTER | MOUSE_LEAVE | MOUSE_DOWN | MOUSE_UP | MOUSE_MOVE | MOUSE_WHEEL

  datatype MouseEventSpec =
    | MOUSE_PRESSED | MOUSE_RELEASED | MOUSE_CLICKED | MOUSE_DOUBLE_CLICKED | MOUSE_MOVED
    | MOUSE_DRAGGED | MOUSE_ENTERED | MOUSE_LEFT | MOUSE_WHEEL_ROTATED

  /** A DOM mouse event. `client` is its client point (which the DOM also
      names x/y), `offset` its point relative to the element, `buttons` the
      pressed-buttons mask; `button` and `modifiers` are as decoded from the
      event; `wheelDeltaY` is present on wheel events. */
  datatype DomMouseEvent = DomMouseEvent(offset: Vec, client: Vec, buttons: int, button: int, modifiers: int,
                                         wheelDeltaY: Option<real>)

  /** The plot mouse event dispatched to the handlers. */
  datatype MouseEvent = MouseEvent(x: int, y: int, button: int, modifiers: int, wheelDeltaY: Option<real>)

  datatype Dispatched = Dispatched(spec: MouseEventSpec, event: MouseEvent)

  datatype MouseState = Hover | ButtonDown(eventCoord: Vec) | Dragging | ForeignDragging

  /** Moving further than this from the press point starts a drag. */
  const DRAGGING_TRIGGER_DISTANCE := 3.0

  /** Bounds membership, edges included. */
  predicate Contains(r: Rect, p: Vec) {
    r.Left() <= p.x <= r.Right() && r.Top() <= p.y <= r.Bottom()
  }

  /** Whether an element event is handled at all: inside the bounds, if any. */
  predicate NeedHandle(bounds: Option<Rect>, e: DomMouseEvent) {
    bounds.None? || Contains(bounds.value, e.offset)
  }

  /** The distance from `a` to `b` exceeds `d` (compared squared, for d >= 0). */
  predicate FurtherThan(a: Vec, b: Vec, d: real) {
    var v := a.Sub(b);
    v.x * v.x + v.y * v.y > d * d
  }

  /** The event translated into plot coordinates: the client point less the
      element's client origin and the bounds origin, truncated to integers. */
  function ToMouseEvent(e: DomMouseEvent, targetClientOrigin: Vec, bounds: Option<Rect>): (r: MouseEvent)
    ensures var p := e.client.Sub(targetClientOrigin).Sub(if bounds.Some? then bounds.value.origin else ZeroVec);
      r.x == Trunc(p.x) && r.y == Trunc(p.y)
    ensures r.button == e.button && r.modifiers == e.modifiers && r.wheelDeltaY == e.wheelDeltaY
  {
    var targetAbsoluteOrigin := if bounds.Some? then bounds.value.origin else ZeroVec;
    var p := e.client.Sub(targetClientOrigin).Sub(targetAbsoluteOrigin);
    MouseEvent(Trunc(p.x), Trunc(p.y), e.button, e.modifiers, e.wheelDeltaY)
  }

  /** One step of the machine: the next state and the event dispatched, if any. */
  datatype Transition = Transition(next: MouseState, dispatch: Option<MouseEventSpec>)

  /** The reaction of each state to an element event, as a table. */
  function HandleEvent(state: MouseState, t: DomEventType, e: DomMouseEvent): Transition {
    match state
    case Hover =>
      if t == MOUSE_DOWN then Transition(ButtonDown(e.client), Some(MOUSE_PRESSED))
      else if e.buttons > 0 then Transition(ForeignDragging, None)
      else Transition(Hover, HoverDispatch(t))
    case ButtonDown(eventCoord) =>
      if t == MOUSE_UP then Transition(state, Some(MOUSE_RELEASED))
      else if t == CLICK then Transition(Hover, Some(MOUSE_CLICKED))
      else if t == MOUSE_MOVE && FurtherThan(e.client, eventCoord, DRAGGING_TRIGGER_DISTANCE) then
        Transition(Dragging, Some(MOUSE_DRAGGED))
      else Transition(state, None)
    case Dragging => Transition(Dragging, None)
    case ForeignDragging =>
      if e.buttons > 0 then Transition(ForeignDragging, None) else Transition(Hover, None)
  }

  /** What Hover dispatches for an event with no button pressed. */
  function HoverDispatch(t: DomEventType): (r: Option<MouseEventSpec>)
    ensures r.None? <==> t in {MOUSE_UP, CLICK, MOUSE_DOWN}
  {
    match t
    case MOUSE_MOVE => Some(MOUSE_MOVED)
    case MOUSE_LEAVE => Some(MOUSE_LEFT)
    case MOUSE_ENTER => Some(MOUSE_ENTERED)
    case DOUBLE_CLICK => Some(MOUSE_DOUBLE_CLICKED)
    case MOUSE_WHEEL => Some(MOUSE_WHEEL_ROTATED)
    case _ => None
  }

  /** A press always starts a button-down at the press point, before the
      buttons mask is looked at. */
  lemma PressFromHover(e: DomMouseEvent)
    ensures HandleEvent(Hover, MOUSE_DOWN, e) == Transition(ButtonDown(e.client), Some(MOUSE_PRESSED))
  {
  }

  /** In Hover, any other event with a button held is a drag started
      elsewhere: it is swallowed and the machine waits for the release. */
  lemma ForeignDragFromHover(t: DomEventType, e: DomMouseEvent)
    requires t != MOUSE_DOWN && e.buttons > 0
    ensures HandleEvent(Hover, t, e) == Transition(ForeignDragging, None)
  {
  }

  /** Foreign dragging and dragging never dispatch element events, and only
      foreign dragging leaves, on an event with no button held. */
  lemma SilentStates(t: DomEventType, e: DomMouseEvent)
    ensures HandleEvent(ForeignDragging, t, e).dispatch.None?
    ensures HandleEvent(ForeignDragging, t, e).next == (if e.buttons > 0 then ForeignDragging else Hover)
    ensures HandleEvent(Dragging, t, e) == Transition(Dragging, None)
  {
  }

  /** From ButtonDown: a release stays, a click returns to Hover, a long move
      starts dragging; nothing else happens. */
  lemma ButtonDownMoves(p: Vec, t: DomEventType, e: DomMouseEvent)
    ensures var r := HandleEvent(ButtonDown(p), t, e);
      (r.next == Hover <==> t == CLICK) &&
      (r.next == Dragging <==> t == MOUSE_MOVE && FurtherThan(e.client, p, DRAGGING_TRIGGER_DISTANCE)) &&
      (r.next == ButtonDown(p) <==> r.dispatch.None? || t == MOUSE_UP) &&
      (r.dispatch.None? <==> t !in {MOUSE_UP, CLICK} && !(t == MOUSE_MOVE && FurtherThan(e.client, p, DRAGGING_TRIGGER_DISTANCE)))
  {
  }

  /** The squared comparison is the distance comparison of the source. */
  lemma FurtherThanIsDistance(a: Vec, b: Vec, d: real, len: real)
    requires d >= 0.0 && len >= 0.0
    requires len * len == (a.x - b.x) * (a.x - b.x) + (a.y - b.y) * (a.y - b.y)
    ensures FurtherThan(a, b, d) <==> len > d
  {
    if len > d {
      assert len * len > d * d by {
        assert len * len - d * d == (len - d) * (len + d);
        PositiveProduct(len - d, len + d);
      }
    } else {
      assert len * len <= d * d by {
        assert d * d - len * len == (d - len) * (d + len);
      }
    }
  }

  /** The machine run over a series of handled element events from `start`:
      the final state and the specs dispatched. */
  datatype Run = Run(state: MouseState, specs: seq<MouseEventSpec>)

  function RunEvents(start: MouseState, events: seq<(DomEventType, DomMouseEvent)>): Run {
    if |events| == 0 then Run(start, [])
    else
      var prev := RunEvents(start, events[..|events| - 1]);
      var t := HandleEvent(prev.state, events[|events| - 1].0, events[|events| - 1].1);
      Run(t.next, prev.specs + (if t.dispatch.Some? then [t.dispatch.value] else []))
  }

  predicate HoldsAfterPress(r: Run) {
    (r.state.ButtonDown? || r.state.Dragging?) ==> MOUSE_PRESSED in r.specs
  }

  predicate EndsDrag(spec: MouseEventSpec) {
    spec == MOUSE_RELEASED || spec == MOUSE_CLICKED || spec == MOUSE_DRAGGED
  }

  /** One step: a release, click or drag is dispatched only from a held
      button, and a button becomes held only by a press. */
  lemma StepAfterPress(state: MouseState, t: DomEventType, e: DomMouseEvent)
    ensures var r := HandleEvent(state, t, e);
      (r.dispatch.Some? && EndsDrag(r.dispatch.value) ==> state.ButtonDown? || state.Dragging?)
    ensures var r := HandleEvent(state, t, e);
      (r.next.ButtonDown? || r.next.Dragging?) ==> state.ButtonDown? || state.Dragging? || r.dispatch == Some(MOUSE_PRESSED)
  {
  }

  /** From Hover, a release, a click or a drag is only ever dispatched after a
      press, and the machine holds a button only after a press. */
  lemma {:induction false} PressComesFirst(events: seq<(DomEventType, DomMouseEvent)>)
    ensures HoldsAfterPress(RunEvents(Hover, events))
    ensures forall i :: 0 <= i < |RunEvents(Hover, events).specs| && EndsDrag(RunEvents(Hover, events).specs[i]) ==>
        MOUSE_PRESSED in RunEvents(Hover, events).specs[..i]
  {
    if |events| > 0 {
      var prev := RunEvents(Hover, events[..|events| - 1]);
      PressComesFirst(events[..|events| - 1]);
      var last := events[|events| - 1];
      StepAfterPress(prev.state, last.0, last.1);
      var r := RunEvents(Hover, events);
      assert r.specs[..|prev.specs|] == prev.specs;
      forall i | 0 <= i < |r.specs| && EndsDrag(r.specs[i])
        ensures MOUSE_PRESSED in r.specs[..i]
      {
        if i < |prev.specs| {
          assert r.specs[..i] == prev.specs[..i];
        } else {
          assert prev.specs <= r.specs[..i];
        }
      }
    }
  }

  lemma PositiveProduct(a: real, b: real)
    requires a > 0.0 && b > 0.0
    ensures a * b > 0.0
  {
  }

  /** The specs dispatched so far. */
  function Specs(ds: seq<Dispatched>): (r: seq<MouseEventSpec>)
    ensures |r| == |ds| && forall i :: 0 <= i < |ds| ==> r[i] == ds[i].spec
  {
    if |ds| == 0 then [] else Specs(ds[..|ds| - 1]) + [ds[|ds| - 1].spec]
  }

  class DomMouseEventMapper {
    const bounds: Option<Rect>
    var state: MouseState
    /** The events handed to the registered handlers, in order. */
    var dispatched: seq<Dispatched>

    /** A button is held (ButtonDown or Dragging) only after a press was dispatched. */
    ghost predicate Valid()
      reads this
    {
      (state.ButtonDown? || state.Dragging?) ==> MOUSE_PRESSED in Specs(dispatched)
    }

    constructor(bounds: Option<Rect>)
      ensures this.bounds == bounds && state == Hover && dispatched == []
      ensures Valid()
    {
      this.bounds := bounds;
      state := Hover;
      dispatched := [];
    }

    method Dispatch(spec: MouseEventSpec, e: DomMouseEvent, targetClientOrigin: Vec)
      modifies this
      ensures state == old(state)
      ensures dispatched == old(dispatched) + [Dispatched(spec, ToMouseEvent(e, targetClientOrigin, bounds))]
    {
      dispatched := dispatched + [Dispatched(spec, ToMouseEvent(e, targetClientOrigin, bounds))];
    }

    /** An event on the element. `targetClientOrigin` is the element's client
        origin at the time of the event. */
    method OnElementEvent(t: DomEventType, e: DomMouseEvent, targetClientOrigin: Vec)
      requires Valid()
      modifies this
      ensures Valid()
      ensures !NeedHandle(bounds, e) ==> state == old(state) && dispatched == old(dispatched)
      ensures NeedHandle(bounds, e) ==>
        state == HandleEvent(old(state), t, e).next &&
        dispatched == old(dispatched) + (if HandleEvent(old(state), t, e).dispatch.Some?
          then [Dispatched(HandleEvent(old(state), t, e).dispatch.value, ToMouseEvent(e, targetClientOrigin, bounds))]
          else [])
    {
      if !NeedHandle(bounds, e) {
        return;
      }
      match state {
        case Hover => HoverHandle(t, e, targetClientOrigin);
        case ButtonDown(eventCoord) =>
          if t == MOUSE_UP {
            Dispatch(MOUSE_RELEASED, e, targetClientOrigin);
          } else if t == CLICK {
            Dispatch(MOUSE_CLICKED, e, targetClientOrigin);
            state := Hover;
          } else if t == MOUSE_MOVE && FurtherThan(e.client, eventCoord, DRAGGING_TRIGGER_DISTANCE) {
            Dispatch(MOUSE_DRAGGED, e, targetClientOrigin);
            state := Dragging;
          }
        case Dragging =>
        case ForeignDragging =>
          if e.buttons <= 0 {
            state := Hover;
          }
      }
      assert Specs(old(dispatched)) <= Specs(dispatched);
    }

    method HoverHandle(t: DomEventType, e: DomMouseEvent, targetClientOrigin: Vec)
      requires state == Hover
      modifies this
      ensures state == HandleEvent(Hover, t, e).next
      ensures dispatched == old(dispatched) + (if HandleEvent(Hover, t, e).dispatch.Some?
          then [Dispatched(HandleEvent(Hover, t, e).dispatch.value, ToMouseEvent(e, targetClientOrigin, bounds))]
          else [])
    {
      if t == MOUSE_DOWN {
        Dispatch(MOUSE_PRESSED, e, targetClientOrigin);
        state := ButtonDown(e.client);
        return;
      }
      if e.buttons > 0 {
        state := ForeignDragging;
        return;
      }
      match t {
        case MOUSE_MOVE => Dispatch(MOUSE_MOVED, e, targetClientOrigin);
        case MOUSE_LEAVE => Dispatch(MOUSE_LEFT, e, targetClientOrigin);
        case MOUSE_ENTER => Dispatch(MOUSE_ENTERED, e, targetClientOrigin);
        case DOUBLE_CLICK => Dispatch(MOUSE_DOUBLE_CLICKED, e, targetClientOrigin);
        case MOUSE_WHEEL => Dispatch(MOUSE_WHEEL_ROTATED, e, targetClientOrigin);
        case _ =>
      }
    }

    /** A mouse move anywhere in the document; heard only while dragging, and
        not filtered by the bounds. */
    method OnDocumentMouseMove(e: DomMouseEvent, targetClientOrigin: Vec)
      requires Valid()
      modifies this
      ensures Valid()
      ensures state == old(state)
      ensures old(state) == Dragging ==>
        dispatched == old(dispatched) + [Dispatched(MOUSE_DRAGGED, ToMouseEvent(e, targetClientOrigin, bounds))]
      ensures old(state) != Dragging ==> dispatched == old(dispatched)
    {
      if state == Dragging {
        Dispatch(MOUSE_DRAGGED, e, targetClientOrigin);
        assert Specs(old(dispatched)) <= Specs(dispatched);
      }
    }

    /** A mouse release anywhere in the document; heard only while dragging:
        it ends the drag and the document listeners are removed. */
    method OnDocumentMouseUp(e: DomMouseEvent, targetClientOrigin: Vec)
      requires Valid()
      modifies this
      ensures Valid()
      ensures old(state) == Dragging ==> state == Hover
      ensures old(state) == Dragging ==>
        dispatched == old(dispatched) + [Dispatched(MOUSE_RELEASED, ToMouseEvent(e, targetClientOrigin, bounds))]
      ensures old(state) != Dragging ==> state == old(state) && dispatched == old(dispatched)
    {
      if state == Dragging {
        Dispatch(MOUSE_RELEASED, e, targetClientOrigin);
        state := Hover;
      }
    }
  }
}
