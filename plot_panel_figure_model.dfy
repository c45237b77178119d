/** The Swing plot panel's figure model: it forwards interaction requests to
    the plot's tool-event dispatcher, keeps a record of the active interactions
    of each origin from the tool events that come back, and hands every tool
    event to the registered handler. */
module PlotPanelFigureModel {
  import opened Common

  // Tool event names.
  const INTERACTION_ACTIVATED := "interaction_activated"
  const INTERACTION_DEACTIVATED := "interaction_deactivated"

  /** A tool event: its name, the interaction's origin and the interaction's name. */
  datatype ToolEvent = ToolEvent(name: string, origin: string, interaction: string)

  /** The plot's tool-event dispatcher, as its responses: the events answering
      an activation request, and the event answering a deactivation, if any. */
  datatype ToolEventDispatcher = ToolEventDispatcher(
    activateInteraction: (string, Value) -> seq<ToolEvent>,
    deactivateInteraction: (string, string) -> Option<ToolEvent>)

  /** A registered tool-event handler, by identity. */
  type HandlerId = nat

  type Interactions = m: LinkedMap<string, seq<string>> | m.Valid() witness EmptyLinkedMap()

  /** The bookkeeping state: active interactions by origin, and the events
      delivered to handlers so far. */
  datatype FigState = FigState(active: Interactions, delivered: seq<(HandlerId, ToolEvent)>)

  /** The first occurrence of `x` removed, as `MutableList.remove` does. */
  function RemoveFirst(xs: seq<string>, x: string): (r: seq<string>)
    ensures x in xs ==> multiset(r) == multiset(xs) - multiset{x}
    ensures x !in xs ==> r == xs
  {
    if |xs| == 0 then []
    else if xs[0] == x then
      assert xs == [xs[0]] + xs[1..];
      xs[1..]
    else
      assert xs == [xs[0]] + xs[1..];
      [xs[0]] + RemoveFirst(xs[1..], x)
  }

  function Delivered(handler: Option<HandlerId>, event: ToolEvent): seq<(HandlerId, ToolEvent)> {
    if handler.Some? then [(handler.value, event)] else []
  }

  /** `processToolEvent`: an activation adds the interaction to its origin's
      list (creating it), a deactivation removes one occurrence from an
      existing list; then the handler, if any, gets the event. Any other event
      fails before either. */
  function Process(s: FigState, handler: Option<HandlerId>, event: ToolEvent): (r: Result<FigState>)
    ensures r.Err? <==> event.name !in {INTERACTION_ACTIVATED, INTERACTION_DEACTIVATED}
    ensures r.Err? ==> r.error.IllegalState?
    ensures r.Ok? ==> r.value.delivered == s.delivered + Delivered(handler, event)
  {
    if event.name == INTERACTION_ACTIVATED then
      var list := if event.origin in s.active.entries then s.active.entries[event.origin] else [];
      Ok(FigState(s.active.Put(event.origin, list + [event.interaction]), s.delivered + Delivered(handler, event)))
    else if event.name == INTERACTION_DEACTIVATED then
      var active := if event.origin in s.active.entries
                    then s.active.Put(event.origin, RemoveFirst(s.active.entries[event.origin], event.interaction))
                    else s.active;
      Ok(FigState(active, s.delivered + Delivered(handler, event)))
    else Err(IllegalState("Unexpected tool event"))
  }

  /** An activation appends the interaction to its origin's list, creating it
      if absent, and touches no other origin. */
  lemma ActivationAppends(s: FigState, handler: Option<HandlerId>, origin: string, name: string, other: string)
    requires other != origin
    ensures var r := Process(s, handler, ToolEvent(INTERACTION_ACTIVATED, origin, name)).value;
      origin in r.active.entries &&
      r.active.entries[origin] == (if origin in s.active.entries then s.active.entries[origin] else []) + [name] &&
      (other in r.active.entries <==> other in s.active.entries) &&
      (other in s.active.entries ==> r.active.entries[other] == s.active.entries[other])
  {
  }

  /** A deactivation removes one occurrence of the interaction from its
      origin's list; an unknown origin or interaction changes nothing. */
  lemma DeactivationRemovesOne(s: FigState, handler: Option<HandlerId>, origin: string, name: string)
    ensures var r := Process(s, handler, ToolEvent(INTERACTION_DEACTIVATED, origin, name)).value;
      r.active.entries.Keys == s.active.entries.Keys &&
      (origin in s.active.entries ==>
        multiset(r.active.entries[origin]) == multiset(s.active.entries[origin]) - multiset{name}) &&
      (origin !in s.active.entries || name !in s.active.entries[origin] ==> r.active.entries == s.active.entries)
  {
    var list := if origin in s.active.entries then s.active.entries[origin] else [];
    if origin in s.active.entries && name !in list {
      assert s.active.entries[origin := RemoveFirst(list, name)] == s.active.entries;
    }
  }

  /** Deactivating what was just activated restores the origin's interactions,
      as a multiset. */
  lemma ActivateThenDeactivate(s: FigState, handler: Option<HandlerId>, origin: string, name: string)
    ensures var s1 := Process(s, handler, ToolEvent(INTERACTION_ACTIVATED, origin, name)).value;
      var s2 := Process(s1, handler, ToolEvent(INTERACTION_DEACTIVATED, origin, name)).value;
      multiset(s2.active.entries[origin]) ==
        multiset(if origin in s.active.entries then s.active.entries[origin] else [])
  {
    var list := if origin in s.active.entries then s.active.entries[origin] else [];
    assert multiset(list + [name]) == multiset(list) + multiset{name};
  }

  /** A run of tool events, each processed in turn; the first failure stops it. */
  function ProcessAll(s: FigState, handler: Option<HandlerId>, events: seq<ToolEvent>): Result<FigState> {
    FoldResult(s, events, ProcessFn(handler))
  }

  function ProcessFn(handler: Option<HandlerId>): (FigState, ToolEvent) -> Result<FigState> {
    (s: FigState, e: ToolEvent) => Process(s, handler, e)
  }

  /** A run of events that fails at some event: the events before it took
      the state from `s0` to `s`, and that event fails on `s` with `e`. */
  ghost predicate FailedAt(s0: FigState, s: FigState, handler: Option<HandlerId>, events: seq<ToolEvent>, e: Error) {
    exists k :: 0 <= k < |events| && ProcessAll(s0, handler, events[..k]) == Ok(s) &&
      Process(s, handler, events[k]) == Err(e)
  }

  /** Every (origin, interaction) pair recorded, origin by origin. */
  function Pairs(active: Interactions, origins: seq<string>): seq<(string, string)>
    requires forall o :: o in origins ==> o in active.entries
  {
    if |origins| == 0 then []
    else
      var o := origins[|origins| - 1];
      Pairs(active, origins[..|origins| - 1]) + OriginPairs(o, active.entries[o])
  }

  function OriginPairs(o: string, list: seq<string>): (r: seq<(string, string)>)
    ensures |r| == |list| && forall k :: 0 <= k < |list| ==> r[k] == (o, list[k])
  {
    seq(|list|, k requires 0 <= k < |list| => (o, list[k]))
  }

  /** The snapshot holds every recorded pair and nothing else. */
  lemma {:induction false} PairsMembers(active: Interactions, origins: seq<string>, o: string, i: string)
    requires forall o :: o in origins ==> o in active.entries
    ensures (o, i) in Pairs(active, origins) <==> o in origins && i in active.entries[o]
  {
    if |origins| > 0 {
      var init, last := origins[..|origins| - 1], origins[|origins| - 1];
      PairsMembers(active, init, o, i);
      assert origins == init + [last];
      var op := OriginPairs(last, active.entries[last]);
      if (o, i) in op {
        var k :| 0 <= k < |op| && op[k] == (o, i);
      }
      if o == last && i in active.entries[last] {
        var k :| 0 <= k < |active.entries[last]| && active.entries[last][k] == i;
        assert op[k] == (o, i);
      }
    }
  }

  /** The deactivation responses for a snapshot of pairs, in order. */
  function Responses(d: ToolEventDispatcher, pairs: seq<(string, string)>): (r: seq<ToolEvent>)
    ensures |r| <= |pairs|
  {
    if |pairs| == 0 then []
    else
      var p := pairs[|pairs| - 1];
      var resp := d.deactivateInteraction(p.0, p.1);
      Responses(d, pairs[..|pairs| - 1]) + (if resp.Some? then [resp.value] else [])
  }

  class PlotPanelFigureModel {
    var handler: Option<HandlerId>
    var active: Interactions
    var delivered: seq<(HandlerId, ToolEvent)>
    var dispatcher: Option<ToolEventDispatcher>

    function State(): FigState
      reads this
    {
      FigState(active, delivered)
    }

    constructor(dispatcher: Option<ToolEventDispatcher>)
      ensures this.dispatcher == dispatcher && handler.None?
      ensures active.keys == [] && delivered == []
    {
      this.dispatcher := dispatcher;
      handler := None;
      active := EmptyLinkedMap();
      delivered := [];
    }

    /** `onToolEvent`: the callback replaces any earlier one. */
    method OnToolEvent(callback: HandlerId)
      modifies this
      ensures handler == Some(callback)
      ensures State() == old(State()) && dispatcher == old(dispatcher)
    {
      handler := Some(callback);
    }

    method ProcessToolEvent(event: ToolEvent) returns (err: Option<Error>)
      modifies this
      ensures handler == old(handler) && dispatcher == old(dispatcher)
      ensures var r := Process(old(State()), handler, event);
        (err.Some? <==> r.Err?) && (r.Err? ==> State() == old(State()) && err.value == r.error) &&
        (r.Ok? ==> State() == r.value)
    {
      if event.name == INTERACTION_ACTIVATED {
        var list := if event.origin in active.entries then active.entries[event.origin] else [];
        active := active.Put(event.origin, list + [event.interaction]);
      } else if event.name == INTERACTION_DEACTIVATED {
        if event.origin in active.entries {
          active := active.Put(event.origin, RemoveFirst(active.entries[event.origin], event.interaction));
        }
      } else {
        return Some(IllegalState("Unexpected tool event"));
      }
      if handler.Some? {
        delivered := delivered + [(handler.value, event)];
      }
      err := None;
    }

    /** Processes a series of tool events in order, stopping at the first
        failure. */
    method ProcessEvents(events: seq<ToolEvent>) returns (err: Option<Error>)
      modifies this
      ensures handler == old(handler) && dispatcher == old(dispatcher)
      ensures var r := ProcessAll(old(State()), handler, events);
        (err.Some? <==> r.Err?) && (r.Ok? ==> State() == r.value) && (r.Err? ==> err.value == r.error)
      ensures err.Some? ==> FailedAt(old(State()), State(), handler, events, err.value)
    {
      ghost var s0 := State();
      var i := 0;
      while i < |events|
        invariant 0 <= i <= |events|
        invariant handler == old(handler) && dispatcher == old(dispatcher)
        invariant ProcessAll(s0, handler, events[..i]) == Ok(State())
      {
        FoldResultNext(s0, events, ProcessFn(handler), i);
        var e := ProcessToolEvent(events[i]);
        if e.Some? {
          FoldResultErr(s0, events, ProcessFn(handler), i + 1);
          assert events[..i + 1][..i] == events[..i];
          assert FailedAt(s0, State(), handler, events, e.value) by {
            assert 0 <= i < |events| && ProcessAll(s0, handler, events[..i]) == Ok(State()) &&
              Process(State(), handler, events[i]) == Err(e.value);
          }
          return e;
        }
        i := i + 1;
      }
      assert events[..i] == events;
      err := None;
    }

    /** `activateInteraction`: without a dispatcher nothing happens; otherwise
        the dispatcher's response events are processed in order. */
    method ActivateInteraction(origin: string, interactionSpec: Value) returns (err: Option<Error>)
      modifies this
      ensures handler == old(handler) && dispatcher == old(dispatcher)
      ensures dispatcher.None? ==> State() == old(State()) && err.None?
      ensures dispatcher.Some? ==>
        var events := dispatcher.value.activateInteraction(origin, interactionSpec);
        var r := ProcessAll(old(State()), handler, events);
        (err.Some? <==> r.Err?) && (r.Ok? ==> State() == r.value) && (r.Err? ==> err.value == r.error) &&
        (err.Some? ==> FailedAt(old(State()), State(), handler, events, err.value))
    {
      if dispatcher.None? {
        return None;
      }
      var response := dispatcher.value.activateInteraction(origin, interactionSpec);
      err := ProcessEvents(response);
    }

    /** `deactivateInteractions`: every recorded (origin, interaction) pair is
        snapshotted first, and deactivation of each is requested in turn,
        whatever origin is passed. */
    method DeactivateInteractions(origin: string) returns (err: Option<Error>)
      modifies this
      ensures handler == old(handler) && dispatcher == old(dispatcher)
      ensures dispatcher.None? ==> State() == old(State()) && err.None?
      ensures dispatcher.Some? ==>
        var events := Responses(dispatcher.value, Pairs(old(active), old(active).keys));
        var r := ProcessAll(old(State()), handler, events);
        (err.Some? <==> r.Err?) && (r.Ok? ==> State() == r.value) && (r.Err? ==> err.value == r.error) &&
        (err.Some? ==> FailedAt(old(State()), State(), handler, events, err.value))
    {
      if dispatcher.None? {
        return None;
      }
      var pairs := Pairs(active, active.keys);
      // All responses are requested before any is processed; with a dispatcher
      // that is a pure function this order cannot be told from interleaving them.
      var responses := ResponsesOf(dispatcher.value, pairs);
      err := ProcessEvents(responses);
    }

    /** The view is rebuilt with a new plot component when the panel has a
        size; the dispatcher is then the new component's. */
    method RebuildPlotComponent(containerSized: bool, newDispatcher: Option<ToolEventDispatcher>)
      modifies this
      ensures dispatcher == (if containerSized then newDispatcher else old(dispatcher))
      ensures State() == old(State()) && handler == old(handler)
    {
      if containerSized {
        dispatcher := newDispatcher;
      }
    }
  }

  /** Asks the dispatcher about each pair in turn, keeping the responses given. */
  method ResponsesOf(d: ToolEventDispatcher, pairs: seq<(string, string)>) returns (r: seq<ToolEvent>)
    ensures r == Responses(d, pairs)
  {
    r := [];
    var i := 0;
    while i < |pairs|
      invariant 0 <= i <= |pairs|
      invariant r == Responses(d, pairs[..i])
    {
      assert pairs[..i + 1][..i] == pairs[..i];
      var resp := d.deactivateInteraction(pairs[i].0, pairs[i].1);
      if resp.Some? {
        r := r + [resp.value];
      }
      i := i + 1;
    }
    assert pairs[..i] == pairs;
  }
}
