/**
  TOOL_MANAGER (include/tool/tool_manager.h): the registry of tools with its
  two indexes, the activation stack, the pass flag and the environment
  pointers, as a class whose methods update those fields in place.
*/
module ToolManager {
  import opened Common
  import opened ToolDispatch

  /** An environment pointer (EDA_ITEM, KiGfx::VIEW, VIEW_CONTROLS, wxWindow),
      stored and handed out, never interpreted. */
  type EnvRef = nat
  const NullRef: EnvRef := 0

  /** m_toolState, m_toolNameIndex and m_toolIdIndex describe the same tools:
      each record is filed under its own tool, and both indexes lead to
      exactly the records of the tools with that name or id. */
  ghost predicate IndexesAgree(states: map<ToolHandle, ToolState>, names: map<string, ToolHandle>,
                               ids: map<ToolId, ToolHandle>)
  {
    && (forall h :: h in states ==>
          && states[h].theTool.handle == h
          && states[h].theTool.name in names && names[states[h].theTool.name] == h
          && states[h].theTool.id in ids && ids[states[h].theTool.id] == h)
    && (forall n :: n in names ==> names[n] in states && states[names[n]].theTool.name == n)
    && (forall i :: i in ids ==> ids[i] in states && states[ids[i]].theTool.id == i)
  }

  /** The class invariant of TOOL_MANAGER, on the values of its fields. */
  ghost predicate ManagerInvariant(states: map<ToolHandle, ToolState>, names: map<string, ToolHandle>,
                                   ids: map<ToolId, ToolHandle>, stack: seq<ToolId>, current: Option<ToolHandle>)
  {
    && IndexesAgree(states, names, ids)
    && (forall i :: 0 <= i < |stack| ==> stack[i] in ids)
    && NoDup(stack)
    && (forall h :: h in states ==> WaitWellFormed(states[h]))
    && (current.Some? ==> current.value in states)
  }

  /** The walk's starting point for the fields' values. */
  function StartWalk(states: map<ToolHandle, ToolState>, current: Option<ToolHandle>): WalkState
  {
    WalkState(states, {}, false, false, current)
  }

  /**
    ProcessEvent keeps the invariant: after the walk, with the finished tools
    taken off the stack, the fields are consistent again; the event was
    consumed exactly when some tool on the stack wanted it; every tool that
    left the stack is idle.
  */
  lemma ProcessEventKeeps(states: map<ToolHandle, ToolState>, names: map<string, ToolHandle>,
                          ids: map<ToolId, ToolHandle>, stack: seq<ToolId>, current: Option<ToolHandle>,
                          ev: ToolEvent, run: Handlers)
    requires ManagerInvariant(states, names, ids, stack, current)
    ensures Indexed(stack, ids, states)
    ensures var r := Walk(stack, ids, ev, run, StartWalk(states, current));
      && ManagerInvariant(r.states, names, ids, Without(stack, r.finished), r.current)
      && (r.consumed <==> exists j :: 0 <= j < |stack| && Wants(states[ids[stack[j]]], ev))
      && (forall j :: 0 <= j < |stack| && stack[j] !in Without(stack, r.finished) ==>
            Idle(r.states[ids[stack[j]]]))
      && (forall j :: 0 <= j < |stack| ==>
            (stack[j] !in Without(stack, r.finished) <==>
               Reached(stack, ids, states, ev, run, j) && Wants(states[ids[stack[j]]], ev)
               && Idle(Deliver(states[ids[stack[j]]], ev, run))))
  {
    var init := StartWalk(states, current);
    assert Indexed(stack, ids, states);
    assert DistinctHandles(stack, ids) by {
      forall i, j | 0 <= i < j < |stack| ensures ids[stack[i]] != ids[stack[j]] {
        assert states[ids[stack[i]]].theTool.id == stack[i];
        assert states[ids[stack[j]]].theTool.id == stack[j];
      }
    }
    var r := Walk(stack, ids, ev, run, init);
    WalkKeepsRecords(stack, ids, ev, run, init);
    WalkConsumedIff(stack, ids, ev, run, init);
    WalkFinishedAreIdle(stack, ids, ev, run, init);
    WithoutNoDup(stack, r.finished);
    IndexesAgreeKept(states, r.states, names, ids);
    var rest := Without(stack, r.finished);
    forall i | 0 <= i < |rest| ensures rest[i] in ids {
      assert rest[i] in stack;
    }
  }

  /** Moving a registered tool to the top of the stack keeps the invariant. */
  lemma RaiseKeeps(states: map<ToolHandle, ToolState>, names: map<string, ToolHandle>,
                   ids: map<ToolId, ToolHandle>, stack: seq<ToolId>, current: Option<ToolHandle>, id: ToolId)
    requires ManagerInvariant(states, names, ids, stack, current)
    requires id in ids
    ensures ManagerInvariant(states, names, ids, [id] + Without(stack, {id}), current)
  {
    WithoutNoDup(stack, {id});
    var raised := [id] + Without(stack, {id});
    forall i, j | 0 <= i < j < |raised| ensures raised[i] != raised[j] {
      if i == 0 {
        assert raised[j] in Without(stack, {id});
      } else {
        assert raised[i] == Without(stack, {id})[i - 1] && raised[j] == Without(stack, {id})[j - 1];
      }
    }
    forall i | 0 <= i < |raised| ensures raised[i] in ids {
      if i > 0 {
        assert raised[i] in stack;
      }
    }
  }

  /** The activation stack with the tool moved to the top (push_front,
      after taking it out of its old place). */
  function Raised(stack: seq<ToolId>, id: ToolId): (r: seq<ToolId>)
    ensures |r| >= 1 && r[0] == id
    ensures forall x :: x in r <==> x == id || x in stack
  {
    [id] + Without(stack, {id})
  }

  /** The walk the activation event makes once the tool has been raised. */
  function ActivationWalk(states: map<ToolHandle, ToolState>, ids: map<ToolId, ToolHandle>, stack: seq<ToolId>,
                          current: Option<ToolHandle>, tool: Tool, run: Handlers): WalkState
    requires Indexed(Raised(stack, tool.id), ids, states)
  {
    Walk(Raised(stack, tool.id), ids, ActivationEvent(tool.name), run, StartWalk(states, current))
  }

  /**
    The invoked tool is the first to see its activation event: the event is
    delivered to it exactly when it wants it, and the tools below cannot
    change its record.
  */
  lemma {:induction false} ActivationReachesTool(states: map<ToolHandle, ToolState>, names: map<string, ToolHandle>,
                                                 ids: map<ToolId, ToolHandle>, stack: seq<ToolId>,
                                                 current: Option<ToolHandle>, tool: Tool, run: Handlers)
    requires ManagerInvariant(states, names, ids, stack, current)
    requires tool.handle in states && states[tool.handle].theTool == tool
    ensures Indexed(Raised(stack, tool.id), ids, states)
    ensures var st := states[tool.handle]; var ev := ActivationEvent(tool.name);
      && ActivationWalk(states, ids, stack, current, tool, run).states[tool.handle]
           == (if Wants(st, ev) then Deliver(st, ev, run) else st)
      && (Wants(st, ev) ==> ActivationWalk(states, ids, stack, current, tool, run).consumed)
  {
    RaiseKeeps(states, names, ids, stack, current, tool.id);
    var raised := Raised(stack, tool.id);
    var h := tool.handle;
    var ev := ActivationEvent(tool.name);
    var init := StartWalk(states, current);
    assert ids[tool.id] == h;
    var rest := raised[1..];
    assert rest == Without(stack, {tool.id});
    forall i | 0 <= i < |rest| ensures ids[rest[i]] != h {
      assert rest[i] in Without(stack, {tool.id});
      assert states[ids[rest[i]]].theTool.id == rest[i];
    }
    var st := states[h];
    if !Wants(st, ev) {
      WalkUntouchedOff(rest, ids, ev, run, init, h);
    } else {
      var st' := Deliver(st, ev, run);
      var passed := StepOf(st, ev, run).passed;
      var acc' := WalkState(init.states[h := st'],
                            if Idle(st') then init.finished + {raised[0]} else init.finished,
                            true, passed, Some(h));
      if passed {
        WalkUntouchedOff(rest, ids, ev, run, acc', h);
        WalkConsumedIff(rest, ids, ev, run, acc');
      }
    }
  }

  /** A walk keeps every record filed under its tool, so the indexes still agree. */
  lemma IndexesAgreeKept(states: map<ToolHandle, ToolState>, states': map<ToolHandle, ToolState>,
                         names: map<string, ToolHandle>, ids: map<ToolId, ToolHandle>)
    requires IndexesAgree(states, names, ids)
    requires states'.Keys == states.Keys
    requires forall h :: h in states' ==> states'[h].theTool == states[h].theTool
    ensures IndexesAgree(states', names, ids)
  {
  }

  /** The loop of ProcessEvent: visits the stack top first and stops after
      a tool whose handler did not pass the event. */
  method WalkStack(stack: seq<ToolId>, index: map<ToolId, ToolHandle>, ev: ToolEvent, run: Handlers,
                   init: WalkState) returns (acc: WalkState)
    requires Indexed(stack, index, init.states)
    ensures acc == Walk(stack, index, ev, run, init)
  {
    acc := init;
    var i := 0;
    var done := false;
    while i < |stack| && !done
      invariant 0 <= i <= |stack|
      invariant acc.states.Keys == init.states.Keys
      invariant done ==> Walk(stack, index, ev, run, init) == acc
      invariant !done ==> Walk(stack, index, ev, run, init) == Walk(stack[i..], index, ev, run, acc)
    {
      var h := index[stack[i]];
      var st := acc.states[h];
      assert stack[i..][0] == stack[i] && stack[i..][1..] == stack[i + 1..];
      var entry := EntryFor(st, ev);
      if entry.Some? {
        var out := run(st.theTool, entry.value);
        var st' := Schedule(Consume(st, ev), out);
        acc := WalkState(acc.states[h := st'],
                         if Idle(st') then acc.finished + {stack[i]} else acc.finished,
                         true, out.passed, Some(h));
        done := !out.passed;
      }
      i := i + 1;
    }
  }

  class ToolManager {
    var toolState: map<ToolHandle, ToolState>
    var toolNameIndex: map<string, ToolHandle>
    var toolIdIndex: map<ToolId, ToolHandle>
    /** The activation stack, top first. */
    var activeTools: seq<ToolId>

    var model: EnvRef
    var view: EnvRef
    var viewControls: EnvRef
    var editFrame: EnvRef
    var passEvent: bool
    var currentTool: Option<ToolHandle>

    ghost predicate Valid()
      reads this
    {
      ManagerInvariant(toolState, toolNameIndex, toolIdIndex, activeTools, currentTool)
    }

    /** The tool is the one registered under its handle. */
    ghost predicate Registered(tool: Tool)
      reads this
    {
      tool.handle in toolState && toolState[tool.handle].theTool == tool
    }

    constructor ()
      ensures Valid()
      ensures toolState == map[] && toolNameIndex == map[] && toolIdIndex == map[]
      ensures activeTools == [] && !passEvent && currentTool == None
      ensures model == NullRef && view == NullRef && viewControls == NullRef && editFrame == NullRef
    {
      toolState, toolNameIndex, toolIdIndex := map[], map[], map[];
      activeTools := [];
      model, view, viewControls, editFrame := NullRef, NullRef, NullRef, NullRef;
      passEvent := false;
      currentTool := None;
    }

    /**
      RegisterTool: files a fresh runtime record for the tool under its
      handle, its name and its id. A tool whose handle, name or id is already
      taken is refused and nothing changes.
    */
    method RegisterTool(tool: Tool) returns (ok: bool)
      requires Valid()
      modifies this
      ensures Valid()
      ensures ok <==> old(tool.handle !in toolState && tool.name !in toolNameIndex && tool.id !in toolIdIndex)
      ensures ok ==> toolState == old(toolState)[tool.handle := InitialState(tool)]
      ensures ok ==> toolNameIndex == old(toolNameIndex)[tool.name := tool.handle]
      ensures ok ==> toolIdIndex == old(toolIdIndex)[tool.id := tool.handle]
      ensures ok ==> FindToolById(tool.id) == Some(tool) && FindToolByName(tool.name) == Some(tool)
      ensures !ok ==> toolState == old(toolState) && toolNameIndex == old(toolNameIndex) && toolIdIndex == old(toolIdIndex)
      ensures activeTools == old(activeTools) && passEvent == old(passEvent) && currentTool == old(currentTool)
      ensures model == old(model) && view == old(view) && viewControls == old(viewControls) && editFrame == old(editFrame)
    {
      ok := tool.handle !in toolState && tool.name !in toolNameIndex && tool.id !in toolIdIndex;
      if ok {
        toolState := toolState[tool.handle := InitialState(tool)];
        toolNameIndex := toolNameIndex[tool.name := tool.handle];
        toolIdIndex := toolIdIndex[tool.id := tool.handle];
      }
    }

    /** FindTool by id: the registered tool with that id, or nothing. */
    function FindToolById(id: ToolId): (r: Option<Tool>)
      reads this
      requires Valid()
      ensures r.Some? <==> id in toolIdIndex
      ensures r.Some? ==> r.value.id == id && Registered(r.value)
    {
      if id in toolIdIndex then Some(toolState[toolIdIndex[id]].theTool) else None
    }

    /** FindTool by name: the registered tool with that name, or nothing. */
    function FindToolByName(name: string): (r: Option<Tool>)
      reads this
      requires Valid()
      ensures r.Some? <==> name in toolNameIndex
      ensures r.Some? ==> r.value.name == name && Registered(r.value)
    {
      if name in toolNameIndex then Some(toolState[toolNameIndex[name]].theTool) else None
    }

    /**
      ProcessEvent: the walk over the activation stack, top first (Walk);
      afterwards the tools the walk found finished leave the stack.
    */
    method ProcessEvent(ev: ToolEvent, run: Handlers) returns (consumed: bool)
      requires Valid()
      modifies this
      ensures toolNameIndex == old(toolNameIndex) && toolIdIndex == old(toolIdIndex)
      ensures model == old(model) && view == old(view) && viewControls == old(viewControls) && editFrame == old(editFrame)
      ensures Valid()
      ensures Indexed(old(activeTools), toolIdIndex, old(toolState))
      ensures var r := Walk(old(activeTools), toolIdIndex, ev, run, StartWalk(old(toolState), old(currentTool)));
        && consumed == r.consumed
        && toolState == r.states
        && activeTools == Without(old(activeTools), r.finished)
        && passEvent == r.passEvent
        && currentTool == r.current
      ensures consumed <==> exists j :: 0 <= j < |old(activeTools)| &&
                              Wants(old(toolState)[toolIdIndex[old(activeTools)[j]]], ev)
      ensures forall j :: 0 <= j < |old(activeTools)| && old(activeTools)[j] !in activeTools ==>
                Idle(toolState[toolIdIndex[old(activeTools)[j]]])
      ensures forall j :: 0 <= j < |old(activeTools)| ==>
                (old(activeTools)[j] !in activeTools <==>
                   Reached(old(activeTools), toolIdIndex, old(toolState), ev, run, j)
                   && Wants(old(toolState)[toolIdIndex[old(activeTools)[j]]], ev)
                   && Idle(Deliver(old(toolState)[toolIdIndex[old(activeTools)[j]]], ev, run)))
    {
      ProcessEventKeeps(toolState, toolNameIndex, toolIdIndex, activeTools, currentTool, ev, run);
      var r := WalkStack(activeTools, toolIdIndex, ev, run, StartWalk(toolState, currentTool));
      toolState := r.states;
      activeTools := Without(activeTools, r.finished);
      passEvent := r.passEvent;
      currentTool := r.current;
      consumed := r.consumed;
    }

    /**
      Activates a registered tool: it goes to the top of the activation stack
      (taken out of its old place if it was already active) and the
      activation event is processed. The tool stays on the stack unless its
      activation step left it idle.
    */
    method Activate(tool: Tool, run: Handlers)
      requires Valid() && Registered(tool)
      modifies this
      ensures toolNameIndex == old(toolNameIndex) && toolIdIndex == old(toolIdIndex)
      ensures model == old(model) && view == old(view) && viewControls == old(viewControls) && editFrame == old(editFrame)
      ensures Valid()
      ensures Indexed(Raised(old(activeTools), tool.id), toolIdIndex, old(toolState))
      ensures var r := ActivationWalk(old(toolState), toolIdIndex, old(activeTools), old(currentTool), tool, run);
        && toolState == r.states
        && activeTools == Without(Raised(old(activeTools), tool.id), r.finished)
        && passEvent == r.passEvent
        && currentTool == r.current
      ensures var st := old(toolState)[tool.handle]; var ev := ActivationEvent(tool.name);
        toolState[tool.handle] == if Wants(st, ev) then Deliver(st, ev, run) else st
      ensures forall x :: x in activeTools ==> x == tool.id || x in old(activeTools)
      ensures tool.id in activeTools ==> activeTools[0] == tool.id
      ensures tool.id in activeTools || Idle(toolState[tool.handle])
    {
      ActivationReachesTool(toolState, toolNameIndex, toolIdIndex, activeTools, currentTool, tool, run);
      RaiseKeeps(toolState, toolNameIndex, toolIdIndex, activeTools, currentTool, tool.id);
      var stack := Raised(activeTools, tool.id);
      activeTools := stack;
      var _ := ProcessEvent(ActivationEvent(tool.name), run);
      assert stack[0] == tool.id && stack[1..] == Without(old(activeTools), {tool.id});
    }

    /** InvokeTool by id: false, with nothing changed, when no tool has that
        id; otherwise the tool is activated and the result is true. */
    method InvokeTool(id: ToolId, run: Handlers) returns (ok: bool)
      requires Valid()
      modifies this
      ensures toolNameIndex == old(toolNameIndex) && toolIdIndex == old(toolIdIndex)
      ensures Valid()
      ensures ok <==> old(id in toolIdIndex)
      ensures !ok ==> toolState == old(toolState) && activeTools == old(activeTools)
                      && passEvent == old(passEvent) && currentTool == old(currentTool)
      ensures model == old(model) && view == old(view) && viewControls == old(viewControls) && editFrame == old(editFrame)
      ensures ok ==> var t := old(toolState)[toolIdIndex[id]].theTool;
                     && t.id == id
                     && Indexed(Raised(old(activeTools), id), toolIdIndex, old(toolState))
                     && var r := ActivationWalk(old(toolState), toolIdIndex, old(activeTools), old(currentTool), t, run);
                        && toolState == r.states
                        && activeTools == Without(Raised(old(activeTools), id), r.finished)
                        && passEvent == r.passEvent
                        && currentTool == r.current
      ensures ok ==> id in activeTools || Idle(toolState[toolIdIndex[id]])
      ensures ok && id in activeTools ==> activeTools[0] == id
    {
      var tool := FindToolById(id);
      if tool.None? {
        return false;
      }
      Activate(tool.value, run);
      ok := true;
    }

    /** InvokeTool by name, with the same outcome as by id. */
    method InvokeToolByName(name: string, run: Handlers) returns (ok: bool)
      requires Valid()
      modifies this
      ensures toolNameIndex == old(toolNameIndex) && toolIdIndex == old(toolIdIndex)
      ensures Valid()
      ensures ok <==> old(name in toolNameIndex)
      ensures !ok ==> toolState == old(toolState) && activeTools == old(activeTools)
                      && passEvent == old(passEvent) && currentTool == old(currentTool)
      ensures model == old(model) && view == old(view) && viewControls == old(viewControls) && editFrame == old(editFrame)
      ensures ok ==> var t := old(toolState)[toolNameIndex[name]].theTool;
                     && t.name == name
                     && Indexed(Raised(old(activeTools), t.id), toolIdIndex, old(toolState))
                     && var r := ActivationWalk(old(toolState), toolIdIndex, old(activeTools), old(currentTool), t, run);
                        && toolState == r.states
                        && activeTools == Without(Raised(old(activeTools), t.id), r.finished)
                        && passEvent == r.passEvent
                        && currentTool == r.current
      ensures ok ==> var t := toolState[toolNameIndex[name]].theTool;
                     && t.name == name
                     && (t.id in activeTools || Idle(toolState[toolNameIndex[name]]))
                     && (t.id in activeTools ==> activeTools[0] == t.id)
    {
      var tool := FindToolByName(name);
      if tool.None? {
        return false;
      }
      Activate(tool.value, run);
      ok := true;
    }

    /**
      ResetTool: empties the tool's transition list and its wait list, so a
      parked handler is dropped (`cancelled` says whether there was one).
      The tool keeps its place on the stack and no other tool's record
      changes.
    */
    method ResetTool(tool: Tool) returns (cancelled: bool)
      requires Valid() && Registered(tool)
      modifies this
      ensures Valid()
      ensures cancelled == old(toolState[tool.handle].pendingWait)
      ensures toolState == old(toolState)[tool.handle :=
                old(toolState[tool.handle]).(transitions := [], pendingWait := false, waitEvents := [])]
      ensures Idle(toolState[tool.handle])
      ensures activeTools == old(activeTools) && passEvent == old(passEvent) && currentTool == old(currentTool)
      ensures toolNameIndex == old(toolNameIndex) && toolIdIndex == old(toolIdIndex)
      ensures model == old(model) && view == old(view) && viewControls == old(viewControls) && editFrame == old(editFrame)
    {
      var st := toolState[tool.handle];
      cancelled := st.pendingWait;
      toolState := toolState[tool.handle := st.(transitions := [], pendingWait := false, waitEvents := [])];
    }

    /** ScheduleNextState: adds exactly one transition, (conditions, handler),
        at the end of the tool's list. */
    method ScheduleNextState(tool: Tool, handler: HandlerId, conditions: EventList)
      requires Valid() && Registered(tool)
      modifies this
      ensures Valid()
      ensures toolState == old(toolState)[tool.handle := old(toolState[tool.handle]).(
                transitions := old(toolState[tool.handle].transitions) + [Transition(conditions, handler)])]
      ensures activeTools == old(activeTools) && passEvent == old(passEvent) && currentTool == old(currentTool)
      ensures toolNameIndex == old(toolNameIndex) && toolIdIndex == old(toolIdIndex)
      ensures model == old(model) && view == old(view) && viewControls == old(viewControls) && editFrame == old(editFrame)
    {
      var st := toolState[tool.handle];
      toolState := toolState[tool.handle := st.(transitions := st.transitions + [Transition(conditions, handler)])];
    }

    /**
      ScheduleWait: parks the running handler of the tool until an event
      matching `conditions` arrives; ProcessEvent resumes it with the
      matching event (see EntryFor), and ResetTool drops it. Only one wait
      may be outstanding per tool.
    */
    method ScheduleWait(tool: Tool, conditions: EventList)
      requires Valid() && Registered(tool)
      requires !toolState[tool.handle].pendingWait
      modifies this
      ensures Valid()
      ensures toolState == old(toolState)[tool.handle :=
                old(toolState[tool.handle]).(pendingWait := true, waitEvents := conditions)]
      ensures activeTools == old(activeTools) && passEvent == old(passEvent) && currentTool == old(currentTool)
      ensures toolNameIndex == old(toolNameIndex) && toolIdIndex == old(toolIdIndex)
      ensures model == old(model) && view == old(view) && viewControls == old(viewControls) && editFrame == old(editFrame)
    {
      var st := toolState[tool.handle];
      toolState := toolState[tool.handle := st.(pendingWait := true, waitEvents := conditions)];
    }

    /** ScheduleContextMenu: stores the tool's menu and its trigger. */
    method ScheduleContextMenu(tool: Tool, menu: Option<MenuRef>, trigger: MenuTrigger)
      requires Valid() && Registered(tool)
      modifies this
      ensures Valid()
      ensures toolState == old(toolState)[tool.handle :=
                old(toolState[tool.handle]).(contextMenu := menu, contextMenuTrigger := trigger)]
      ensures activeTools == old(activeTools) && passEvent == old(passEvent) && currentTool == old(currentTool)
      ensures toolNameIndex == old(toolNameIndex) && toolIdIndex == old(toolIdIndex)
      ensures model == old(model) && view == old(view) && viewControls == old(viewControls) && editFrame == old(editFrame)
    {
      var st := toolState[tool.handle];
      toolState := toolState[tool.handle := st.(contextMenu := menu, contextMenuTrigger := trigger)];
    }

    /** PassEvent: lets the event go on to the next tool on the stack. */
    method PassEvent()
      modifies this`passEvent
      ensures passEvent
    {
      passEvent := true;
    }

    /** SetEnvironment: stores the four environment pointers. */
    method SetEnvironment(aModel: EnvRef, aView: EnvRef, aViewControls: EnvRef, aFrame: EnvRef)
      modifies this`model, this`view, this`viewControls, this`editFrame
      ensures GetModel() == aModel && GetView() == aView
      ensures GetViewControls() == aViewControls && GetEditFrame() == aFrame
    {
      model, view, viewControls, editFrame := aModel, aView, aViewControls, aFrame;
    }

    function GetView(): EnvRef
      reads this
    {
      view
    }

    function GetViewControls(): EnvRef
      reads this
    {
      viewControls
    }

    function GetModel(): EnvRef
      reads this
    {
      model
    }

    function GetEditFrame(): EnvRef
      reads this
    {
      editFrame
    }
  }
}
