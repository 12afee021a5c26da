/**
  The value-level part of TOOL_MANAGER (include/tool/tool_manager.h): tool
  identities, events and the condition lists tools wait on, the per-tool
  runtime record (TOOL_STATE), and the walk over the activation stack that
  ProcessEvent performs for one event.

  Tool handlers are code the manager cannot see. A handler step is the
  parameter `run`: given the tool and how it is entered (a fresh transition
  handler started with the event, or a parked wait resumed with an event or
  with nothing), it reports what the step did through the manager before it
  returned or parked again: the transitions it scheduled (ScheduleNextState),
  the conditions it now waits on (ScheduleWait) and whether it called
  PassEvent.
*/
module ToolDispatch {
  import opened Common

  type ToolId = int
  /** Identity of a TOOL_BASE object: the key of m_toolState. */
  type ToolHandle = nat
  /** A TOOL_STATE_FUNC handler entry point. */
  type HandlerId = nat
  /** A CONTEXT_MENU pointer, never interpreted. */
  type MenuRef = nat

  // ---------------------------------------------------------------------
  // Tool identifiers

  /** One more than the largest Unicode scalar value. */
  const Radix: int := 0x11_0001

  /**
    MakeToolId: a tool id that depends on the name alone. The hash of the
    original is replaced by an injective encoding of the name (its characters
    as the digits of a base-Radix numeral, least significant first).
  */
  function MakeToolId(name: string): (id: ToolId)
    ensures id >= 0
    ensures id == 0 <==> name == []
  {
    if name == [] then 0 else (name[0] as int + 1) + Radix * MakeToolId(name[1..])
  }

  lemma DigitSplit(d1: int, q1: int, d2: int, q2: int)
    requires 0 < d1 < Radix && 0 < d2 < Radix
    requires d1 + Radix * q1 == d2 + Radix * q2
    ensures d1 == d2 && q1 == q2
  {
    var k := q2 - q1;
    assert d1 - d2 == Radix * k;
  }

  /** Different names never share an id, so the id and name indexes agree. */
  lemma {:induction false} MakeToolIdInjective(a: string, b: string)
    requires MakeToolId(a) == MakeToolId(b)
    ensures a == b
  {
    if a != [] && b != [] {
      assert a[0] as int < 0x11_0000 && b[0] as int < 0x11_0000;
      DigitSplit(a[0] as int + 1, MakeToolId(a[1..]), b[0] as int + 1, MakeToolId(b[1..]));
      MakeToolIdInjective(a[1..], b[1..]);
      assert a == [a[0]] + a[1..] && b == [b[0]] + b[1..];
    }
  }

  // ---------------------------------------------------------------------
  // Events and condition lists

  /** The category and action of a TOOL_EVENT: what conditions match on. */
  datatype EventTag = EventTag(category: int, action: int)

  /** A TOOL_EVENT: its tag and an optional command string. */
  datatype ToolEvent = ToolEvent(tag: EventTag, command: string)

  /** A TOOL_EVENT_LIST: the event shapes a tool wants. */
  type EventList = seq<EventTag>

  /** The command category and the tool-activation action (tool_event.h is
      not part of this model; these two values only need to be fixed). */
  const CommandCategory: int := 4
  const ActivateAction: int := 1

  /** The event InvokeTool sends to the tool it activates. */
  function ActivationEvent(toolName: string): (ev: ToolEvent)
    ensures ev.tag == EventTag(CommandCategory, ActivateAction) && ev.command == toolName
  {
    ToolEvent(EventTag(CommandCategory, ActivateAction), toolName)
  }

  predicate Matches(ev: ToolEvent, conditions: EventList)
  {
    ev.tag in conditions
  }

  // ---------------------------------------------------------------------
  // Tool runtime state

  /** TRANSITION: a condition list and the handler it starts. */
  datatype Transition = Transition(conditions: EventList, handler: HandlerId)

  /** CONTEXT_MENU_TRIGGER: CMENU_NOW, CMENU_BUTTON, CMENU_OFF. */
  datatype MenuTrigger = MenuNow | MenuButton | MenuOff

  /** A registered tool as the manager sees it: object identity, id, name. */
  datatype Tool = Tool(handle: ToolHandle, id: ToolId, name: string)

  /**
    TOOL_STATE: the pending transitions, the wait a parked handler is blocked
    on (pendingWait and its condition list), and the context-menu setting.
  */
  datatype ToolState = ToolState(
    theTool: Tool,
    transitions: seq<Transition>,
    pendingWait: bool,
    waitEvents: EventList,
    contextMenu: Option<MenuRef>,
    contextMenuTrigger: MenuTrigger)

  /** The record RegisterTool creates: nothing scheduled, nothing parked,
      context menu off. */
  function InitialState(tool: Tool): (st: ToolState)
    ensures st.theTool == tool && Idle(st) && WaitWellFormed(st)
    ensures st.contextMenu == None && st.contextMenuTrigger == MenuOff
  {
    ToolState(tool, [], false, [], None, MenuOff)
  }

  /** The wait list is empty whenever no handler is parked. */
  predicate WaitWellFormed(st: ToolState)
  {
    !st.pendingWait ==> st.waitEvents == []
  }

  /** A tool with nothing scheduled and nothing parked has finished. */
  predicate Idle(st: ToolState)
  {
    st.transitions == [] && !st.pendingWait
  }

  // ---------------------------------------------------------------------
  // Entering a handler

  /** How a handler is entered: a fresh start of a transition's handler with
      the event, or the resumption of a parked ScheduleWait with its result. */
  datatype Entry = Start(handler: HandlerId, event: ToolEvent) | Resume(wakeup: Option<ToolEvent>)

  /** What one handler step did before it returned or parked again: the
      transitions it scheduled, the wait it parked on, whether it passed the
      event, and the context menu it set (ScheduleContextMenu may be called
      from the handler). */
  datatype StepOutcome = StepOutcome(scheduled: seq<Transition>, waitOn: Option<EventList>, passed: bool,
                                     menu: Option<(Option<MenuRef>, MenuTrigger)>)

  type Handlers = (Tool, Entry) -> StepOutcome

  /** The position of the first transition whose conditions match `ev`. */
  function FirstMatch(ts: seq<Transition>, ev: ToolEvent): (k: Option<nat>)
    ensures k.Some? ==> k.value < |ts| && Matches(ev, ts[k.value].conditions)
    ensures k.Some? ==> forall j :: 0 <= j < k.value ==> !Matches(ev, ts[j].conditions)
    ensures k.None? ==> forall j :: 0 <= j < |ts| ==> !Matches(ev, ts[j].conditions)
  {
    if ts == [] then None
    else if Matches(ev, ts[0].conditions) then Some(0)
    else match FirstMatch(ts[1..], ev)
      case None => None
      case Some(k) => Some(k + 1)
  }

  /**
    Which handler `ev` enters in a tool, if any. A parked handler has
    priority: while a wait is pending only that wait can be resumed, and it
    is resumed with the event itself, which matches the wait's conditions.
    Otherwise the first matching transition's handler starts.
  */
  function EntryFor(st: ToolState, ev: ToolEvent): (e: Option<Entry>)
    ensures st.pendingWait ==> (e.Some? <==> Matches(ev, st.waitEvents))
    ensures st.pendingWait && e.Some? ==> e.value == Resume(Some(ev))
    ensures !st.pendingWait ==> (e.Some? <==> exists k :: 0 <= k < |st.transitions| && Matches(ev, st.transitions[k].conditions))
    ensures e.Some? && e.value.Resume? ==> e.value.wakeup.Some? && Matches(e.value.wakeup.value, st.waitEvents)
    ensures e.Some? && e.value.Start? ==> e.value.event == ev
  {
    if st.pendingWait then
      if Matches(ev, st.waitEvents) then Some(Resume(Some(ev))) else None
    else
      match FirstMatch(st.transitions, ev)
      case None => None
      case Some(k) => Some(Start(st.transitions[k].handler, ev))
  }

  predicate Wants(st: ToolState, ev: ToolEvent)
  {
    EntryFor(st, ev).Some?
  }

  function RemoveAt<T>(s: seq<T>, k: nat): (r: seq<T>)
    requires k < |s|
    ensures |r| == |s| - 1
    ensures multiset(r) + multiset{s[k]} == multiset(s)
  {
    assert s == s[..k] + [s[k]] + s[k + 1..];
    s[..k] + s[k + 1..]
  }

  /** The matched part of a tool's state is used up before its handler runs:
      the parked wait is cleared, or the matched transition is removed. */
  function Consume(st: ToolState, ev: ToolEvent): ToolState
    requires Wants(st, ev)
  {
    if st.pendingWait then st.(pendingWait := false, waitEvents := [])
    else st.(transitions := RemoveAt(st.transitions, FirstMatch(st.transitions, ev).value))
  }

  /** Records what a handler step scheduled: its new transitions are added,
      and a new wait parks it again. */
  function Schedule(st: ToolState, out: StepOutcome): ToolState
  {
    var st' := match out.menu
      case None => st
      case Some(m) => st.(contextMenu := m.0, contextMenuTrigger := m.1);
    match out.waitOn
    case None => st'.(transitions := st'.transitions + out.scheduled)
    case Some(c) => st'.(transitions := st'.transitions + out.scheduled, pendingWait := true, waitEvents := c)
  }

  /** The outcome of the handler step `ev` enters in this tool. */
  function StepOf(st: ToolState, ev: ToolEvent, run: Handlers): StepOutcome
    requires Wants(st, ev)
  {
    run(st.theTool, EntryFor(st, ev).value)
  }

  /** The tool's state after `ev` has been delivered to it. */
  function Deliver(st: ToolState, ev: ToolEvent, run: Handlers): ToolState
    requires Wants(st, ev)
  {
    Schedule(Consume(st, ev), StepOf(st, ev, run))
  }

  /** Starting a transition's handler uses up exactly that one transition;
      what the handler schedules is added. */
  lemma DeliverConsumesOneTransition(st: ToolState, ev: ToolEvent, run: Handlers)
    requires Wants(st, ev) && !st.pendingWait
    ensures var out := StepOf(st, ev, run);
      var k := FirstMatch(st.transitions, ev).value;
      && |Deliver(st, ev, run).transitions| == |st.transitions| - 1 + |out.scheduled|
      && multiset(Deliver(st, ev, run).transitions) + multiset{st.transitions[k]}
         == multiset(st.transitions) + multiset(out.scheduled)
      && EntryFor(st, ev) == Some(Start(st.transitions[k].handler, ev))
      && Deliver(st, ev, run).pendingWait == out.waitOn.Some?
  {
  }

  /** Resuming a parked handler clears that wait: the tool is parked again
      only if the resumed handler waits again, and the pending transitions
      are those it had plus those the handler added. */
  lemma DeliverResumesWaitOnce(st: ToolState, ev: ToolEvent, run: Handlers)
    requires Wants(st, ev) && st.pendingWait
    ensures var out := StepOf(st, ev, run);
      && Deliver(st, ev, run).pendingWait == out.waitOn.Some?
      && Deliver(st, ev, run).transitions == st.transitions + out.scheduled
      && (out.waitOn.None? ==> Deliver(st, ev, run).waitEvents == [])
  {
  }

  /** Delivery keeps the tool's identity and the wait-list invariant; the
      context menu is the one the handler step set, and otherwise stays. */
  lemma DeliverKeeps(st: ToolState, ev: ToolEvent, run: Handlers)
    requires Wants(st, ev) && WaitWellFormed(st)
    ensures var d := Deliver(st, ev, run); var out := StepOf(st, ev, run);
      && d.theTool == st.theTool
      && (out.menu.None? ==> d.contextMenu == st.contextMenu && d.contextMenuTrigger == st.contextMenuTrigger)
      && (out.menu.Some? ==> d.contextMenu == out.menu.value.0 && d.contextMenuTrigger == out.menu.value.1)
      && WaitWellFormed(d)
  {
  }

  // ---------------------------------------------------------------------
  // The activation stack

  /** No tool id occurs twice. */
  predicate NoDup(s: seq<ToolId>)
  {
    forall i, j :: 0 <= i < j < |s| ==> s[i] != s[j]
  }

  /** The stack with the ids in `drop` taken out, order kept. */
  function Without(s: seq<ToolId>, drop: set<ToolId>): (r: seq<ToolId>)
    ensures forall x :: x in r <==> x in s && x !in drop
    ensures |r| <= |s|
  {
    if s == [] then []
    else (if s[0] in drop then [] else [s[0]]) + Without(s[1..], drop)
  }

  lemma {:induction false} WithoutNoDup(s: seq<ToolId>, drop: set<ToolId>)
    requires NoDup(s)
    ensures NoDup(Without(s, drop))
  {
    if s != [] {
      assert NoDup(s[1..]) by {
        forall i, j | 0 <= i < j < |s[1..]| ensures s[1..][i] != s[1..][j] {
          assert s[1..][i] == s[i + 1] && s[1..][j] == s[j + 1];
        }
      }
      WithoutNoDup(s[1..], drop);
      var rest := Without(s[1..], drop);
      if s[0] !in drop {
        assert s[0] !in rest by {
          forall k | 0 <= k < |s[1..]| ensures s[1..][k] != s[0] {
            assert s[1..][k] == s[k + 1];
          }
        }
        var r := [s[0]] + rest;
        forall i, j | 0 <= i < j < |r| ensures r[i] != r[j] {
          if i == 0 {
            assert r[j] == rest[j - 1];
          } else {
            assert r[i] == rest[i - 1] && r[j] == rest[j - 1];
          }
        }
      } else {
        assert Without(s, drop) == rest;
      }
    }
  }

  /** Distinct positions of the stack name distinct tool records. */
  predicate DistinctHandles(stack: seq<ToolId>, index: map<ToolId, ToolHandle>)
    requires forall i :: 0 <= i < |stack| ==> stack[i] in index
  {
    forall i, j :: 0 <= i < j < |stack| ==> index[stack[i]] != index[stack[j]]
  }

  // ---------------------------------------------------------------------
  // The walk ProcessEvent performs for one event

  /** The state a walk carries along: the tool records, the tools found
      finished, whether anyone consumed the event, the pass flag and the
      tool that ran last (m_currentTool). */
  datatype WalkState = WalkState(
    states: map<ToolHandle, ToolState>,
    finished: set<ToolId>,
    consumed: bool,
    passEvent: bool,
    current: Option<ToolHandle>)

  /** Every id on the stack names a tool record. */
  predicate Indexed(stack: seq<ToolId>, index: map<ToolId, ToolHandle>, states: map<ToolHandle, ToolState>)
  {
    forall i :: 0 <= i < |stack| ==> stack[i] in index && index[stack[i]] in states
  }

  /**
    ProcessEvent's walk from the top of the stack down: the first tool that
    wants the event gets it; the walk goes on below that tool only if its
    handler passed the event. A tool left idle by its step is finished.
  */
  function Walk(stack: seq<ToolId>, index: map<ToolId, ToolHandle>, ev: ToolEvent, run: Handlers, acc: WalkState): (r: WalkState)
    requires Indexed(stack, index, acc.states)
    ensures r.states.Keys == acc.states.Keys
    decreases |stack|
  {
    if stack == [] then acc
    else
      var h := index[stack[0]];
      var st := acc.states[h];
      if !Wants(st, ev) then Walk(stack[1..], index, ev, run, acc)
      else
        var st' := Deliver(st, ev, run);
        var passed := StepOf(st, ev, run).passed;
        var acc' := WalkState(acc.states[h := st'],
                              if Idle(st') then acc.finished + {stack[0]} else acc.finished,
                              true, passed, Some(h));
        if passed then Walk(stack[1..], index, ev, run, acc') else acc'
  }

  /** The tool at position j is reached: every tool above it that wanted the
      event passed it on. */
  ghost predicate Reached(stack: seq<ToolId>, index: map<ToolId, ToolHandle>, states: map<ToolHandle, ToolState>,
                          ev: ToolEvent, run: Handlers, j: int)
    requires Indexed(stack, index, states)
  {
    forall k :: 0 <= k < j && k < |stack| && Wants(states[index[stack[k]]], ev) ==>
      StepOf(states[index[stack[k]]], ev, run).passed
  }

  /** The walk keeps the set of tool records, each record's tool, and the
      wait-list invariant; the last tool to run is a registered one. */
  lemma {:induction false} WalkKeepsRecords(stack: seq<ToolId>, index: map<ToolId, ToolHandle>, ev: ToolEvent, run: Handlers, acc: WalkState)
    requires Indexed(stack, index, acc.states)
    requires forall h :: h in acc.states ==> WaitWellFormed(acc.states[h])
    requires acc.current.Some? ==> acc.current.value in acc.states
    ensures var r := Walk(stack, index, ev, run, acc);
      && r.states.Keys == acc.states.Keys
      && (forall h :: h in r.states ==> r.states[h].theTool == acc.states[h].theTool && WaitWellFormed(r.states[h]))
      && (r.current.Some? ==> r.current.value in r.states)
      && acc.finished <= r.finished
    decreases |stack|
  {
    if stack != [] {
      var h := index[stack[0]];
      var st := acc.states[h];
      if !Wants(st, ev) {
        WalkKeepsRecords(stack[1..], index, ev, run, acc);
      } else {
        DeliverKeeps(st, ev, run);
        var st' := Deliver(st, ev, run);
        var acc' := WalkState(acc.states[h := st'],
                              if Idle(st') then acc.finished + {stack[0]} else acc.finished,
                              true, StepOf(st, ev, run).passed, Some(h));
        if StepOf(st, ev, run).passed {
          WalkKeepsRecords(stack[1..], index, ev, run, acc');
        }
      }
    }
  }

  /** The event is consumed exactly when some tool on the stack wants it. */
  lemma {:induction false} WalkConsumedIff(stack: seq<ToolId>, index: map<ToolId, ToolHandle>, ev: ToolEvent, run: Handlers, acc: WalkState)
    requires Indexed(stack, index, acc.states)
    ensures Walk(stack, index, ev, run, acc).consumed <==>
      acc.consumed || exists j :: 0 <= j < |stack| && Wants(acc.states[index[stack[j]]], ev)
    decreases |stack|
  {
    if stack != [] {
      var h := index[stack[0]];
      var st := acc.states[h];
      if !Wants(st, ev) {
        WalkConsumedIff(stack[1..], index, ev, run, acc);
        if exists j :: 0 <= j < |stack| && Wants(acc.states[index[stack[j]]], ev) {
          var j :| 0 <= j < |stack| && Wants(acc.states[index[stack[j]]], ev);
          assert stack[1..][j - 1] == stack[j];
        }
      } else {
        var st' := Deliver(st, ev, run);
        var acc' := WalkState(acc.states[h := st'],
                              if Idle(st') then acc.finished + {stack[0]} else acc.finished,
                              true, StepOf(st, ev, run).passed, Some(h));
        if StepOf(st, ev, run).passed {
          WalkConsumedIff(stack[1..], index, ev, run, acc');
        }
      }
    }
  }

  /** A tool leaves the stack exactly when it is reached, wants the event
      and its step leaves it idle; the record of a finished tool is still
      idle at the end of the walk, and no tool that had finished comes back. */
  lemma {:induction false} WalkFinishedAreIdle(stack: seq<ToolId>, index: map<ToolId, ToolHandle>, ev: ToolEvent, run: Handlers, acc: WalkState)
    requires Indexed(stack, index, acc.states)
    requires DistinctHandles(stack, index)
    ensures var r := Walk(stack, index, ev, run, acc);
      && acc.finished <= r.finished
      && (forall id :: id in r.finished ==> id in acc.finished || id in stack)
      && (forall i :: 0 <= i < |stack| && stack[i] !in acc.finished ==>
            (stack[i] in r.finished <==>
               Reached(stack, index, acc.states, ev, run, i) && Wants(acc.states[index[stack[i]]], ev)
               && Idle(Deliver(acc.states[index[stack[i]]], ev, run))))
      && (forall i :: 0 <= i < |stack| && stack[i] in r.finished && stack[i] !in acc.finished ==>
            Idle(r.states[index[stack[i]]]))
    decreases |stack|
  {
    if stack != [] {
      var h := index[stack[0]];
      var st := acc.states[h];
      var rest := stack[1..];
      assert DistinctHandles(rest, index) by {
        forall i, j | 0 <= i < j < |rest| ensures index[rest[i]] != index[rest[j]] {
          assert rest[i] == stack[i + 1] && rest[j] == stack[j + 1];
        }
      }
      forall i | 0 <= i < |rest| ensures rest[i] != stack[0] && index[rest[i]] != h {
        assert rest[i] == stack[i + 1];
      }
      var r := Walk(stack, index, ev, run, acc);
      if !Wants(st, ev) {
        WalkFinishedAreIdle(rest, index, ev, run, acc);
        forall i | 0 <= i < |stack| && stack[i] !in acc.finished
          ensures stack[i] in r.finished <==>
            Reached(stack, index, acc.states, ev, run, i) && Wants(acc.states[index[stack[i]]], ev)
            && Idle(Deliver(acc.states[index[stack[i]]], ev, run))
        {
          if i > 0 {
            assert stack[i] == rest[i - 1];
            ReachedShift(stack, index, acc.states, acc.states, ev, run, i);
          }
        }
        forall i | 0 <= i < |stack| && stack[i] in r.finished && stack[i] !in acc.finished
          ensures Idle(r.states[index[stack[i]]])
        {
          assert i > 0 && stack[i] == rest[i - 1];
        }
      } else {
        var st' := Deliver(st, ev, run);
        var acc' := WalkState(acc.states[h := st'],
                              if Idle(st') then acc.finished + {stack[0]} else acc.finished,
                              true, StepOf(st, ev, run).passed, Some(h));
        assert Reached(stack, index, acc.states, ev, run, 0);
        if StepOf(st, ev, run).passed {
          WalkFinishedAreIdle(rest, index, ev, run, acc');
          WalkUntouchedOff(rest, index, ev, run, acc', h);
          forall i | 0 <= i < |stack| && stack[i] !in acc.finished
            ensures stack[i] in r.finished <==>
              Reached(stack, index, acc.states, ev, run, i) && Wants(acc.states[index[stack[i]]], ev)
              && Idle(Deliver(acc.states[index[stack[i]]], ev, run))
          {
            if i > 0 {
              assert stack[i] == rest[i - 1];
              ReachedShift(stack, index, acc.states, acc'.states, ev, run, i);
            }
          }
          forall i | 0 <= i < |stack| && stack[i] in r.finished && stack[i] !in acc.finished
            ensures Idle(r.states[index[stack[i]]])
          {
            if i > 0 {
              assert stack[i] == rest[i - 1];
            }
          }
        } else {
          forall i | 0 < i < |stack| && stack[i] !in acc.finished
            ensures stack[i] !in r.finished && !Reached(stack, index, acc.states, ev, run, i)
          {
            assert stack[i] == rest[i - 1];
          }
        }
      }
    }
  }

  /** A record whose handle no stack position names is left as it was. */
  lemma {:induction false} WalkUntouchedOff(stack: seq<ToolId>, index: map<ToolId, ToolHandle>, ev: ToolEvent, run: Handlers, acc: WalkState, h: ToolHandle)
    requires Indexed(stack, index, acc.states)
    requires h in acc.states
    requires forall i :: 0 <= i < |stack| ==> index[stack[i]] != h
    ensures var r := Walk(stack, index, ev, run, acc); h in r.states && r.states[h] == acc.states[h]
    decreases |stack|
  {
    if stack != [] {
      var h0 := index[stack[0]];
      var st := acc.states[h0];
      forall i | 0 <= i < |stack[1..]| ensures index[stack[1..][i]] != h {
        assert stack[1..][i] == stack[i + 1];
      }
      if !Wants(st, ev) {
        WalkUntouchedOff(stack[1..], index, ev, run, acc, h);
      } else {
        var st' := Deliver(st, ev, run);
        var acc' := WalkState(acc.states[h0 := st'],
                              if Idle(st') then acc.finished + {stack[0]} else acc.finished,
                              true, StepOf(st, ev, run).passed, Some(h0));
        if StepOf(st, ev, run).passed {
          WalkUntouchedOff(stack[1..], index, ev, run, acc', h);
        }
      }
    }
  }

  /**
    What the walk does to each tool on the stack: a tool that is reached
    (every tool above it that wanted the event passed it on) and wants the
    event gets it delivered; every other tool is left as it was. So the
    topmost tool that wants the event always gets it, and the tools below it
    see the event only if it passes.
  */
  lemma {:induction false} WalkDelivers(stack: seq<ToolId>, index: map<ToolId, ToolHandle>, ev: ToolEvent, run: Handlers, acc: WalkState, j: int)
    requires Indexed(stack, index, acc.states)
    requires DistinctHandles(stack, index)
    requires 0 <= j < |stack|
    ensures var h := index[stack[j]]; var st := acc.states[h];
      Walk(stack, index, ev, run, acc).states[h] ==
        if Reached(stack, index, acc.states, ev, run, j) && Wants(st, ev) then Deliver(st, ev, run) else st
    decreases |stack|
  {
    var h0 := index[stack[0]];
    var st0 := acc.states[h0];
    var rest := stack[1..];
    var hj := index[stack[j]];
    assert DistinctHandles(rest, index) by {
      forall a, b | 0 <= a < b < |rest| ensures index[rest[a]] != index[rest[b]] {
        assert rest[a] == stack[a + 1] && rest[b] == stack[b + 1];
      }
    }
    forall i | 0 <= i < |rest| ensures index[rest[i]] != h0 {
      assert rest[i] == stack[i + 1];
    }
    if !Wants(st0, ev) {
      if j == 0 {
        WalkUntouchedOff(rest, index, ev, run, acc, h0);
      } else {
        WalkDelivers(rest, index, ev, run, acc, j - 1);
        assert rest[j - 1] == stack[j];
        ReachedShift(stack, index, acc.states, acc.states, ev, run, j);
      }
    } else {
      var st' := Deliver(st0, ev, run);
      var passed := StepOf(st0, ev, run).passed;
      var acc' := WalkState(acc.states[h0 := st'],
                            if Idle(st') then acc.finished + {stack[0]} else acc.finished,
                            true, passed, Some(h0));
      if j == 0 {
        assert Reached(stack, index, acc.states, ev, run, 0);
        if passed {
          WalkUntouchedOff(rest, index, ev, run, acc', h0);
        }
      } else {
        assert stack[j] == rest[j - 1];
        assert hj != h0;
        if passed {
          WalkDelivers(rest, index, ev, run, acc', j - 1);
          ReachedShift(stack, index, acc.states, acc'.states, ev, run, j);
        } else {
          assert !Reached(stack, index, acc.states, ev, run, j);
        }
      }
    }
  }

  /** Reaching position j of the stack is reaching position j-1 of the rest
      of it, when the top tool either does not want the event or passes it,
      and the states agree on the rest of the stack. */
  lemma ReachedShift(stack: seq<ToolId>, index: map<ToolId, ToolHandle>, states: map<ToolHandle, ToolState>,
                     states': map<ToolHandle, ToolState>, ev: ToolEvent, run: Handlers, j: int)
    requires 0 < j <= |stack|
    requires Indexed(stack, index, states) && Indexed(stack[1..], index, states')
    requires Wants(states[index[stack[0]]], ev) ==> StepOf(states[index[stack[0]]], ev, run).passed
    requires forall i :: 1 <= i < |stack| ==> states'[index[stack[i]]] == states[index[stack[i]]]
    ensures Reached(stack, index, states, ev, run, j) <==> Reached(stack[1..], index, states', ev, run, j - 1)
  {
    var rest := stack[1..];
    if Reached(rest, index, states', ev, run, j - 1) {
      forall k | 0 <= k < j && k < |stack| && Wants(states[index[stack[k]]], ev)
        ensures StepOf(states[index[stack[k]]], ev, run).passed
      {
        if k > 0 {
          assert rest[k - 1] == stack[k];
        }
      }
    }
    if Reached(stack, index, states, ev, run, j) {
      forall k | 0 <= k < j - 1 && k < |rest| && Wants(states'[index[rest[k]]], ev)
        ensures StepOf(states'[index[rest[k]]], ev, run).passed
      {
        assert rest[k] == stack[k + 1];
      }
    }
  }

  /** The topmost tool that wants the event and does not pass it is the last
      one to get it: the records of every tool below it are unchanged. */
  lemma TopmostWins(stack: seq<ToolId>, index: map<ToolId, ToolHandle>, ev: ToolEvent, run: Handlers, acc: WalkState, top: int, j: int)
    requires Indexed(stack, index, acc.states)
    requires DistinctHandles(stack, index)
    requires 0 <= top < j < |stack|
    requires Wants(acc.states[index[stack[top]]], ev)
    requires !StepOf(acc.states[index[stack[top]]], ev, run).passed
    ensures Walk(stack, index, ev, run, acc).states[index[stack[j]]] == acc.states[index[stack[j]]]
  {
    WalkDelivers(stack, index, ev, run, acc, j);
  }
}
