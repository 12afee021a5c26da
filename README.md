# KiCad editor state machines in Dafny

This project models four small pieces of KiCad's editors and proves properties of them.

- **The interactive tool manager** (`TOOL_MANAGER`, include/tool/tool_manager.h). It keeps a registry of
  tools, with an index by name and one by id. It also keeps the activation stack (a deque, top first),
  the pass flag and the current tool. Each tool's runtime record holds its pending transitions, at most
  one parked wait, and its context-menu setting. Each event is delivered by walking the stack from the
  top. The first tool that wants the event gets it. The walk continues below that tool only if its
  handler called `PassEvent`. A tool left with nothing scheduled and nothing parked leaves the stack.
  Files: `tool_dispatch.dfy` (values and the walk as a function), `tool_manager.dfy` (the manager as a
  class whose methods update its fields).
- **Part placement rules of the schematic editor** (eeschema/getpart.cpp), in `getpart.dfy`:
  - how `Load_Component` resolves the name typed in the dialog: a keyword query, the list request, a
    wildcard, or an exact name with one `*name*` retry;
  - the unit rule of `OnSelectUnit`;
  - the De Morgan cycle of `ConvertPart`;
  - the orientation menu of `OnChangeComponentOrientation`;
  - the undo and flag rules of `StartMovePart`.
- **The library viewer's remembered selection** (eeschema/viewlib_frame.cpp), in `viewlib_frame.dfy`.
  It covers the static library, entry, unit, body-style and export-name fields and how the list-box
  handlers update them. It also covers the list widths that `LoadSettings` clamps and `SaveSettings`
  writes.
- **The primitive list of a custom pad** (pcbnew/class_pad_custom_shape_functions.cpp), in
  `pad_custom_shape.dfy`. It covers the four `AddPrimitive` overloads, `SetPrimitives`,
  `DeletePrimitivesList` and `ExportTo`. It also covers the control skeleton of
  `MergePrimitivesAsPolygon`: which primitives contribute, the rebuilt target, the invalidated bounding
  radius and the one-outline result. Finally it covers the in-place move of the merged polygon to the
  board.

`common.dfy` holds the shared pieces:

- an `Option` type;
- ASCII upper-casing (`wxString::MakeUpper`) and the case-insensitive comparison it gives
  (`CmpNoCase`, and `wxListBox::FindString`'s default);
- C's truncating `x / 2`.

The tool manager's source is a header: the method bodies are in tool_manager.cpp, which is not part of
this model. The model follows the header's declarations and comments.

- A handler is code the manager cannot see. It is the parameter `run`, which reports what one handler
  step did: the transitions it scheduled, the wait it parked on, and whether it passed the event.
- While a tool has a parked wait, only that wait can be resumed. It is resumed with the matching event.
- Otherwise the first matching transition is used up and its handler started.
- Invoking a tool moves it to the top of the stack (`push_front`) and sends it its activation event.

## Model

| member | source | states |
|---|---|---|
| ToolDispatch.MakeToolId | include/tool/tool_manager.h:57-60 | the id depends on the name alone; it is 0 only for the empty name |
| ToolDispatch.MakeToolIdInjective | include/tool/tool_manager.h:57-60 | two names with the same id are the same name, so ids are unique per tool name |
| ToolDispatch.ActivationEvent | include/tool/tool_manager.h:70-73 | the event sent to an invoked tool is a command-activation event carrying the tool's name |
| ToolDispatch.InitialState | include/tool/tool_manager.h:62-68 | a newly registered tool has no transitions, no wait and its context menu off |
| ToolDispatch.FirstMatch | include/tool/tool_manager.h:133-138 | the position of the first transition whose conditions contain the event, none earlier matching; none when no transition matches |
| ToolDispatch.EntryFor | include/tool/tool_manager.h:140-146 | a parked wait has priority and is resumed only by an event matching its conditions, with that event; otherwise a handler starts exactly when some transition matches |
| ToolDispatch.RemoveAt | include/tool/tool_manager.h:170 | removing the used transition leaves the same transitions less exactly that one (as multisets) |
| ToolDispatch.DeliverConsumesOneTransition | include/tool/tool_manager.h:133-138 | starting a transition uses up exactly that one transition and adds what the handler scheduled |
| ToolDispatch.DeliverResumesWaitOnce | include/tool/tool_manager.h:140-146 | resuming a parked handler clears the wait; the tool is parked again only if the handler waits again |
| ToolDispatch.DeliverKeeps | include/tool/tool_manager.h:148-158 | delivery keeps the tool and the rule that no wait list exists without a parked wait; the context menu and trigger become the ones the handler step set, and are kept when it set none |
| ToolDispatch.Without | include/tool/tool_manager.h:178 | taking finished tools off the stack keeps exactly the other ids |
| ToolDispatch.WithoutNoDup | include/tool/tool_manager.h:178 | taking tools off a stack without repeats leaves a stack without repeats |
| ToolDispatch.Walk | include/tool/tool_manager.h:98-102 | the walk down the stack for one event keeps the set of tool records |
| ToolDispatch.WalkKeepsRecords | include/tool/tool_manager.h:175-186 | the walk keeps every record's tool and the wait-list rule; the current tool is a registered one |
| ToolDispatch.WalkConsumedIff | include/tool/tool_manager.h:98-102 | the event is consumed exactly when some tool on the stack wants it |
| ToolDispatch.WalkFinishedAreIdle | include/tool/tool_manager.h:173-178 | a tool on the stack that had not finished finishes exactly when it is reached, wants the event and its step leaves it with nothing scheduled and nothing parked; only tools on the stack finish, none comes back, and each finished record is still idle at the end |
| ToolDispatch.WalkUntouchedOff | include/tool/tool_manager.h:98-102 | a tool that is not on the stack is not touched by the walk |
| ToolDispatch.WalkDelivers | include/tool/tool_manager.h:98-102 | each tool on the stack gets the event exactly when it wants it and every tool above it that wanted it passed it on; otherwise its record is unchanged |
| ToolDispatch.ReachedShift | include/tool/tool_manager.h:160-161 | reaching a tool below a top tool that passed (or did not want) the event is reaching it in the rest of the stack |
| ToolDispatch.TopmostWins | include/tool/tool_manager.h:160-161 | below a tool that took the event without passing it, no tool's record changes |
| ToolManager.IndexesAgreeKept | include/tool/tool_manager.h:175-177 | a walk that keeps each record's tool keeps the state map and both indexes in agreement |
| ToolManager.ProcessEventKeeps | include/tool/tool_manager.h:98-102 | after the walk, with finished tools off the stack, the manager's invariant holds; consumed iff some stacked tool wanted the event; every tool that left the stack is idle, and a tool leaves the stack exactly when it is reached, wants the event and its step leaves it idle |
| ToolManager.RaiseKeeps | include/tool/tool_manager.h:175-178 | moving a registered tool to the top of the stack keeps the stack registered and free of repeats |
| ToolManager.Raised | include/tool/tool_manager.h:178 | the raised stack starts with the tool and holds exactly the tool and the old stack's ids |
| ToolManager.ActivationReachesTool | include/tool/tool_manager.h:70-73 | on the raised stack the activation walk reaches the tool first: its record is the delivery of the activation event when it wants it, and then the event is consumed; otherwise its record is unchanged |
| ToolManager.WalkStack | include/tool/tool_manager.h:98-102 | the loop over the stack computes the walk |
| ToolManager.ToolManager.constructor | include/tool/tool_manager.h:54 | a new manager has no tools, an empty stack, no current tool and null environment |
| ToolManager.ToolManager.RegisterTool | include/tool/tool_manager.h:62-68 | a fresh tool is filed under its handle, name and id with an initial record, and both FindTool lookups return it; the indexes stay consistent |
| ToolManager.ToolManager.FindToolById | include/tool/tool_manager.h:83-89 | the registered tool with that id, or nothing when there is none |
| ToolManager.ToolManager.FindToolByName | include/tool/tool_manager.h:83-90 | the registered tool with that name, or nothing when there is none |
| ToolManager.ToolManager.ProcessEvent | include/tool/tool_manager.h:98-102 | the new records, stack, pass flag and current tool are those of the walk; consumed iff a stacked tool wanted the event; tools that left the stack are idle, and a tool leaves the stack exactly when it is reached, wants the event and its step leaves it idle |
| ToolManager.ToolManager.Activate | include/tool/tool_manager.h:70-76 | the records, stack, pass flag and current tool are those of the activation walk over the stack with the tool raised to the top (finished tools taken off); the tool gets its activation event first and its record is that delivery; afterwards it is on top or finished idle |
| ToolManager.ToolManager.InvokeTool | include/tool/tool_manager.h:70-77 | unknown id: false and nothing changes; otherwise true, and the records, stack, pass flag and current tool are those of the activation walk for the tool with that id; the environment never changes |
| ToolManager.ToolManager.InvokeToolByName | include/tool/tool_manager.h:70-78 | unknown name: false and nothing changes; otherwise true, and the records, stack, pass flag and current tool are those of the activation walk for the tool with that name; the environment never changes |
| ToolManager.ToolManager.ResetTool | include/tool/tool_manager.h:92-96 | the tool's transitions and wait list become empty and a parked handler is dropped; no other record, the stack and the environment are unchanged |
| ToolManager.ToolManager.ScheduleNextState | include/tool/tool_manager.h:133-138 | exactly one (conditions, handler) transition is appended to that tool's list; no other record, the stack and the environment are unchanged |
| ToolManager.ToolManager.ScheduleWait | include/tool/tool_manager.h:140-146 | the tool is parked on the conditions; no other record, the stack and the environment are unchanged |
| ToolManager.ToolManager.ScheduleContextMenu | include/tool/tool_manager.h:148-158 | the tool's menu and trigger are stored; no other record, the stack and the environment are unchanged |
| ToolManager.ToolManager.PassEvent | include/tool/tool_manager.h:160-166 | sets the pass flag and may change nothing else |
| ToolManager.ToolManager.SetEnvironment | include/tool/tool_manager.h:104-131 | the four accessors return exactly the stored model, view, view controls and frame |
| Common.UpperChar | eeschema/getpart.cpp:168-170 | lower-case ASCII letters become upper case, every other character is kept, and no lower-case letter remains |
| Common.ToUpper | eeschema/getpart.cpp:168-170 | the name keeps its length and each character is upper-cased: no lower-case letter remains and every other character is kept |
| Common.ToUpperIdempotent | eeschema/getpart.cpp:168-170 | upper-casing an upper-cased name changes nothing |
| Common.HalfTruncated | eeschema/viewlib_frame.cpp:518-522 | `x / 2` truncates toward zero, as C's integer division does: `x - 2h` is 0 or 1 for `x >= 0` and 0 or -1 for `x < 0` |
| PartPlacement.OrientationForMenuId | eeschema/getpart.cpp:275-296 | each of the four mirror/rotate ids gives its orientation, and every other id gives the normal one |
| PartPlacement.OrientationMenuRoundTrip | eeschema/getpart.cpp:275-296 | every orientation is what its own menu entry gives |
| PartPlacement.NextConvertInRange | eeschema/getpart.cpp:416-425 | from body style 0, 1 or 2 the next style is 1 or 2 and differs from the old one; it is 1 unless the old one was 1 |
| PartPlacement.NextConvertTwice | eeschema/getpart.cpp:416-425 | converting a part twice gives its shape back |
| PartPlacement.SelectedUnitRule | eeschema/getpart.cpp:345-365 | the unit applied is `id + 1 - ID_POPUP_SCH_SELECT_UNIT1`, and only when it lies in [1, unit count], there is more than one unit and it is not the current unit |
| PartPlacement.Component.constructor | eeschema/getpart.cpp:242-247 | a placed component starts with its name, unit and body style and the normal orientation; its flags are IS_NEW when the new-item flag is asked for, and none otherwise |
| PartPlacement.Component.Snapshot | eeschema/getpart.cpp:369-370 | the undo copy holds all the component's fields |
| PartPlacement.Component.SetFlags | eeschema/getpart.cpp:380 | the mask's bits are added to the flags |
| PartPlacement.Component.SetUnit | eeschema/getpart.cpp:379-380 | the unit is set and the flags are cleared |
| PartPlacement.Component.SetConvert | eeschema/getpart.cpp:416 | the body style is set |
| PartPlacement.Component.SetOrientation | eeschema/getpart.cpp:314 | the normal command resets the transform; every other command is added to it |
| PartPlacement.Classify | eeschema/getpart.cpp:172-207 | a leading `=` is a keyword query with the text after it as keys; exactly `*` is the list request; a name with `?` or `*` is a wildcard; anything else is an exact name |
| PartPlacement.WildName | eeschema/getpart.cpp:213 | the retry name is the name between two `*` |
| PartPlacement.SchEditFrame.constructor | eeschema/getpart.cpp:116 | the editor starts with no undo copies and no remembered name |
| PartPlacement.SchEditFrame.LoadComponent | eeschema/getpart.cpp:143-238 | cancel or an empty name: nothing and no lookup; an exact name is looked up, and when that fails and the `*name*` search gives a name, exactly one retry under it follows; each other query kind gets one lookup of the name its search gave; success returns the last name looked up with its entry, becomes the remembered name and yields a new component of that name, unit and body style flagged IS_NEW; failure yields no component |
| PartPlacement.SchEditFrame.OnSelectUnit | eeschema/getpart.cpp:331-390 | when the unit rule applies, the unit changes and the flags end as they were, with one undo copy when no command was in progress; otherwise nothing changes |
| PartPlacement.SchEditFrame.ConvertPart | eeschema/getpart.cpp:393-435 | the body style steps by the cycle when the entry exists and has a conversion; a null component, a missing entry or no conversion change nothing |
| PartPlacement.SchEditFrame.OnChangeComponentOrientation | eeschema/getpart.cpp:263-325 | the id's orientation is applied, with one undo copy when the component has no flags |
| PartPlacement.SchEditFrame.StartMovePart | eeschema/getpart.cpp:438-477 | an undo copy is kept only when the flags were 0, and the component ends flagged IS_MOVED with its other flags kept |
| LibViewer.FindNoCase | eeschema/viewlib_frame.cpp:373 | the first index whose string equals the name up to case, or not-found exactly when none does |
| LibViewer.ClampedWidth | eeschema/viewlib_frame.cpp:511-522 | a width is the stored value or 150, cut down to half the frame width |
| LibViewer.ReadKey | eeschema/viewlib_frame.cpp:514-515 | the stored value of a key when there is one, else nothing |
| LibViewer.CmpListing | eeschema/viewlib_frame.cpp:396-430 | an unknown library gives an empty selection and list with unit and body style 1; a known one lists its entries and keeps the entry only if the library has it (up to case), else clears it with unit and body style 1; the selected index lies in the list and names the entry |
| LibViewer.LibListing | eeschema/viewlib_frame.cpp:364-393 | a remembered library that is not loaded clears library, entry, unit and body style; a loaded one is kept, the list is its entries, and the entry with its unit and body style is kept when the list has it |
| LibViewer.LibListingConsistent | eeschema/viewlib_frame.cpp:364-430 | after the rebuild the library is empty or loaded, and the entry is empty or the selected entry of that library up to case |
| LibViewer.ViewerSelection.constructor | eeschema/viewlib_frame.cpp:25-31 | the remembered selection starts empty with unit and body style 1 |
| LibViewer.LibViewFrame.constructor | eeschema/viewlib_frame.cpp:102-169 | the export name is cleared and the widths loaded; opened on a library, that library is selected with no entry, unit and body style 1 and no library-list width; otherwise the library list is built from the shared selection and the selection and component list are its LibListing |
| LibViewer.LibViewFrame.ReCreateListLib | eeschema/viewlib_frame.cpp:364-393 | with a library list: the list is the loaded library names, the highlighted row is the remembered library's, and the selection and component list become the LibListing of the old ones (an unknown library clears everything); without a library list nothing changes |
| LibViewer.LibViewFrame.ReCreateListCmp | eeschema/viewlib_frame.cpp:396-430 | the selection and component list become the CmpListing of the old selection |
| LibViewer.LibViewFrame.ClickOnLibList | eeschema/viewlib_frame.cpp:433-450 | no selection or the library already chosen change nothing; another library is chosen and the selection and component list become its CmpListing |
| LibViewer.LibViewFrame.ClickOnCmpList | eeschema/viewlib_frame.cpp:453-472 | only a name different up to case becomes the entry, with unit and body style 1 |
| LibViewer.LibViewFrame.ExportToSchematicLibraryPart | eeschema/viewlib_frame.cpp:479-489 | the export name is the selected entry's name, or empty with no selection |
| LibViewer.LibViewFrame.LoadSettings | eeschema/viewlib_frame.cpp:502-523 | both widths default to 150 and end at most half the frame width |
| LibViewer.LibViewFrame.SaveSettings | eeschema/viewlib_frame.cpp:532-545 | the component-list width is always written, the library-list width only when it is not zero, and nothing else changes |
| LibViewer.LibViewFrame.OnActivate | eeschema/viewlib_frame.cpp:550-562 | an active frame forgets its export name; with a library list the list, selection and component list are rebuilt as by ReCreateListLib; without one they are all unchanged |
| LibViewer.WidthsRoundTrip | eeschema/viewlib_frame.cpp:511-544 | saving then loading gives back widths that were within bounds; a zero library width falls back to what was stored before |
| LibViewer.ClampedWidthIdempotent | eeschema/viewlib_frame.cpp:517-522 | a loaded width is already within bounds, so clamping it again changes nothing |
| PadCustomShape.NewPrimitive | pcbnew/class_pad_custom_shape_functions.cpp:71 | a new primitive has the given kind, no points and no thickness |
| PadCustomShape.ExportTo | pcbnew/class_pad_custom_shape_functions.cpp:44-62 | shape, width, start, angle and points are copied; a circle's end is its centre moved right by the radius, any other shape's end is its end |
| PadCustomShape.OutlinesOf | pcbnew/class_pad_custom_shape_functions.cpp:176-230 | a skipped primitive adds no outline; a contributing polygon adds at least one outline: a thin one exactly its own points, a thick one an empty outline first (the one the loop opens) and then its inflation |
| PadCustomShape.AppendOutlines | pcbnew/class_pad_custom_shape_functions.cpp:176-230 | one pass of the merge loop appends exactly the outlines of that primitive, a thin polygon being copied point by point into the outline it opens |
| PadCustomShape.Contributing | pcbnew/class_pad_custom_shape_functions.cpp:172-231 | a primitive is kept exactly when it is in the list and is not a polygon with fewer than 2 points or an unhandled kind; no more primitives than given |
| PadCustomShape.ContributingIdempotent | pcbnew/class_pad_custom_shape_functions.cpp:172-231 | filtering the contributing primitives again keeps them all |
| PadCustomShape.AuxOutlinesOfContributing | pcbnew/class_pad_custom_shape_functions.cpp:172-231 | the auxiliary polygon set is the same when built from the contributing primitives alone |
| PadCustomShape.AuxOutlinesAppend | pcbnew/class_pad_custom_shape_functions.cpp:172-231 | appending a primitive appends its outlines to the auxiliary set |
| PadCustomShape.OnlySkippedIsAnchor | pcbnew/class_pad_custom_shape_functions.cpp:233-238 | a pad whose primitives are all skipped merges to its anchor shape alone |
| PadCustomShape.PolygonForcesUnion | pcbnew/class_pad_custom_shape_functions.cpp:200-238 | a pad with any polygon primitive of at least two points has a non-empty auxiliary set, so its merge is the union of anchor and auxiliary outlines |
| PadCustomShape.OutlineToBoard | pcbnew/class_pad_custom_shape_functions.cpp:257-265 | an outline keeps its length and each point is rotated and moved to the pad position |
| PadCustomShape.OutlineToBoardIdentity | pcbnew/class_pad_custom_shape_functions.cpp:257-265 | with no rotation and the origin as position an outline is unchanged |
| PadCustomShape.CustomShapeAsPolygonToBoardPosition | pcbnew/class_pad_custom_shape_functions.cpp:245-266 | the number of outlines and the points per outline stay the same and each point is moved to the board; an empty set stays empty |
| PadCustomShape.Pad.MergePrimitivesAsPolygon | pcbnew/class_pad_custom_shape_functions.cpp:142-243 | the target (the pad's own set when none is given) is rebuilt from the anchor united with the contributing primitives' outlines, a polygon opening a new outline and a thin one filled point by point; the bounding radius becomes -1; true exactly when at most one outline results |
| PadCustomShape.Pad.AddPolygonPrimitive | pcbnew/class_pad_custom_shape_functions.cpp:69-77 | exactly one polygon primitive with these points and thickness is appended, earlier ones unchanged, and the pad re-merged |
| PadCustomShape.Pad.AddSegmentPrimitive | pcbnew/class_pad_custom_shape_functions.cpp:80-89 | exactly one segment primitive with these ends and thickness is appended and the pad re-merged |
| PadCustomShape.Pad.AddArcPrimitive | pcbnew/class_pad_custom_shape_functions.cpp:92-102 | exactly one arc primitive (centre as start, arc start as end, angle, thickness) is appended and the pad re-merged |
| PadCustomShape.Pad.AddCirclePrimitive | pcbnew/class_pad_custom_shape_functions.cpp:105-114 | exactly one circle primitive with this centre, radius and thickness is appended and the pad re-merged |
| PadCustomShape.Pad.SetPrimitives | pcbnew/class_pad_custom_shape_functions.cpp:117-128 | the list becomes exactly the given one, empty included, and the result is the merge's |
| PadCustomShape.Pad.DeletePrimitivesList | pcbnew/class_pad_custom_shape_functions.cpp:131-135 | no primitives and an empty merged polygon |

## Left out

- Coroutines: `ScheduleWait` parks a handler as explicit per-tool state (a pending wait and its conditions). Resuming is a handler step run through `run`; there is no real suspension.
- The hash behind `MakeToolId`: it is replaced by an injective encoding of the name, so ids are unique per name by construction.
- ToolManager.ToolManager.ResetTool: the tool's own `Reset()` call is code the manager cannot see and is left out. A parked handler is dropped; its resumption with no event, and any step that resumption would run, is not modelled.
- The templated `InvokeTool(name, parameters)` overload is not modelled; the parameter object is opaque to the manager.
- The tool-event values: tool_event.h is not part of this model. Events are a (category, action) tag plus a command string. A condition list matches by membership of the tag. The activation event's two values are placeholders.
- ToolManager.ToolManager.RegisterTool: a second tool with an already used handle, name or id is refused and nothing changes. The original treats this as a programming error. Setting the tool up on registration (its own `Reset()` and manager hook-up) is code the manager cannot see and is left out.
- Tool ids: a tool's id comes with the tool (tool_base.h is not part of this model). The model does not require it to be `MakeToolId` of the tool's name; the manager relies only on ids being unique, which `RegisterTool` enforces.
- ToolManager.ToolManager.InvokeTool: "the tool is active" is stated as "on top of the stack, or finished idle". A tool whose activation step leaves nothing scheduled leaves the stack at once.
- ToolManager.ToolManager.InvokeToolByName: same as for InvokeTool.
- The environment pointers (`EDA_ITEM`, `VIEW`, `VIEW_CONTROLS`, `wxWindow`) and context menus are opaque numbers.
- The dialog, history list, drawing, mouse capture and cursor handling of `Load_Component`, and the polling loop of `SelectFromLibBrowser` (a modal-window wait): the dialog's outcome is the input `pick`.
- `DataBaseGetName`, `GetNameOfPartToLoad`, `FindLibrary` and `FindLibraryComponent`: these are given functions (parameters). The component count shown in the dialog is left out.
- Name upper-casing follows the default build, without `KICAD_KEEPCASE`, and covers ASCII letters only.
- SCH_COMPONENT and EDA_ITEM are not part of this model. `SetFlags` adds bits to the flags.
- PartPlacement.Component.SetUnit: the comment at getpart.cpp:380 says only that `SetUnit` modifies the flags; the model assumes it clears them, which is why the caller restores them right after.
- The IS_NEW and IS_MOVED bits and the menu ids are placeholder values; the rules depend only on their being distinct. The orientation transform is the list of commands applied since the last reset to normal, not a matrix.
- `SetUnitSelection` (the per-sheet unit record) and the type test behind `wxCHECK_RET` are left out. A non-component item is modelled as null.
- The clamping of the unit at getpart.cpp:361-365 cannot change anything after the range check at line 352, so the model leaves it out.
- `OnModify`, `TestDanglingEnds`, drawing and XOR redraws, `RefreshDrawingRect`, and all wxWidgets/AUI plumbing: sash windows, toolbars, accelerators, `Show`, `Close`, `Destroy`, `MakeModal`.
- `BestZoom`, `Zoom_Automatique` and `RotatePoint` use floating point. Rotation is a given function on points.
- Config-file I/O: the stored widths are a map from key to integer, read as an input and returned by `SaveSettings`.
- Polygon geometry: circle, ring, segment and arc approximation, the rectangle outline, `Inflate`, `BooleanAdd` and `Fracture` are given functions yielding outlines. The circle-to-segment count is folded into them, and so is the point-by-point copy of a thick polygon before it is inflated.
- PadCustomShape.Pad.MergePrimitivesAsPolygon: `BooleanAdd` followed by `Fracture` is one given function.
- The grid, frame size and sash handlers of the library viewer, and the library-list height.
