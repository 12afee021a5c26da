/**
  Part placement in the schematic editor (eeschema/getpart.cpp): the rules
  by which Load_Component resolves the typed name, and the in-place changes
  OnSelectUnit, ConvertPart, OnChangeComponentOrientation and StartMovePart
  make to a placed component and to the editor's undo state.
*/
module PartPlacement {
  import opened Common

  /** EDA_ITEM's flag word. */
  type Flags = bv32

  /** IS_MOVED: the component is being moved. */
  const IsMoved: Flags := 0x8

  /** IS_NEW: the item has just been created and is not yet in the schematic. */
  const IsNew: Flags := 0x10

  /** The orientation commands of SCH_COMPONENT::SetOrientation. */
  datatype Orientation = Normal | RotateCounterClockwise | RotateClockwise | MirrorX | MirrorY

  /** The popup-menu ids of the orientation commands; consecutive, as they
      are declared in the editor's id list. */
  const IdMirrorXCmp: int := 4600
  const IdMirrorYCmp: int := 4601
  const IdRotateCmpCounterClockwise: int := 4602
  const IdRotateCmpClockwise: int := 4603
  const IdOrientNormalCmp: int := 4604

  /** ID_POPUP_SCH_SELECT_UNIT1: the menu id that selects unit 1. */
  const IdSelectUnit1: int := 4700

  /** The switch of OnChangeComponentOrientation; every other id (and the
      "normal" id) gives the normal orientation. */
  function OrientationForMenuId(id: int): (o: Orientation)
    ensures id == IdMirrorXCmp <==> o == MirrorX
    ensures id == IdMirrorYCmp <==> o == MirrorY
    ensures id == IdRotateCmpCounterClockwise <==> o == RotateCounterClockwise
    ensures id == IdRotateCmpClockwise <==> o == RotateClockwise
    ensures o == Normal <==> id !in {IdMirrorXCmp, IdMirrorYCmp, IdRotateCmpCounterClockwise, IdRotateCmpClockwise}
  {
    if id == IdMirrorXCmp then MirrorX
    else if id == IdMirrorYCmp then MirrorY
    else if id == IdRotateCmpCounterClockwise then RotateCounterClockwise
    else if id == IdRotateCmpClockwise then RotateClockwise
    else Normal
  }

  /** The menu entry that issues each orientation command. */
  function MenuIdFor(o: Orientation): int
  {
    match o
    case Normal => IdOrientNormalCmp
    case RotateCounterClockwise => IdRotateCmpCounterClockwise
    case RotateClockwise => IdRotateCmpClockwise
    case MirrorX => IdMirrorXCmp
    case MirrorY => IdMirrorYCmp
  }

  /** Every orientation is reached from its own menu entry. */
  lemma OrientationMenuRoundTrip(o: Orientation)
    ensures OrientationForMenuId(MenuIdFor(o)) == o
  {
  }

  /**
    The De Morgan step of ConvertPart: the next body style, back to 1 once
    it passes 2.
  */
  function NextConvert(c: int): (r: int)
  {
    if c + 1 > 2 then 1 else c + 1
  }

  /** From a valid body style (0 and 1 are the normal shape, 2 the converted
      one) the step gives 1 or 2, and never the style it started from. */
  lemma NextConvertInRange(c: int)
    requires 0 <= c <= 2
    ensures NextConvert(c) in {1, 2}
    ensures NextConvert(c) != c
    ensures NextConvert(c) == 1 <==> c != 1
  {
  }

  /** On the two shapes the step is an involution: converting twice gives
      the shape back. */
  lemma NextConvertTwice(c: int)
    requires c == 1 || c == 2
    ensures NextConvert(NextConvert(c)) == c
  {
  }

  /** A library entry, as far as these rules read it (LIB_COMPONENT). */
  datatype LibEntry = LibEntry(name: string, partCount: int, hasConversion: bool)

  /** CMP_LIBRARY::FindLibraryComponent(name): a given lookup. */
  type PartLookup = string -> Option<LibEntry>

  /**
    The unit rule of OnSelectUnit: the unit the menu id names, if it is to
    be applied, given the entry's unit count and the component's unit. None
    is one of the early returns: a unit out of [1, count], a single-unit
    part, or the unit already selected.
  */
  function SelectedUnit(menuId: int, unitCount: int, current: int): (u: Option<int>)
  {
    var unit := menuId + 1 - IdSelectUnit1;
    if !(1 <= unit <= unitCount) then None
    else if unitCount <= 1 || current == unit then None
    else Some(unit)
  }

  lemma SelectedUnitRule(menuId: int, unitCount: int, current: int)
    ensures var u := SelectedUnit(menuId, unitCount, current);
      && (u.Some? <==> unitCount > 1 && IdSelectUnit1 <= menuId < IdSelectUnit1 + unitCount
                       && current != menuId + 1 - IdSelectUnit1)
      && (u.Some? ==> u.value == menuId + 1 - IdSelectUnit1 && 1 <= u.value <= unitCount && u.value != current)
  {
  }

  /** The fields of a component the undo list copies. */
  datatype PartSnapshot = PartSnapshot(libName: string, unit: int, convert: int, flags: Flags,
                                       transform: seq<Orientation>)

  /**
    A placed schematic component (SCH_COMPONENT). Its transform is kept as
    the orientation commands applied since it was last set back to normal.
  */
  class Component {
    var libName: string
    var unit: int
    var convert: int
    var flags: Flags
    var transform: seq<Orientation>

    /** A component of the entry `name` with the given unit and body style;
        `setNewItemFlag` marks it IS_NEW, as a component being placed is. */
    constructor (name: string, aUnit: int, aConvert: int, setNewItemFlag: bool)
      ensures libName == name && unit == aUnit && convert == aConvert
      ensures setNewItemFlag ==> flags == IsNew && flags & IsNew == IsNew
      ensures !setNewItemFlag ==> flags == 0
      ensures transform == []
    {
      libName, unit, convert := name, aUnit, aConvert;
      flags := if setNewItemFlag then IsNew else 0;
      transform := [];
    }

    function Snapshot(): (s: PartSnapshot)
      reads this
      ensures s.libName == libName && s.unit == unit && s.convert == convert
      ensures s.flags == flags && s.transform == transform
    {
      PartSnapshot(libName, unit, convert, flags, transform)
    }

    /** SetFlags: adds the bits of the mask. */
    method SetFlags(mask: Flags)
      modifies this`flags
      ensures flags == old(flags) | mask
    {
      flags := flags | mask;
    }

    /** SetUnit: selects the unit and drops the flags of a command in progress. */
    method SetUnit(aUnit: int)
      modifies this`unit, this`flags
      ensures unit == aUnit && flags == 0
    {
      unit := aUnit;
      flags := 0;
    }

    method SetConvert(c: int)
      modifies this`convert
      ensures convert == c
    {
      convert := c;
    }

    /** SetOrientation: the normal command resets the transform, every other
        command is composed onto it. */
    method SetOrientation(o: Orientation)
      modifies this`transform
      ensures o == Normal ==> transform == []
      ensures o != Normal ==> transform == old(transform) + [o]
    {
      if o == Normal {
        transform := [];
      } else {
        transform := transform + [o];
      }
    }
  }

  /** How the component-selection dialog ended. */
  datatype Pick =
    | Cancelled
    | Typed(name: string)
    /** The name chosen in the library browser, with its unit and body style. */
    | Browsed(name: string, unit: int, convert: int)

  /** What the typed name asks for. */
  datatype Query =
    | Keyword(keys: string)
    | ListAll
    | Wildcard
    | Exact

  predicate HasWildcard(name: string)
  {
    '?' in name || '*' in name
  }

  /** The if-chain of Load_Component on a non-empty name. */
  function Classify(name: string): (q: Query)
    requires name != []
    ensures q.Keyword? <==> name[0] == '='
    ensures q.Keyword? ==> q.keys == name[1..]
    ensures q == ListAll <==> name == "*"
    ensures q == Wildcard <==> name[0] != '=' && name != "*" && HasWildcard(name)
    ensures q == Exact <==> name[0] != '=' && !HasWildcard(name)
  {
    if name[0] == '=' then Keyword(name[1..])
    else if name == "*" then ListAll
    else if HasWildcard(name) then Wildcard
    else Exact
  }

  /** The name of an exact lookup that failed, as the one retry searches it. */
  function WildName(name: string): (w: string)
    ensures |w| == |name| + 2 && w[0] == '*' && w[|w| - 1] == '*' && w[1..|w| - 1] == name
  {
    "*" + name + "*"
  }

  /** A component ready to be placed: the name it was found under, the
      entry, and the unit and body style it starts with. */
  datatype Placement = Placement(name: string, entry: LibEntry, unit: int, convert: int)

  /** DataBaseGetName(keys, name): the interactive keyword or wildcard search. */
  type NameSearch = (string, string) -> string

  /** GetNameOfPartToLoad: the pick from the full list of the library named
      by the argument; None when nothing was picked. */
  type ListPick = string -> Option<string>

  /** FindLibraryComponent(name, libname). */
  type LibraryLookup = (string, string) -> Option<LibEntry>

  /**
    The editor frame: the undo state the placement commands write, and the
    name Load_Component offers next time.
  */
  class SchEditFrame {
    /** The copies SaveCopyInUndoList pushed, most recent last. */
    var undoList: seq<PartSnapshot>
    /** The copy SetUndoItem keeps for aborting a move. */
    var undoItem: Option<PartSnapshot>
    var lastComponentName: string

    constructor ()
      ensures undoList == [] && undoItem == None && lastComponentName == []
    {
      undoList := [];
      undoItem := None;
      lastComponentName := [];
    }

    /**
      Load_Component's name resolution. `lookups` lists the names handed to
      FindLibraryComponent, in order. A cancelled dialog or an empty name
      ends without a lookup. The name is upper-cased, then a keyword query,
      the list request and a wildcard name each resolve to one name by their
      own search and get one lookup; an exact name gets a lookup and, if that
      fails, exactly one retry under "*name*". A found entry gives a new
      component, flagged IS_NEW, under the name it was found by.
    */
    method LoadComponent(libname: string, pick: Pick, search: NameSearch, listPick: ListPick,
                         find: LibraryLookup) returns (r: Option<Placement>, part: Component?, lookups: seq<string>)
      modifies this`lastComponentName
      ensures r.None? <==> part == null
      ensures part != null ==> fresh(part) && part.libName == r.value.name && part.unit == r.value.unit
                               && part.convert == r.value.convert && part.flags == IsNew && part.transform == []
      ensures pick.Cancelled? || pick.name == [] ==> r == None && lookups == []
      ensures |lookups| <= 2
      ensures r.Some? ==> |lookups| > 0 && r.value.name == lookups[|lookups| - 1]
                          && find(r.value.name, libname) == Some(r.value.entry)
      ensures lookups != [] && find(lookups[|lookups| - 1], libname).Some? ==> r.Some?
      ensures r.Some? ==> (pick.Browsed? ==> r.value.unit == pick.unit && r.value.convert == pick.convert)
                          && (pick.Typed? ==> r.value.unit == 1 && r.value.convert == 1)
      ensures |lookups| == 2 ==>
                && (pick.Typed? || pick.Browsed?)
                && var n := ToUpper(pick.name);
                   && n != [] && Classify(n) == Exact
                   && lookups[0] == n && find(n, libname) == None
                   && lookups[1] == search([], WildName(n)) && lookups[1] != []
      ensures !pick.Cancelled? && pick.name != [] ==>
                var n := ToUpper(pick.name);
                match Classify(n)
                case Keyword(keys) => lookups == (if search(keys, n) == [] then [] else [search(keys, n)])
                case ListAll => lookups == (if listPick(libname).None? then [] else [listPick(libname).value])
                case Wildcard => lookups == (if search([], n) == [] then [] else [search([], n)])
                case Exact =>
                  lookups == [n] + (if find(n, libname).None? && search([], WildName(n)) != []
                                    then [search([], WildName(n))] else [])
      ensures r.Some? ==> lastComponentName == r.value.name
      ensures r.None? ==> lastComponentName == old(lastComponentName)
    {
      r, part, lookups := None, null, [];
      var unit, convert := 1, 1;
      var name: string;
      var keys: string := [];
      var allowWildSearch := true;
      match pick {
        case Cancelled =>
          return;
        case Typed(n) =>
          name := n;
        case Browsed(n, u, c) =>
          name, unit, convert := n, u, c;
      }
      if name == [] {
        return;
      }
      name := ToUpper(name);
      if name[0] == '=' {
        allowWildSearch := false;
        keys := name[1..];
        name := search(keys, name);
        if name == [] {
          return;
        }
      } else if name == "*" {
        allowWildSearch := false;
        var picked := listPick(libname);
        if picked.None? {
          return;
        }
        name := picked.value;
      } else if HasWildcard(name) {
        allowWildSearch := false;
        name := search(keys, name);
        if name == [] {
          return;
        }
      }
      var entry := find(name, libname);
      lookups := [name];
      if entry.None? && allowWildSearch {
        allowWildSearch := false;
        name := search(keys, WildName(name));
        if name != [] {
          entry := find(name, libname);
          lookups := lookups + [name];
        }
        if entry.None? {
          return;
        }
      }
      if entry.None? {
        return;
      }
      lastComponentName := name;
      r := Some(Placement(name, entry.value, unit, convert));
      part := new Component(name, unit, convert, true);
    }

    /**
      OnSelectUnit: when the unit rule applies, the component gets the new
      unit with its flags as they were; a component with no command in
      progress is first copied to the undo list. Otherwise nothing changes.
    */
    method OnSelectUnit(menuId: int, item: Component?, lookup: PartLookup)
      modifies this`undoList, item
      ensures item == null || lookup(item.libName).None? ==> undoList == old(undoList)
      ensures item != null ==> item.libName == old(item.libName) && item.convert == old(item.convert)
                               && item.flags == old(item.flags) && item.transform == old(item.transform)
      ensures item != null && lookup(item.libName).Some? ==>
                var u := SelectedUnit(menuId, lookup(item.libName).value.partCount, old(item.unit));
                && (u.None? ==> item.unit == old(item.unit) && undoList == old(undoList))
                && (u.Some? ==> item.unit == u.value
                                && undoList == old(undoList) + (if old(item.flags) == 0 then [old(item.Snapshot())] else []))
    {
      if item == null {
        return;
      }
      var unit := menuId + 1 - IdSelectUnit1;
      var entry := lookup(item.libName);
      if entry.None? {
        return;
      }
      if !(1 <= unit <= entry.value.partCount) {
        return;
      }
      var unitCount := entry.value.partCount;
      if unitCount <= 1 || item.unit == unit {
        return;
      }
      var flags := item.flags;
      if flags == 0 {
        undoList := undoList + [item.Snapshot()];
      }
      item.SetUnit(unit);
      item.SetFlags(flags);
    }

    /**
      ConvertPart: steps the component to its next body style when its
      library entry has a converted shape; a missing component, a missing
      entry or an entry without conversion leave everything as it was.
    */
    method ConvertPart(item: Component?, lookup: PartLookup)
      modifies item
      ensures item != null ==> item.libName == old(item.libName) && item.unit == old(item.unit)
                               && item.flags == old(item.flags) && item.transform == old(item.transform)
      ensures item != null ==>
                if lookup(item.libName).Some? && lookup(item.libName).value.hasConversion
                then item.convert == NextConvert(old(item.convert))
                else item.convert == old(item.convert)
    {
      if item == null {
        return;
      }
      var entry := lookup(item.libName);
      if entry.None? {
        return;
      }
      if !entry.value.hasConversion {
        return;
      }
      item.SetConvert(item.convert + 1);
      if item.convert > 2 {
        item.SetConvert(1);
      }
    }

    /**
      OnChangeComponentOrientation: applies the command the menu id names; a
      component with no command in progress is first copied to the undo list.
    */
    method OnChangeComponentOrientation(menuId: int, item: Component?)
      modifies this`undoList, item
      ensures item == null ==> undoList == old(undoList)
      ensures item != null ==>
                && undoList == old(undoList) + (if old(item.flags) == 0 then [old(item.Snapshot())] else [])
                && item.libName == old(item.libName) && item.unit == old(item.unit)
                && item.convert == old(item.convert) && item.flags == old(item.flags)
                && (OrientationForMenuId(menuId) == Normal ==> item.transform == [])
                && (OrientationForMenuId(menuId) != Normal ==>
                      item.transform == old(item.transform) + [OrientationForMenuId(menuId)])
    {
      if item == null {
        return;
      }
      var orientation := OrientationForMenuId(menuId);
      if item.flags == 0 {
        undoList := undoList + [item.Snapshot()];
      }
      item.SetOrientation(orientation);
    }

    /**
      StartMovePart: keeps a copy for aborting the move when no command is
      in progress, and leaves the component flagged as moved.
    */
    method StartMovePart(item: Component?)
      modifies this`undoItem, item
      ensures item == null ==> undoItem == old(undoItem)
      ensures item != null ==>
                && undoItem == (if old(item.flags) == 0 then Some(old(item.Snapshot())) else old(undoItem))
                && item.flags == old(item.flags) | IsMoved
                && item.flags & IsMoved == IsMoved
                && item.libName == old(item.libName) && item.unit == old(item.unit)
                && item.convert == old(item.convert) && item.transform == old(item.transform)
    {
      if item == null {
        return;
      }
      if item.flags == 0 {
        undoItem := Some(item.Snapshot());
      }
      item.SetFlags(IsMoved);
    }
  }
}
