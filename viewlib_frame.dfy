/**
  The library viewer's selection state (eeschema/viewlib_frame.cpp): the
  remembered library, entry, unit, body style and export name, shared by
  every viewer frame, and the two list boxes a frame fills from the loaded
  libraries.
*/
module LibViewer {
  import opened Common

  /** wxNOT_FOUND, and the selection of a list box with nothing selected. */
  const NotFound: int := -1

  /** The default width of both lists. */
  const DefaultListWidth: int := 150

  const LibListWidthKey: string := "Liblist_width"
  const CmpListWidthKey: string := "Cmplist_width"

  /**
    wxListBox::FindString with its default, case-insensitive comparison:
    the first index whose string equals `s` up to case, or NotFound.
  */
  function FindNoCase(items: seq<string>, s: string): (k: int)
    ensures k == NotFound || 0 <= k < |items|
    ensures k == NotFound <==> forall i :: 0 <= i < |items| ==> !EqualNoCase(items[i], s)
    ensures k != NotFound ==> EqualNoCase(items[k], s)
                              && forall i :: 0 <= i < k ==> !EqualNoCase(items[i], s)
    decreases |items|
  {
    if items == [] then NotFound
    else if EqualNoCase(items[0], s) then 0
    else
      var k := FindNoCase(items[1..], s);
      if k == NotFound then NotFound else k + 1
  }

  /** A list width as LoadSettings leaves it: the stored value, or the
      default, but never more than half the frame. */
  function ClampedWidth(stored: Option<int>, frameWidth: int): (w: int)
    ensures w <= HalfTruncated(frameWidth)
    ensures var v := if stored.Some? then stored.value else DefaultListWidth;
            w == v || (v > HalfTruncated(frameWidth) && w == HalfTruncated(frameWidth))
  {
    var v := if stored.Some? then stored.value else DefaultListWidth;
    if v > HalfTruncated(frameWidth) then HalfTruncated(frameWidth) else v
  }

  /** The integer under `key` in the configuration, if there is one. */
  function ReadKey(cfg: map<string, int>, key: string): (v: Option<int>)
    ensures v.Some? <==> key in cfg
    ensures v.Some? ==> v.value == cfg[key]
  {
    if key in cfg then Some(cfg[key]) else None
  }

  /** The remembered library, entry, unit and body style together with the
      component list and its selection. */
  datatype Listing = Listing(libraryName: string, entryName: string, unit: int, convert: int,
                             cmpItems: seq<string>, cmpSelection: int)

  /**
    The component list rebuilt from a remembered selection (the rule of
    ReCreateListCmp). An unknown library clears everything. Otherwise the
    list is the library's entries, and the remembered entry survives, with
    its unit and body style, exactly when the list has it up to case.
  */
  function CmpListing(libraryName: string, entryName: string, unit: int, convert: int, libs: Libraries): (r: Listing)
    ensures libs.find(libraryName).None? ==> r == Listing([], [], 1, 1, [], NotFound)
    ensures libs.find(libraryName).Some? ==>
              && r.libraryName == libraryName
              && r.cmpItems == libs.find(libraryName).value
              && r.cmpSelection == FindNoCase(r.cmpItems, entryName)
    ensures NotFound <= r.cmpSelection < |r.cmpItems|
    ensures r.cmpSelection != NotFound ==> r.entryName == entryName && r.unit == unit && r.convert == convert
    ensures r.cmpSelection == NotFound ==> r.entryName == [] && r.unit == 1 && r.convert == 1
    ensures r.entryName == [] || EqualNoCase(r.cmpItems[r.cmpSelection], r.entryName)
  {
    match libs.find(libraryName)
    case None => Listing([], [], 1, 1, [], NotFound)
    case Some(items) =>
      var k := FindNoCase(items, entryName);
      if k == NotFound then Listing(libraryName, [], 1, 1, items, NotFound)
      else Listing(libraryName, entryName, unit, convert, items, k)
  }

  /**
    The listing after the library list is rebuilt (the rule of
    ReCreateListLib): a remembered library that is not loaded any more is
    forgotten with its entry, unit and body style, then the component list
    is rebuilt.
  */
  function LibListing(l: Listing, libs: Libraries): (r: Listing)
    ensures FindNoCase(libs.names, l.libraryName) == NotFound ==>
              r.libraryName == [] && r.entryName == [] && r.unit == 1 && r.convert == 1
    ensures FindNoCase(libs.names, l.libraryName) != NotFound && libs.find(l.libraryName).Some? ==>
              && r.libraryName == l.libraryName
              && r.cmpItems == libs.find(l.libraryName).value
              && r.cmpSelection == FindNoCase(r.cmpItems, l.entryName)
              && (r.cmpSelection != NotFound ==> r.entryName == l.entryName && r.unit == l.unit && r.convert == l.convert)
  {
    if FindNoCase(libs.names, l.libraryName) == NotFound then CmpListing([], [], 1, 1, libs)
    else CmpListing(l.libraryName, l.entryName, l.unit, l.convert, libs)
  }

  /**
    After the library list is rebuilt the selection is consistent: the
    remembered library is none or a library of the list, and the remembered
    entry is none or the selected entry of the component list.
  */
  lemma LibListingConsistent(l: Listing, libs: Libraries)
    ensures var r := LibListing(l, libs);
      && (r.libraryName == [] || FindNoCase(libs.names, r.libraryName) != NotFound)
      && (r.entryName == [] || (r.cmpSelection != NotFound && EqualNoCase(r.cmpItems[r.cmpSelection], r.entryName)))
  {
  }

  /**
    The selection the viewer remembers between its frames: the static
    members m_libraryName, m_entryName, m_unit, m_convert and
    m_exportToEeschemaCmpName.
  */
  class ViewerSelection {
    var libraryName: string
    var entryName: string
    var unit: int
    var convert: int
    var exportName: string

    constructor ()
      ensures libraryName == [] && entryName == [] && unit == 1 && convert == 1 && exportName == []
    {
      libraryName, entryName := [], [];
      unit, convert := 1, 1;
      exportName := [];
    }
  }

  /** The loaded libraries: GetLibraryNames, and FindLibrary giving the
      entry names of the library it finds. */
  datatype Libraries = Libraries(names: seq<string>, find: string -> Option<seq<string>>)

  /**
    A viewer frame (LIB_VIEW_FRAME). The library list exists only when the
    viewer was opened on all libraries; a selection of NotFound means none.
  */
  class LibViewFrame {
    const sel: ViewerSelection
    var hasLibList: bool
    var libItems: seq<string>
    var libSelection: int
    var cmpItems: seq<string>
    var cmpSelection: int
    var libListWidth: int
    var cmpListWidth: int
    var frameWidth: int

    ghost predicate Valid()
      reads this
    {
      && NotFound <= libSelection < |libItems|
      && NotFound <= cmpSelection < |cmpItems|
      && (!hasLibList ==> libItems == [] && libSelection == NotFound)
    }

    /** The shared selection together with this frame's component list. */
    function Listed(): Listing
      reads this, sel
    {
      Listing(sel.libraryName, sel.entryName, sel.unit, sel.convert, cmpItems, cmpSelection)
    }

    /**
      Construction: the export name is emptied and the list widths are
      loaded. Opened on a given library, the frame has no library list, the
      selection becomes that library with no entry, unit and body style 1,
      and the library list is given no width; otherwise the library list is
      built and the selection checked against it.
    */
    constructor (shared: ViewerSelection, library: Option<string>, cfg: map<string, int>,
                 aFrameWidth: int, libs: Libraries)
      modifies shared
      ensures sel == shared && Valid()
      ensures frameWidth == aFrameWidth
      ensures cmpListWidth == ClampedWidth(ReadKey(cfg, CmpListWidthKey), aFrameWidth)
      ensures library.Some? ==>
                && !hasLibList && libListWidth == 0
                && sel.libraryName == library.value && sel.entryName == []
                && sel.unit == 1 && sel.convert == 1 && sel.exportName == []
                && cmpItems == [] && cmpSelection == NotFound
      ensures library.None? ==>
                && hasLibList && libItems == libs.names
                && libListWidth == ClampedWidth(ReadKey(cfg, LibListWidthKey), aFrameWidth)
                && sel.exportName == []
                && libSelection == FindNoCase(libs.names, old(shared.libraryName))
                && Listed() == LibListing(Listing(old(shared.libraryName), old(shared.entryName),
                                                  old(shared.unit), old(shared.convert), [], NotFound), libs)
    {
      sel := shared;
      hasLibList := library.None?;
      libItems, libSelection := [], NotFound;
      cmpItems, cmpSelection := [], NotFound;
      frameWidth := aFrameWidth;
      libListWidth := ClampedWidth(ReadKey(cfg, LibListWidthKey), aFrameWidth);
      cmpListWidth := ClampedWidth(ReadKey(cfg, CmpListWidthKey), aFrameWidth);
      new;
      shared.exportName := [];
      if library.Some? {
        shared.libraryName := library.value;
        shared.entryName := [];
        shared.unit := 1;
        shared.convert := 1;
        libListWidth := 0;
      } else {
        ReCreateListLib(libs);
      }
    }

    /**
      ReCreateListLib: refills the library list with the loaded library
      names and reselects the remembered library (compared up to case). A
      library no longer loaded clears the whole selection. The component
      list is then rebuilt.
    */
    method ReCreateListLib(libs: Libraries)
      requires Valid()
      modifies this`libItems, this`libSelection, this`cmpItems, this`cmpSelection, sel
      ensures Valid()
      ensures !hasLibList ==> libItems == old(libItems) && libSelection == old(libSelection)
                              && cmpItems == old(cmpItems) && cmpSelection == old(cmpSelection)
                              && sel.libraryName == old(sel.libraryName) && sel.entryName == old(sel.entryName)
                              && sel.unit == old(sel.unit) && sel.convert == old(sel.convert)
      ensures sel.exportName == old(sel.exportName)
      ensures hasLibList ==>
                && libItems == libs.names
                && libSelection == FindNoCase(libs.names, old(sel.libraryName))
                && Listed() == LibListing(old(Listed()), libs)
    {
      if !hasLibList {
        return;
      }
      libItems := libs.names;
      libSelection := NotFound;
      var index := FindNoCase(libItems, sel.libraryName);
      if index != NotFound {
        libSelection := index;
      } else {
        sel.libraryName := [];
        sel.entryName := [];
        sel.unit := 1;
        sel.convert := 1;
      }
      ReCreateListCmp(libs);
    }

    /**
      ReCreateListCmp: refills the component list from the remembered
      library. An unknown library clears the selection and leaves the list
      empty. Otherwise the remembered entry is kept, and selected, only when
      the library has it (compared up to case); if not, the entry is cleared
      and unit and body style go back to 1.
    */
    method ReCreateListCmp(libs: Libraries)
      requires Valid()
      modifies this`cmpItems, this`cmpSelection, sel
      ensures Valid()
      ensures sel.exportName == old(sel.exportName)
      ensures Listed() == CmpListing(old(sel.libraryName), old(sel.entryName), old(sel.unit), old(sel.convert), libs)
    {
      cmpItems := [];
      cmpSelection := NotFound;
      var library := libs.find(sel.libraryName);
      if library.None? {
        sel.libraryName := [];
        sel.entryName := [];
        sel.convert := 1;
        sel.unit := 1;
        return;
      }
      cmpItems := library.value;
      var index := FindNoCase(cmpItems, sel.entryName);
      if index == NotFound {
        sel.entryName := [];
        sel.convert := 1;
        sel.unit := 1;
      } else {
        cmpSelection := index;
      }
    }

    /**
      ClickOnLibList, with `ii` the selection the click left in the library
      list: nothing happens for no selection or for the library already
      chosen; otherwise that library is chosen and the component list
      rebuilt from it.
    */
    method ClickOnLibList(ii: int, libs: Libraries)
      requires Valid() && hasLibList
      requires NotFound <= ii < |libItems|
      modifies this`libSelection, this`cmpItems, this`cmpSelection, sel
      ensures Valid() && libSelection == ii
      ensures sel.exportName == old(sel.exportName)
      ensures ii < 0 || old(sel.libraryName) == libItems[ii] ==>
                && cmpItems == old(cmpItems) && cmpSelection == old(cmpSelection)
                && sel.libraryName == old(sel.libraryName) && sel.entryName == old(sel.entryName)
                && sel.unit == old(sel.unit) && sel.convert == old(sel.convert)
      ensures ii >= 0 && old(sel.libraryName) != libItems[ii] ==>
                Listed() == CmpListing(libItems[ii], old(sel.entryName), old(sel.unit), old(sel.convert), libs)
    {
      libSelection := ii;
      if ii < 0 {
        return;
      }
      var name := libItems[ii];
      if sel.libraryName == name {
        return;
      }
      sel.libraryName := name;
      ReCreateListCmp(libs);
    }

    /**
      ClickOnCmpList, with `ii` the selection the click left in the
      component list: an entry whose name differs, up to case, from the
      remembered one becomes the selection with unit and body style 1;
      otherwise nothing changes.
    */
    method ClickOnCmpList(ii: int)
      requires Valid()
      requires NotFound <= ii < |cmpItems|
      modifies this`cmpSelection, sel`entryName, sel`unit, sel`convert
      ensures Valid() && cmpSelection == ii
      ensures ii >= 0 && !EqualNoCase(old(sel.entryName), cmpItems[ii]) ==>
                sel.entryName == cmpItems[ii] && sel.unit == 1 && sel.convert == 1
      ensures ii < 0 || EqualNoCase(old(sel.entryName), cmpItems[ii]) ==>
                sel.entryName == old(sel.entryName) && sel.unit == old(sel.unit) && sel.convert == old(sel.convert)
    {
      cmpSelection := ii;
      if ii < 0 {
        return;
      }
      var name := cmpItems[ii];
      if !EqualNoCase(sel.entryName, name) {
        sel.entryName := name;
        sel.unit := 1;
        sel.convert := 1;
      }
    }

    /** ExportToSchematicLibraryPart: the export name is the selected
        component's name, or empty when none is selected. */
    method ExportToSchematicLibraryPart()
      requires Valid()
      modifies sel`exportName
      ensures cmpSelection >= 0 ==> sel.exportName == cmpItems[cmpSelection]
      ensures cmpSelection < 0 ==> sel.exportName == []
    {
      var ii := cmpSelection;
      if ii >= 0 {
        sel.exportName := cmpItems[ii];
      } else {
        sel.exportName := [];
      }
    }

    /**
      LoadSettings: each width is the stored value, or 150 when none is
      stored, cut down to half the frame width.
    */
    method LoadSettings(cfg: map<string, int>)
      modifies this`libListWidth, this`cmpListWidth
      ensures libListWidth == ClampedWidth(ReadKey(cfg, LibListWidthKey), frameWidth)
      ensures cmpListWidth == ClampedWidth(ReadKey(cfg, CmpListWidthKey), frameWidth)
      ensures libListWidth <= HalfTruncated(frameWidth) && cmpListWidth <= HalfTruncated(frameWidth)
    {
      libListWidth := DefaultListWidth;
      cmpListWidth := DefaultListWidth;
      var lib := ReadKey(cfg, LibListWidthKey);
      if lib.Some? {
        libListWidth := lib.value;
      }
      var cmp := ReadKey(cfg, CmpListWidthKey);
      if cmp.Some? {
        cmpListWidth := cmp.value;
      }
      if libListWidth > HalfTruncated(frameWidth) {
        libListWidth := HalfTruncated(frameWidth);
      }
      if cmpListWidth > HalfTruncated(frameWidth) {
        cmpListWidth := HalfTruncated(frameWidth);
      }
    }

    /**
      SaveSettings: the configuration with the component-list width written,
      and the library-list width written only when it is not zero.
    */
    method SaveSettings(cfg: map<string, int>) returns (saved: map<string, int>)
      ensures CmpListWidthKey in saved && saved[CmpListWidthKey] == cmpListWidth
      ensures libListWidth != 0 ==> saved == cfg[LibListWidthKey := libListWidth][CmpListWidthKey := cmpListWidth]
      ensures libListWidth == 0 ==> saved == cfg[CmpListWidthKey := cmpListWidth]
      ensures forall k :: k in cfg ==> k in saved
    {
      saved := cfg;
      if libListWidth != 0 {
        saved := saved[LibListWidthKey := libListWidth];
      }
      saved := saved[CmpListWidthKey := cmpListWidth];
    }

    /**
      OnActivate: an active frame forgets its last export, and the library
      list, if there is one, is rebuilt (the libraries may have changed).
    */
    method OnActivate(frameIsActive: bool, libs: Libraries)
      requires Valid()
      modifies this`libItems, this`libSelection, this`cmpItems, this`cmpSelection, sel
      ensures Valid()
      ensures frameIsActive ==> sel.exportName == []
      ensures !frameIsActive ==> sel.exportName == old(sel.exportName)
      ensures hasLibList ==>
                && libItems == libs.names
                && libSelection == FindNoCase(libs.names, old(sel.libraryName))
                && Listed() == LibListing(old(Listed()), libs)
      ensures !hasLibList ==> libItems == old(libItems) && libSelection == old(libSelection)
                              && Listed() == old(Listed())
    {
      if frameIsActive {
        sel.exportName := [];
      }
      if hasLibList {
        ReCreateListLib(libs);
      }
    }
  }

  /**
    The list widths survive a save and a load in the same frame: a width
    already within half the frame comes back unchanged, except that a
    library-list width of zero is not saved and the previously stored value
    (or the default) is read instead.
  */
  lemma WidthsRoundTrip(cfg: map<string, int>, libWidth: int, cmpWidth: int, frameWidth: int)
    requires libWidth <= HalfTruncated(frameWidth) && cmpWidth <= HalfTruncated(frameWidth)
    ensures var saved := if libWidth != 0 then cfg[LibListWidthKey := libWidth][CmpListWidthKey := cmpWidth]
                         else cfg[CmpListWidthKey := cmpWidth];
      && ClampedWidth(ReadKey(saved, CmpListWidthKey), frameWidth) == cmpWidth
      && (libWidth != 0 ==> ClampedWidth(ReadKey(saved, LibListWidthKey), frameWidth) == libWidth)
      && (libWidth == 0 ==> ClampedWidth(ReadKey(saved, LibListWidthKey), frameWidth)
                              == ClampedWidth(ReadKey(cfg, LibListWidthKey), frameWidth))
  {
    assert LibListWidthKey != CmpListWidthKey;
  }

  /** Loading twice from the same configuration changes nothing more: a
      loaded width is already within half the frame. */
  lemma ClampedWidthIdempotent(stored: Option<int>, frameWidth: int)
    ensures ClampedWidth(Some(ClampedWidth(stored, frameWidth)), frameWidth) == ClampedWidth(stored, frameWidth)
  {
  }
}
