/** `DraggablePanel` (components/ui/draggable-panel.tsx): a movable, resizable,
    collapsible panel whose position, size and collapsed flag are kept under
    three keys of the browser's `localStorage`. */
module DraggablePanel {
  import opened Browser

  /** The three stored fields of a panel. */
  datatype PanelKey = PositionKey | SizeKey | CollapsedKey

  function KeySuffix(kind: PanelKey): string
  {
    match kind
    case PositionKey => "position"
    case SizeKey => "size"
    case CollapsedKey => "collapsed"
  }

  /** `panel-${id}-position`, `panel-${id}-size`, `panel-${id}-collapsed` */
  function StorageKey(id: string, kind: PanelKey): (key: string)
    ensures StartsWith(key, "panel-" + id + "-")
    ensures |key| == |"panel-" + id + "-"| + |KeySuffix(kind)|
  {
    "panel-" + id + "-" + KeySuffix(kind)
  }

  /** No two (panel, field) pairs share a storage key: the last character
      tells the field apart, and then the id is what is left. */
  lemma StorageKeyInjective(id1: string, kind1: PanelKey, id2: string, kind2: PanelKey)
    ensures StorageKey(id1, kind1) == StorageKey(id2, kind2) <==> id1 == id2 && kind1 == kind2
  {
    var k1, k2 := StorageKey(id1, kind1), StorageKey(id2, kind2);
    if k1 == k2 {
      var s1, s2 := KeySuffix(kind1), KeySuffix(kind2);
      assert k1[|k1| - 1] == s1[|s1| - 1];
      assert k2[|k2| - 1] == s2[|s2| - 1];
      assert kind1 == kind2;
      assert |id1| == |id2|;
      assert id1 == k1[6..6 + |id1|];
      assert id2 == k2[6..6 + |id2|];
    }
  }

  /** `String(b)` for a boolean. */
  function BoolString(b: bool): (s: string)
    ensures s != ""
  {
    if b then "true" else "false"
  }

  /** The restore effect's reading of a saved collapsed flag: a truthy saved
      value means "was it the string true". */
  function RestoredCollapsed(saved: Option<string>, current: bool): bool
  {
    if Truthy(saved) then saved.value == "true" else current
  }

  /** A flag written by `toggleCollapse` reads back unchanged, whatever the
      state it would otherwise keep. */
  lemma {:induction false} CollapsedRoundTrip(b: bool, current: bool)
    ensures RestoredCollapsed(Some(BoolString(b)), current) == b
  {
    if !b {
      assert BoolString(b)[0] == 'f';
    }
  }

  datatype Position = Position(x: real, y: real)

  /** A CSS dimension: a number of pixels or a string such as `'auto'`. */
  datatype Dim = Px(pixels: real) | Css(text: string)

  const Auto: Dim := Css("auto")

  datatype Size = Size(width: Dim, height: Dim)

  const DefaultPosition: Position := Position(20.0, 20.0)
  const DefaultSize: Size := Size(Px(300.0), Auto)

  /** `JSON.stringify` / `JSON.parse` for the two object-valued fields,
      taken as given functions; `None` is a parse that throws. */
  datatype Codec = Codec(
    encodePosition: Position -> string,
    decodePosition: string -> Option<Position>,
    encodeSize: Size -> string,
    decodeSize: string -> Option<Size>)

  /** What JSON guarantees for these objects: a non-empty text that parses
      back to the same value. */
  ghost predicate RoundTrips(codec: Codec)
  {
    && (forall p :: codec.encodePosition(p) != "" && codec.decodePosition(codec.encodePosition(p)) == Some(p))
    && (forall s :: codec.encodeSize(s) != "" && codec.decodeSize(codec.encodeSize(s)) == Some(s))
  }

  /** How the restore effect treats one saved JSON value: keep `current`
      when nothing truthy was saved, otherwise the parse, where `None` is a
      parse that throws. */
  function RestoredField<T>(saved: Option<string>, decode: string -> Option<T>, current: T): (r: Option<T>)
    ensures !Truthy(saved) ==> r == Some(current)
    ensures Truthy(saved) ==> r == decode(saved.value)
  {
    if Truthy(saved) then decode(saved.value) else Some(current)
  }

  /** The props given to the resizable container. */
  datatype Layout = Layout(
    position: Position, width: Dim, height: Dim,
    minWidth: int, minHeight: int, enableResizing: bool, showsContent: bool)

  /** The rendered layout: height `'auto'` whenever collapsed, minimum width
      200, minimum height 50 collapsed and 100 expanded, resizing and content
      only when expanded. */
  function PanelLayout(position: Position, size: Size, collapsed: bool): (l: Layout)
    ensures l.position == position && l.width == size.width
    ensures collapsed ==> l.height == Auto
    ensures !collapsed ==> l.height == size.height
    ensures l.minWidth == 200 && l.minHeight == (if collapsed then 50 else 100)
    ensures l.enableResizing <==> !collapsed
    ensures l.showsContent <==> !collapsed
  {
    Layout(position, size.width, if collapsed then Auto else size.height,
           200, if collapsed then 50 else 100, !collapsed, !collapsed)
  }

  /** A collapsed panel looks the same whatever height is stored, and
      expanding it shows the stored height again. */
  lemma CollapsedLayoutIgnoresStoredHeight(position: Position, width: Dim, h1: Dim, h2: Dim)
    ensures PanelLayout(position, Size(width, h1), true) == PanelLayout(position, Size(width, h2), true)
    ensures PanelLayout(position, Size(width, h1), false).height == h1
  {
  }

  datatype RestoreOutcome = Restored | ParseFailed(key: PanelKey)

  /** `window.localStorage` */
  class LocalStorage {
    var items: map<string, string>

    constructor ()
      ensures items == map[]
    {
      items := map[];
    }

    /** `getItem`: the stored string, or `null` (here `None`). */
    function GetItem(key: string): (r: Option<string>)
      reads this
      ensures r.Some? <==> key in items
      ensures r.Some? ==> r.value == items[key]
    {
      if key in items then Some(items[key]) else None
    }

    method SetItem(key: string, value: string)
      modifies this
      ensures items == old(items)[key := value]
    {
      items := items[key := value];
    }
  }

  class DraggablePanel {
    const id: string
    const storage: LocalStorage
    const codec: Codec
    var isCollapsed: bool
    var position: Position
    var size: Size

    /** Mounting with the `defaultPosition` and `defaultSize` props (a
        caller that omits them passes `DefaultPosition` and `DefaultSize`). */
    constructor (panelId: string, store: LocalStorage, json: Codec, defaultPos: Position, defaultSz: Size)
      ensures id == panelId && storage == store && codec == json
      ensures !isCollapsed && position == defaultPos && size == defaultSz
    {
      id, storage, codec := panelId, store, json;
      isCollapsed, position, size := false, defaultPos, defaultSz;
    }

    /** The effect on `[id]`: read the three keys and override each field
        for which a truthy value was saved. A value that fails to parse
        throws, which ends the effect there. */
    method RestoreEffect() returns (outcome: RestoreOutcome)
      modifies this
      ensures var p := RestoredField(storage.GetItem(StorageKey(id, PositionKey)), codec.decodePosition, old(position));
              var s := RestoredField(storage.GetItem(StorageKey(id, SizeKey)), codec.decodeSize, old(size));
              var c := RestoredCollapsed(storage.GetItem(StorageKey(id, CollapsedKey)), old(isCollapsed));
              if p.None? then
                outcome == ParseFailed(PositionKey)
                && position == old(position) && size == old(size) && isCollapsed == old(isCollapsed)
              else if s.None? then
                outcome == ParseFailed(SizeKey)
                && position == p.value && size == old(size) && isCollapsed == old(isCollapsed)
              else
                outcome == Restored && position == p.value && size == s.value && isCollapsed == c
    {
      var savedPosition := storage.GetItem(StorageKey(id, PositionKey));
      var savedSize := storage.GetItem(StorageKey(id, SizeKey));
      var savedCollapsed := storage.GetItem(StorageKey(id, CollapsedKey));
      if Truthy(savedPosition) {
        var parsed := codec.decodePosition(savedPosition.value);
        if parsed.None? {
          return ParseFailed(PositionKey);
        }
        position := parsed.value;
      }
      if Truthy(savedSize) {
        var parsed := codec.decodeSize(savedSize.value);
        if parsed.None? {
          return ParseFailed(SizeKey);
        }
        size := parsed.value;
      }
      if Truthy(savedCollapsed) {
        isCollapsed := savedCollapsed.value == "true";
      }
      outcome := Restored;
    }

    /** `savePosition`: the state and the stored text get the same position. */
    method SavePosition(newPosition: Position)
      modifies this, storage
      ensures position == newPosition
      ensures storage.items == old(storage.items)[StorageKey(id, PositionKey) := codec.encodePosition(newPosition)]
      ensures size == old(size) && isCollapsed == old(isCollapsed)
    {
      position := newPosition;
      storage.SetItem(StorageKey(id, PositionKey), codec.encodePosition(newPosition));
    }

    /** `saveSize`: the state and the stored text get the same size. */
    method SaveSize(newSize: Size)
      modifies this, storage
      ensures size == newSize
      ensures storage.items == old(storage.items)[StorageKey(id, SizeKey) := codec.encodeSize(newSize)]
      ensures position == old(position) && isCollapsed == old(isCollapsed)
    {
      size := newSize;
      storage.SetItem(StorageKey(id, SizeKey), codec.encodeSize(newSize));
    }

    /** `toggleCollapse`: negate the flag and store `String(newState)` under
        the collapsed key only. */
    method ToggleCollapse()
      modifies this, storage
      ensures isCollapsed == !old(isCollapsed)
      ensures storage.items == old(storage.items)[StorageKey(id, CollapsedKey) := BoolString(isCollapsed)]
      ensures position == old(position) && size == old(size)
    {
      var newState := !isCollapsed;
      isCollapsed := newState;
      storage.SetItem(StorageKey(id, CollapsedKey), BoolString(newState));
    }

    /** `onDragStop` */
    method OnDragStop(x: real, y: real)
      modifies this, storage
      ensures position == Position(x, y) && size == old(size) && isCollapsed == old(isCollapsed)
      ensures storage.items == old(storage.items)[StorageKey(id, PositionKey) := codec.encodePosition(Position(x, y))]
    {
      SavePosition(Position(x, y));
    }

    /** `onResizeStop`: store the element's new width and height (`'auto'`
        while collapsed), then the new position. */
    method OnResizeStop(width: Dim, height: Dim, newPosition: Position)
      modifies this, storage
      ensures size == Size(width, if old(isCollapsed) then Auto else height)
      ensures position == newPosition && isCollapsed == old(isCollapsed)
      ensures storage.items == old(storage.items)
        [StorageKey(id, SizeKey) := codec.encodeSize(size)]
        [StorageKey(id, PositionKey) := codec.encodePosition(newPosition)]
    {
      SaveSize(Size(width, if isCollapsed then Auto else height));
      SavePosition(newPosition);
    }
  }

  /** A panel collapsed or expanded by `toggleCollapse` comes back in the
      same state when a panel with the same id is mounted again. */
  method CollapsedFlagSurvivesRemount(id: string, json: Codec) returns (saved: bool, restored: bool, outcome: RestoreOutcome)
    ensures saved && restored && outcome == Restored
  {
    var storage := new LocalStorage();
    var first := new DraggablePanel(id, storage, json, DefaultPosition, DefaultSize);
    first.ToggleCollapse();
    saved := first.isCollapsed;
    var second := new DraggablePanel(id, storage, json, DefaultPosition, DefaultSize);
    StorageKeyInjective(id, PositionKey, id, CollapsedKey);
    StorageKeyInjective(id, SizeKey, id, CollapsedKey);
    CollapsedRoundTrip(saved, false);
    outcome := second.RestoreEffect();
    restored := second.isCollapsed;
  }

  /** A position saved by dragging and a size saved by resizing are what a
      remounted panel with the same id restores, given that JSON text
      parses back to the object it was made from. */
  method LayoutSurvivesRemount(id: string, json: Codec, x: real, y: real, width: Dim, height: Dim,
                               defaultPos: Position, defaultSz: Size)
    returns (position: Position, size: Size, outcome: RestoreOutcome)
    requires RoundTrips(json)
    ensures position == Position(x, y) && size == Size(width, height) && outcome == Restored
  {
    var storage := new LocalStorage();
    var first := new DraggablePanel(id, storage, json, defaultPos, defaultSz);
    first.OnResizeStop(width, height, Position(x, y));
    var second := new DraggablePanel(id, storage, json, defaultPos, defaultSz);
    StorageKeyInjective(id, PositionKey, id, SizeKey);
    StorageKeyInjective(id, PositionKey, id, CollapsedKey);
    StorageKeyInjective(id, SizeKey, id, CollapsedKey);
    outcome := second.RestoreEffect();
    position, size := second.position, second.size;
  }

  /** With nothing saved under its keys, a mounted panel keeps the position
      and size its caller passed, expanded. */
  method UnsavedPanelKeepsCallerDefaults(id: string, json: Codec, defaultPos: Position, defaultSz: Size)
    returns (position: Position, size: Size, collapsed: bool, outcome: RestoreOutcome)
    ensures position == defaultPos && size == defaultSz && !collapsed && outcome == Restored
  {
    var storage := new LocalStorage();
    var panel := new DraggablePanel(id, storage, json, defaultPos, defaultSz);
    outcome := panel.RestoreEffect();
    position, size, collapsed := panel.position, panel.size, panel.isCollapsed;
  }
}
