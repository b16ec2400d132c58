/** The input system: once per frame it forwards the engine's window, pointer,
    character and keyboard state to the IMGUI as a sequence of calls. The pure
    functions below say which calls a frame's input produces; ProcessInput is the
    system itself and is proved to make exactly those calls. */
module Input {
  import opened Engine
  import opened Lib

  /** The window an event comes from. */
  datatype WindowId = PrimaryWindow | OtherWindow(id: nat)

  /** A pointer movement, in logical window coordinates. */
  datatype CursorMoved = CursorMoved(window: WindowId, position: Point)

  /** A typed character. */
  datatype ReceivedCharacter = ReceivedCharacter(window: WindowId, ch: char)

  /** What the engine says about the primary window. */
  datatype WindowInfo = WindowInfo(physicalWidth: nat, physicalHeight: nat, scaleFactor: real)

  /** The mouse buttons whose press or release happened this frame. */
  datatype MouseEdges = MouseEdges(justPressed: set<MouseButton>, justReleased: set<MouseButton>)

  /** Control characters (Unicode category Cc): U+0000 to U+001F and U+007F to
      U+009F. They are never forwarded as text. */
  predicate IsControl(c: char)
  {
    c as int <= 0x1F || 0x7F <= c as int <= 0x9F
  }

  /** Shift is held when either shift key is. */
  predicate ShiftHeld(keys: set<Key>)
  {
    LShift in keys || RShift in keys
  }

  /** Control is held when either control key is. */
  predicate CtrlHeld(keys: set<Key>)
  {
    LControl in keys || RControl in keys
  }

  /** The editing keys the IMGUI is told about, in the order it is told: each
      engine key paired with the IMGUI key it becomes. */
  const KeyTable: seq<(Key, UiKey)> :=
    [(Up, UiUp), (Down, UiDown), (Right, UiRight), (Left, UiLeft), (Home, UiHome), (End, UiEnd),
     (Delete, UiDelete), (Back, UiBackspace), (Return, UiEnter), (Tab, UiTab),
     (Z, UiZ), (Y, UiY), (C, UiC), (X, UiX), (V, UiV), (A, UiA)]

  /** The key-down calls for the first `n` entries of a table: one per held key,
      in table order. */
  function TableCalls(table: seq<(Key, UiKey)>, n: nat, keys: set<Key>, shift: bool, ctrl: bool): seq<UiCall>
    requires n <= |table|
  {
    if n == 0 then [] else TableCalls(table, n - 1, keys, shift, ctrl) + Pressed(keys, table[n - 1], shift, ctrl)
  }

  /** The key-down for one table entry: one call when its engine key is held,
      none otherwise. */
  function Pressed(keys: set<Key>, entry: (Key, UiKey), shift: bool, ctrl: bool): seq<UiCall>
  {
    if entry.0 in keys then [KeyDown(entry.1, shift, ctrl)] else []
  }

  /** The key-down calls of a frame. */
  function KeyDownCalls(keys: set<Key>, shift: bool, ctrl: bool): seq<UiCall>
  {
    TableCalls(KeyTable, |KeyTable|, keys, shift, ctrl)
  }

  /** The calls for a table's first `n` entries are key-downs with the frame's
      modifiers, one for each held key among those entries and for nothing else. */
  lemma {:induction false} TableCallsAreHeldKeys(table: seq<(Key, UiKey)>, n: nat, keys: set<Key>, shift: bool, ctrl: bool)
    requires n <= |table|
    ensures |TableCalls(table, n, keys, shift, ctrl)| <= n
    ensures forall c :: c in TableCalls(table, n, keys, shift, ctrl) <==>
      exists i :: 0 <= i < n && table[i].0 in keys && c == KeyDown(table[i].1, shift, ctrl)
  {
    if n != 0 {
      TableCallsAreHeldKeys(table, n - 1, keys, shift, ctrl);
    }
  }

  /** The position of each IMGUI key in the key table. */
  function KeyRank(u: UiKey): nat
  {
    match u
    case UiUp => 0 case UiDown => 1 case UiRight => 2 case UiLeft => 3
    case UiHome => 4 case UiEnd => 5 case UiDelete => 6 case UiBackspace => 7
    case UiEnter => 8 case UiTab => 9 case UiZ => 10 case UiY => 11
    case UiC => 12 case UiX => 13 case UiV => 14 case UiA => 15
  }

  /** The IMGUI keys of a table come in increasing rank. */
  predicate RanksIncrease(table: seq<(Key, UiKey)>)
  {
    forall i, j :: 0 <= i < j < |table| ==> KeyRank(table[i].1) < KeyRank(table[j].1)
  }

  /** The rank of a key-down call's key; other calls rank below every key. */
  function CallRank(c: UiCall): int
  {
    if c.KeyDown? then KeyRank(c.key) else -1
  }

  /** Every call is a key-down, each with a higher-ranked key than the one before. */
  predicate InRankOrder(calls: seq<UiCall>)
  {
    forall p, q :: 0 <= p < q < |calls| ==> 0 <= CallRank(calls[p]) < CallRank(calls[q])
  }

  /** When a table's IMGUI keys come in increasing rank, so do its calls: each
      key-down comes after the key-downs of earlier entries. */
  lemma {:induction false} TableCallsInTableOrder(table: seq<(Key, UiKey)>, n: nat, keys: set<Key>, shift: bool, ctrl: bool)
    requires n <= |table| && RanksIncrease(table)
    ensures InRankOrder(TableCalls(table, n, keys, shift, ctrl))
  {
    if n != 0 {
      TableCallsInTableOrder(table, n - 1, keys, shift, ctrl);
      TableCallsAreHeldKeys(table, n - 1, keys, shift, ctrl);
      var last := table[n - 1];
      var prev := TableCalls(table, n - 1, keys, shift, ctrl);
      if last.0 in keys {
        forall p | 0 <= p < |prev|
          ensures 0 <= CallRank(prev[p]) < KeyRank(last.1)
        {
          assert prev[p] in prev;
          var m :| 0 <= m < n - 1 && table[m].0 in keys && prev[p] == KeyDown(table[m].1, shift, ctrl);
        }
        assert TableCalls(table, n, keys, shift, ctrl) == prev + [KeyDown(last.1, shift, ctrl)];
      } else {
        assert TableCalls(table, n, keys, shift, ctrl) == prev + [];
      }
    }
  }

  /** The key table lists the IMGUI keys in rank order. */
  lemma KeyTableRanked()
    ensures RanksIncrease(KeyTable)
  {
    assert forall i :: 0 <= i < |KeyTable| ==> KeyRank(KeyTable[i].1) == i;
  }

  /** A frame's key-down calls: exactly one for each held editing key (`Back`
      becomes Backspace and `Return` becomes Enter), each carrying the frame's
      modifiers, in table order (so none repeated), at most sixteen. */
  lemma KeyDownCallsExact(keys: set<Key>, shift: bool, ctrl: bool)
    ensures |KeyDownCalls(keys, shift, ctrl)| <= 16
    ensures forall c :: c in KeyDownCalls(keys, shift, ctrl) <==>
      exists i :: 0 <= i < |KeyTable| && KeyTable[i].0 in keys && c == KeyDown(KeyTable[i].1, shift, ctrl)
    ensures InRankOrder(KeyDownCalls(keys, shift, ctrl))
    ensures var calls := KeyDownCalls(keys, shift, ctrl);
      forall p, q :: 0 <= p < q < |calls| ==> calls[p] != calls[q]
    ensures Back in keys <==> KeyDown(UiBackspace, shift, ctrl) in KeyDownCalls(keys, shift, ctrl)
    ensures Return in keys <==> KeyDown(UiEnter, shift, ctrl) in KeyDownCalls(keys, shift, ctrl)
  {
    TableCallsAreHeldKeys(KeyTable, |KeyTable|, keys, shift, ctrl);
    KeyTableRanked();
    TableCallsInTableOrder(KeyTable, |KeyTable|, keys, shift, ctrl);
    assert KeyTable[7] == (Back, UiBackspace);
    assert KeyTable[8] == (Return, UiEnter);
  }

  /** The character calls of a frame: the characters typed in the primary window
      that are not control characters, in event order, each with the frame's
      modifiers. */
  function CharCalls(chars: seq<ReceivedCharacter>, shift: bool, ctrl: bool): seq<UiCall>
  {
    if chars == [] then []
    else
      var init := CharCalls(chars[..|chars| - 1], shift, ctrl);
      var e := chars[|chars| - 1];
      if e.window == PrimaryWindow && !IsControl(e.ch) then init + [CharEvent(e.ch, shift, ctrl)] else init
  }

  /** The characters of two batches of events are those of the first and then
      those of the second: the filter keeps event order. */
  lemma {:induction false} CharCallsAppend(a: seq<ReceivedCharacter>, b: seq<ReceivedCharacter>, shift: bool, ctrl: bool)
    ensures CharCalls(a + b, shift, ctrl) == CharCalls(a, shift, ctrl) + CharCalls(b, shift, ctrl)
  {
    if b == [] {
      assert a + b == a;
    } else {
      var binit := b[..|b| - 1];
      CharCallsAppend(a, binit, shift, ctrl);
      assert (a + b)[..|a + b| - 1] == a + binit;
    }
  }

  /** A character is forwarded exactly when some event typed it in the primary
      window and it is not a control character; nothing else is forwarded. */
  lemma {:induction false} CharCallsExact(chars: seq<ReceivedCharacter>, shift: bool, ctrl: bool)
    ensures |CharCalls(chars, shift, ctrl)| <= |chars|
    ensures forall c :: c in CharCalls(chars, shift, ctrl) <==>
      exists i :: 0 <= i < |chars| && chars[i].window == PrimaryWindow && !IsControl(chars[i].ch)
                  && c == CharEvent(chars[i].ch, shift, ctrl)
  {
    if chars != [] {
      var init := chars[..|chars| - 1];
      CharCallsExact(init, shift, ctrl);
      forall c | c in CharCalls(chars, shift, ctrl)
        ensures exists i :: 0 <= i < |chars| && chars[i].window == PrimaryWindow && !IsControl(chars[i].ch)
                            && c == CharEvent(chars[i].ch, shift, ctrl)
      {
        if c in CharCalls(init, shift, ctrl) {
          var i :| 0 <= i < |init| && init[i].window == PrimaryWindow && !IsControl(init[i].ch)
                   && c == CharEvent(init[i].ch, shift, ctrl);
          assert chars[i] == init[i];
        } else {
          assert chars[|chars| - 1].window == PrimaryWindow;
        }
      }
      forall i | 0 <= i < |chars| && chars[i].window == PrimaryWindow && !IsControl(chars[i].ch)
        ensures CharEvent(chars[i].ch, shift, ctrl) in CharCalls(chars, shift, ctrl)
      {
        if i < |init| {
          assert init[i] == chars[i];
        }
      }
    }
  }

  /** The mouse-button calls of a frame, at the cached pointer position: a press
      of the left button, then a release of the left button. */
  function MouseCalls(mouse: MouseEdges, position: Point): seq<UiCall>
  {
    (if LeftButton in mouse.justPressed then [MouseDown(position)] else [])
    + (if LeftButton in mouse.justReleased then [MouseUp(position)] else [])
  }

  /** Only the left button reaches the IMGUI, and a press in the same frame as a
      release is reported first; the other buttons never matter. */
  lemma MouseCallsLeftOnly(mouse: MouseEdges, position: Point, other: MouseEdges)
    requires (LeftButton in mouse.justPressed <==> LeftButton in other.justPressed)
    requires (LeftButton in mouse.justReleased <==> LeftButton in other.justReleased)
    ensures MouseCalls(mouse, position) == MouseCalls(other, position)
    ensures MouseDown(position) in MouseCalls(mouse, position) <==> LeftButton in mouse.justPressed
    ensures MouseUp(position) in MouseCalls(mouse, position) <==> LeftButton in mouse.justReleased
    ensures LeftButton in mouse.justPressed && LeftButton in mouse.justReleased ==>
      MouseCalls(mouse, position) == [MouseDown(position), MouseUp(position)]
  {
  }

  /** The cached pointer position after the frame's latest pointer movement: moved
      only when that movement is in the primary window. */
  function NextMousePosition(cached: Point, latest: Option<CursorMoved>, size: WindowSize,
                             toUiSpace: (Point, WindowSize) -> Point): Point
  {
    if latest.Some? && latest.value.window == PrimaryWindow then toUiSpace(latest.value.position, size) else cached
  }

  /** The window size after the frame: the primary window's, when there is one. */
  function NextWindowSize(size: WindowSize, primary: Option<WindowInfo>): WindowSize
  {
    if primary.Some? then WindowSize(primary.value.physicalWidth as real, primary.value.physicalHeight as real, primary.value.scaleFactor)
    else size
  }

  /** Every call a frame's input produces, in order: the pointer move, the mouse
      buttons, the characters, then the keys. */
  function InputCalls(cached: Point, latest: Option<CursorMoved>, size: WindowSize,
                      toUiSpace: (Point, WindowSize) -> Point, mouse: MouseEdges,
                      chars: seq<ReceivedCharacter>, keys: set<Key>): seq<UiCall>
  {
    var position := NextMousePosition(cached, latest, size, toUiSpace);
    (if latest.Some? && latest.value.window == PrimaryWindow then [MouseMove(position)] else [])
    + MouseCalls(mouse, position)
    + CharCalls(chars, ShiftHeld(keys), CtrlHeld(keys))
    + KeyDownCalls(keys, ShiftHeld(keys), CtrlHeld(keys))
  }

  /** Every text and key call of a frame carries the same modifiers: shift when a
      shift key is held and ctrl when a control key is. */
  lemma {:induction false} InputCallsShareModifiers(cached: Point, latest: Option<CursorMoved>, size: WindowSize,
                                                    toUiSpace: (Point, WindowSize) -> Point, mouse: MouseEdges,
                                                    chars: seq<ReceivedCharacter>, keys: set<Key>)
    ensures forall c :: c in InputCalls(cached, latest, size, toUiSpace, mouse, chars, keys) && (c.CharEvent? || c.KeyDown?) ==>
      c.shift == ShiftHeld(keys) && c.ctrl == CtrlHeld(keys)
  {
    var shift, ctrl := ShiftHeld(keys), CtrlHeld(keys);
    CharCallsExact(chars, shift, ctrl);
    KeyDownCallsExact(keys, shift, ctrl);
    var position := NextMousePosition(cached, latest, size, toUiSpace);
    var moves := if latest.Some? && latest.value.window == PrimaryWindow then [MouseMove(position)] else [];
    assert InputCalls(cached, latest, size, toUiSpace, mouse, chars, keys)
      == moves + MouseCalls(mouse, position) + CharCalls(chars, shift, ctrl) + KeyDownCalls(keys, shift, ctrl);
  }

  /** A pointer movement outside the primary window (or none at all) is ignored:
      the cached position stays, the IMGUI gets no pointer move, and the button
      calls use the cached position. */
  lemma CursorOutsidePrimaryIgnored(cached: Point, latest: Option<CursorMoved>, size: WindowSize,
                                    toUiSpace: (Point, WindowSize) -> Point, mouse: MouseEdges,
                                    chars: seq<ReceivedCharacter>, keys: set<Key>)
    requires latest.None? || latest.value.window != PrimaryWindow
    ensures NextMousePosition(cached, latest, size, toUiSpace) == cached
    ensures forall c :: c in InputCalls(cached, latest, size, toUiSpace, mouse, chars, keys) ==> !c.MouseMove?
    ensures forall c :: c in InputCalls(cached, latest, size, toUiSpace, mouse, chars, keys) && (c.MouseDown? || c.MouseUp?) ==>
      c.position == cached
  {
    var shift, ctrl := ShiftHeld(keys), CtrlHeld(keys);
    CharCallsExact(chars, shift, ctrl);
    KeyDownCallsExact(keys, shift, ctrl);
    assert InputCalls(cached, latest, size, toUiSpace, mouse, chars, keys)
      == MouseCalls(mouse, cached) + CharCalls(chars, shift, ctrl) + KeyDownCalls(keys, shift, ctrl);
  }

  /** `process_input`: updates the window size and the cached pointer position, and
      makes the frame's calls on the IMGUI. `latest` is the newest pointer movement
      not seen before, `chars` the characters typed since the last frame; the
      conversion of a pointer position to IMGUI space (scaling and y-flip) is
      `toUiSpace`. */
  method ProcessInput(ctx: MegaUiContext, size: WindowSize, primary: Option<WindowInfo>,
                      latest: Option<CursorMoved>, chars: seq<ReceivedCharacter>, mouse: MouseEdges,
                      keys: set<Key>, toUiSpace: (Point, WindowSize) -> Point)
    returns (newSize: WindowSize)
    modifies ctx`mousePosition, ctx`uiCalls
    ensures newSize == NextWindowSize(size, primary)
    ensures ctx.mousePosition == NextMousePosition(old(ctx.mousePosition), latest, newSize, toUiSpace)
    ensures ctx.uiCalls == old(ctx.uiCalls) + InputCalls(old(ctx.mousePosition), latest, newSize, toUiSpace, mouse, chars, keys)
  {
    newSize := size;
    if primary.Some? {
      newSize := WindowSize(primary.value.physicalWidth as real, primary.value.physicalHeight as real, primary.value.scaleFactor);
    }

    MoveCursor(ctx, latest, newSize, toUiSpace);

    var mousePosition := ctx.mousePosition;
    PressMouse(ctx, mouse, mousePosition);

    var shift := LShift in keys || RShift in keys;
    var ctrl := LControl in keys || RControl in keys;

    TypeChars(ctx, chars, shift, ctrl);
    KeyDowns(ctx, keys, shift, ctrl);
    AppendRegroup(old(ctx.uiCalls), if latest.Some? && latest.value.window == PrimaryWindow then [MouseMove(mousePosition)] else [],
                  MouseCalls(mouse, mousePosition), CharCalls(chars, shift, ctrl), KeyDownCalls(keys, shift, ctrl));
  }

  /** Appending four pieces one after the other appends their concatenation. */
  lemma AppendRegroup<T>(s: seq<T>, a: seq<T>, b: seq<T>, c: seq<T>, d: seq<T>)
    ensures s + a + b + c + d == s + (a + b + c + d)
  {
  }

  /** The pointer part of `process_input`: a movement in the primary window moves
      the cached position and the IMGUI's pointer; any other leaves both alone. */
  method MoveCursor(ctx: MegaUiContext, latest: Option<CursorMoved>, size: WindowSize, toUiSpace: (Point, WindowSize) -> Point)
    modifies ctx`mousePosition, ctx`uiCalls
    ensures ctx.mousePosition == NextMousePosition(old(ctx.mousePosition), latest, size, toUiSpace)
    ensures ctx.uiCalls == old(ctx.uiCalls)
      + (if latest.Some? && latest.value.window == PrimaryWindow then [MouseMove(ctx.mousePosition)] else [])
  {
    if latest.Some? {
      var cursorMoved := latest.value;
      if cursorMoved.window == PrimaryWindow {
        var mousePosition := toUiSpace(cursorMoved.position, size);
        ctx.mousePosition := mousePosition;
        ctx.uiCalls := ctx.uiCalls + [MouseMove(mousePosition)];
      }
    }
  }

  /** The mouse-button part of `process_input`. */
  method PressMouse(ctx: MegaUiContext, mouse: MouseEdges, position: Point)
    modifies ctx`uiCalls
    ensures ctx.uiCalls == old(ctx.uiCalls) + MouseCalls(mouse, position)
  {
    if LeftButton in mouse.justPressed {
      ctx.uiCalls := ctx.uiCalls + [MouseDown(position)];
    }
    if LeftButton in mouse.justReleased {
      ctx.uiCalls := ctx.uiCalls + [MouseUp(position)];
    }
  }

  /** The character loop of `process_input`. */
  method TypeChars(ctx: MegaUiContext, chars: seq<ReceivedCharacter>, shift: bool, ctrl: bool)
    modifies ctx`uiCalls
    ensures ctx.uiCalls == old(ctx.uiCalls) + CharCalls(chars, shift, ctrl)
  {
    for i := 0 to |chars|
      invariant ctx.uiCalls == old(ctx.uiCalls) + CharCalls(chars[..i], shift, ctrl)
    {
      var event := chars[i];
      assert chars[..i + 1][..i] == chars[..i];
      if event.window == PrimaryWindow && !IsControl(event.ch) {
        ctx.uiCalls := ctx.uiCalls + [CharEvent(event.ch, shift, ctrl)];
      }
    }
    assert chars[..|chars|] == chars;
  }

  /** The check of entry `n` extends the calls of a table's first `n` entries to
      those of its first `n + 1`. */
  lemma TableCallsStep(before: seq<UiCall>, after: seq<UiCall>, base: seq<UiCall>, table: seq<(Key, UiKey)>, n: nat,
                       keys: set<Key>, shift: bool, ctrl: bool)
    requires n < |table|
    requires before == base + TableCalls(table, n, keys, shift, ctrl)
    requires after == before + Pressed(keys, table[n], shift, ctrl)
    ensures after == base + TableCalls(table, n + 1, keys, shift, ctrl)
  {
  }

  /** One key check: a key-down for `ui` when `key` is held. */
  method KeyDownIfHeld(ctx: MegaUiContext, keys: set<Key>, key: Key, ui: UiKey, shift: bool, ctrl: bool)
    modifies ctx`uiCalls
    ensures ctx.uiCalls == old(ctx.uiCalls) + Pressed(keys, (key, ui), shift, ctrl)
  {
    if key in keys {
      ctx.uiCalls := ctx.uiCalls + [KeyDown(ui, shift, ctrl)];
    }
  }

  /** No entries make no calls. */
  lemma TableCallsNone(base: seq<UiCall>, table: seq<(Key, UiKey)>, keys: set<Key>, shift: bool, ctrl: bool)
    ensures base == base + TableCalls(table, 0, keys, shift, ctrl)
  {
    assert base + [] == base;
  }

  /** The checks of entries `n` to `n + 3` extend the calls of a table's first `n`
      entries to those of its first `n + 4`. */
  lemma TableCallsFourSteps(before: seq<UiCall>, base: seq<UiCall>, table: seq<(Key, UiKey)>, n: nat,
                            keys: set<Key>, shift: bool, ctrl: bool)
    requires n + 4 <= |table|
    requires before == base + TableCalls(table, n, keys, shift, ctrl)
    ensures before + Pressed(keys, table[n], shift, ctrl) + Pressed(keys, table[n + 1], shift, ctrl)
        + Pressed(keys, table[n + 2], shift, ctrl) + Pressed(keys, table[n + 3], shift, ctrl)
        == base + TableCalls(table, n + 4, keys, shift, ctrl)
  {
    var c1 := before + Pressed(keys, table[n], shift, ctrl);
    TableCallsStep(before, c1, base, table, n, keys, shift, ctrl);
    var c2 := c1 + Pressed(keys, table[n + 1], shift, ctrl);
    TableCallsStep(c1, c2, base, table, n + 1, keys, shift, ctrl);
    var c3 := c2 + Pressed(keys, table[n + 2], shift, ctrl);
    TableCallsStep(c2, c3, base, table, n + 2, keys, shift, ctrl);
    var c4 := c3 + Pressed(keys, table[n + 3], shift, ctrl);
    TableCallsStep(c3, c4, base, table, n + 3, keys, shift, ctrl);
  }

  /** The entries of the key table, one by one. */
  lemma KeyTableEntries()
    ensures |KeyTable| == 16
    ensures KeyTable[0] == (Up, UiUp)
    ensures KeyTable[1] == (Down, UiDown)
    ensures KeyTable[2] == (Right, UiRight)
    ensures KeyTable[3] == (Left, UiLeft)
    ensures KeyTable[4] == (Home, UiHome)
    ensures KeyTable[5] == (End, UiEnd)
    ensures KeyTable[6] == (Delete, UiDelete)
    ensures KeyTable[7] == (Back, UiBackspace)
    ensures KeyTable[8] == (Return, UiEnter)
    ensures KeyTable[9] == (Tab, UiTab)
    ensures KeyTable[10] == (Z, UiZ)
    ensures KeyTable[11] == (Y, UiY)
    ensures KeyTable[12] == (C, UiC)
    ensures KeyTable[13] == (X, UiX)
    ensures KeyTable[14] == (V, UiV)
    ensures KeyTable[15] == (A, UiA)
  {
  }

  /** The first four key checks make the calls of the table's first four entries. */
  lemma FirstFourKeyChecks(base: seq<UiCall>, keys: set<Key>, shift: bool, ctrl: bool)
    ensures base + Pressed(keys, (Up, UiUp), shift, ctrl) + Pressed(keys, (Down, UiDown), shift, ctrl)
        + Pressed(keys, (Right, UiRight), shift, ctrl) + Pressed(keys, (Left, UiLeft), shift, ctrl)
        == base + TableCalls(KeyTable, 4, keys, shift, ctrl)
  {
    KeyTableEntries();
    TableCallsNone(base, KeyTable, keys, shift, ctrl);
    TableCallsFourSteps(base, base, KeyTable, 0, keys, shift, ctrl);
  }

  /** The first eight key checks make the calls of the table's first eight entries. */
  lemma FirstEightKeyChecks(base: seq<UiCall>, keys: set<Key>, shift: bool, ctrl: bool)
    ensures base + Pressed(keys, (Up, UiUp), shift, ctrl) + Pressed(keys, (Down, UiDown), shift, ctrl)
        + Pressed(keys, (Right, UiRight), shift, ctrl) + Pressed(keys, (Left, UiLeft), shift, ctrl)
        + Pressed(keys, (Home, UiHome), shift, ctrl) + Pressed(keys, (End, UiEnd), shift, ctrl)
        + Pressed(keys, (Delete, UiDelete), shift, ctrl)
        + Pressed(keys, (Back, UiBackspace), shift, ctrl)
        == base + TableCalls(KeyTable, 8, keys, shift, ctrl)
  {
    KeyTableEntries();
    FirstFourKeyChecks(base, keys, shift, ctrl);
    TableCallsFourSteps(base + Pressed(keys, (Up, UiUp), shift, ctrl) + Pressed(keys, (Down, UiDown), shift, ctrl)
      + Pressed(keys, (Right, UiRight), shift, ctrl) + Pressed(keys, (Left, UiLeft), shift, ctrl), base, KeyTable, 4, keys, shift, ctrl);
  }

  /** The first twelve key checks make the calls of the table's first twelve entries. */
  lemma FirstTwelveKeyChecks(base: seq<UiCall>, keys: set<Key>, shift: bool, ctrl: bool)
    ensures base + Pressed(keys, (Up, UiUp), shift, ctrl) + Pressed(keys, (Down, UiDown), shift, ctrl)
        + Pressed(keys, (Right, UiRight), shift, ctrl) + Pressed(keys, (Left, UiLeft), shift, ctrl)
        + Pressed(keys, (Home, UiHome), shift, ctrl) + Pressed(keys, (End, UiEnd), shift, ctrl)
        + Pressed(keys, (Delete, UiDelete), shift, ctrl)
        + Pressed(keys, (Back, UiBackspace), shift, ctrl)
        + Pressed(keys, (Return, UiEnter), shift, ctrl) + Pressed(keys, (Tab, UiTab), shift, ctrl)
        + Pressed(keys, (Z, UiZ), shift, ctrl) + Pressed(keys, (Y, UiY), shift, ctrl)
        == base + TableCalls(KeyTable, 12, keys, shift, ctrl)
  {
    KeyTableEntries();
    FirstEightKeyChecks(base, keys, shift, ctrl);
    TableCallsFourSteps(base + Pressed(keys, (Up, UiUp), shift, ctrl) + Pressed(keys, (Down, UiDown), shift, ctrl)
      + Pressed(keys, (Right, UiRight), shift, ctrl) + Pressed(keys, (Left, UiLeft), shift, ctrl)
      + Pressed(keys, (Home, UiHome), shift, ctrl) + Pressed(keys, (End, UiEnd), shift, ctrl)
      + Pressed(keys, (Delete, UiDelete), shift, ctrl)
      + Pressed(keys, (Back, UiBackspace), shift, ctrl), base, KeyTable, 8, keys, shift, ctrl);
  }

  /** The sixteen key checks in a row make the frame's key-down calls. */
  lemma KeyChecksAreKeyDownCalls(base: seq<UiCall>, keys: set<Key>, shift: bool, ctrl: bool)
    ensures base + KeyDownCalls(keys, shift, ctrl) == base + Pressed(keys, (Up, UiUp), shift, ctrl) + Pressed(keys, (Down, UiDown), shift, ctrl)
        + Pressed(keys, (Right, UiRight), shift, ctrl) + Pressed(keys, (Left, UiLeft), shift, ctrl)
        + Pressed(keys, (Home, UiHome), shift, ctrl) + Pressed(keys, (End, UiEnd), shift, ctrl)
        + Pressed(keys, (Delete, UiDelete), shift, ctrl)
        + Pressed(keys, (Back, UiBackspace), shift, ctrl)
        + Pressed(keys, (Return, UiEnter), shift, ctrl) + Pressed(keys, (Tab, UiTab), shift, ctrl)
        + Pressed(keys, (Z, UiZ), shift, ctrl) + Pressed(keys, (Y, UiY), shift, ctrl)
        + Pressed(keys, (C, UiC), shift, ctrl) + Pressed(keys, (X, UiX), shift, ctrl)
        + Pressed(keys, (V, UiV), shift, ctrl) + Pressed(keys, (A, UiA), shift, ctrl)
  {
    KeyTableEntries();
    FirstTwelveKeyChecks(base, keys, shift, ctrl);
    TableCallsFourSteps(base + Pressed(keys, (Up, UiUp), shift, ctrl) + Pressed(keys, (Down, UiDown), shift, ctrl)
      + Pressed(keys, (Right, UiRight), shift, ctrl) + Pressed(keys, (Left, UiLeft), shift, ctrl)
      + Pressed(keys, (Home, UiHome), shift, ctrl) + Pressed(keys, (End, UiEnd), shift, ctrl)
      + Pressed(keys, (Delete, UiDelete), shift, ctrl)
      + Pressed(keys, (Back, UiBackspace), shift, ctrl)
      + Pressed(keys, (Return, UiEnter), shift, ctrl) + Pressed(keys, (Tab, UiTab), shift, ctrl)
      + Pressed(keys, (Z, UiZ), shift, ctrl) + Pressed(keys, (Y, UiY), shift, ctrl), base, KeyTable, 12, keys, shift, ctrl);
  }

  /** The fixed run of key checks at the end of `process_input`: one key-down for
      each held editing key, in table order. */
  method KeyDowns(ctx: MegaUiContext, keys: set<Key>, shift: bool, ctrl: bool)
    modifies ctx`uiCalls
    ensures ctx.uiCalls == old(ctx.uiCalls) + KeyDownCalls(keys, shift, ctrl)
  {
    KeyChecksAreKeyDownCalls(ctx.uiCalls, keys, shift, ctrl);
    KeyDownIfHeld(ctx, keys, Up, UiUp, shift, ctrl);
    KeyDownIfHeld(ctx, keys, Down, UiDown, shift, ctrl);
    KeyDownIfHeld(ctx, keys, Right, UiRight, shift, ctrl);
    KeyDownIfHeld(ctx, keys, Left, UiLeft, shift, ctrl);
    KeyDownIfHeld(ctx, keys, Home, UiHome, shift, ctrl);
    KeyDownIfHeld(ctx, keys, End, UiEnd, shift, ctrl);
    KeyDownIfHeld(ctx, keys, Delete, UiDelete, shift, ctrl);
    KeyDownIfHeld(ctx, keys, Back, UiBackspace, shift, ctrl);
    KeyDownIfHeld(ctx, keys, Return, UiEnter, shift, ctrl);
    KeyDownIfHeld(ctx, keys, Tab, UiTab, shift, ctrl);
    KeyDownIfHeld(ctx, keys, Z, UiZ, shift, ctrl);
    KeyDownIfHeld(ctx, keys, Y, UiY, shift, ctrl);
    KeyDownIfHeld(ctx, keys, C, UiC, shift, ctrl);
    KeyDownIfHeld(ctx, keys, X, UiX, shift, ctrl);
    KeyDownIfHeld(ctx, keys, V, UiV, shift, ctrl);
    KeyDownIfHeld(ctx, keys, A, UiA, shift, ctrl);
  }
}
