/** The fullscreen viewport of packages/tui/src/fullscreen.ts: scrolling, frame composition and row-diff painting. */
module Fullscreen {
  import opened Std

  const MIN_TRANSCRIPT_ROWS: nat := 3

  /** The dock is shown whole, or as far as it leaves three rows to the transcript. */
  function ClippedDockHeight(dockLength: nat, height: nat): (r: nat)
    ensures r <= dockLength && r <= height && (r == 0 || r + MIN_TRANSCRIPT_ROWS <= height)
    ensures r < dockLength ==> r + MIN_TRANSCRIPT_ROWS >= height
  {
    Min(dockLength, Max(0, height - MIN_TRANSCRIPT_ROWS))
  }

  function WindowHeight(dock: seq<Text>, height: nat): nat {
    height - ClippedDockHeight(|dock|, height)
  }

  function MaxScroll(transcript: seq<Text>, dock: seq<Text>, height: nat): nat {
    Max(0, |transcript| - WindowHeight(dock, height))
  }

  // ------------------------------------------------------------------------------------------
  // A terminal screen
  // ------------------------------------------------------------------------------------------

  /** The control sequences a paint is made of; rows count from zero here. */
  datatype Command = SyncOn | SyncOff | ClearScreen | MoveTo(row: nat, col: nat) | EraseLine | Put(text: Text)

  datatype Screen = Screen(rows: seq<Text>, cursor: nat)

  function Blank(height: nat): seq<Text> { seq(height, _ => []) }

  function Execute(s: Screen, c: Command): (s': Screen)
    ensures |s'.rows| == |s.rows|
  {
    match c
    case ClearScreen => Screen(Blank(|s.rows|), 0)
    case MoveTo(row, _) => s.(cursor := row)
    case EraseLine => if s.cursor < |s.rows| then s.(rows := s.rows[s.cursor := []]) else s
    case Put(t) => if s.cursor < |s.rows| then s.(rows := s.rows[s.cursor := s.rows[s.cursor] + t]) else s
    case _ => s
  }

  function ExecuteAll(s: Screen, commands: seq<Command>): (s': Screen)
    ensures |s'.rows| == |s.rows|
  {
    if commands == [] then s else Execute(ExecuteAll(s, commands[..|commands| - 1]), commands[|commands| - 1])
  }

  lemma ExecuteOne(s: Screen, commands: seq<Command>, c: Command)
    ensures ExecuteAll(s, commands + [c]) == Execute(ExecuteAll(s, commands), c)
  {
    assert (commands + [c])[..|commands|] == commands;
  }

  function RowOf(frame: seq<Text>, row: nat): Text { if row < |frame| then frame[row] else [] }

  /** The rows of a frame that fit: the last `height` of them. */
  function Fitted(frame: seq<Text>, height: nat): seq<Text> { Last(frame, height) }

  // ------------------------------------------------------------------------------------------
  // The viewport
  // ------------------------------------------------------------------------------------------

  class FullscreenViewport {
    /** Column width, clamping to a width, and image detection, which live in other files. */
    const visibleWidth: Text -> nat
    const sliceByColumn: (Text, nat) -> Text
    const isImageLine: Text -> bool
    const imagePlaceholder: Text

    var scrollTop: int
    var following: bool
    var lastMaxScroll: nat
    var lastWindowHeight: nat
    var prevFrame: seq<Text>
    var prevWidth: nat
    var prevHeight: nat
    /** What the terminal shows after the last paint. */
    ghost var screen: seq<Text>

    constructor (visibleWidth: Text -> nat, sliceByColumn: (Text, nat) -> Text, isImageLine: Text -> bool,
                 imagePlaceholder: Text)
      ensures Valid() && following && screen == []
    {
      this.visibleWidth, this.sliceByColumn := visibleWidth, sliceByColumn;
      this.isImageLine, this.imagePlaceholder := isImageLine, imagePlaceholder;
      scrollTop, following, lastMaxScroll, lastWindowHeight := 0, true, 0, 0;
      prevFrame, prevWidth, prevHeight, screen := [], 0, 0, [];
    }

    /** The scroll position is in range, at the end while following, and the remembered frame is the one shown. */
    ghost predicate Valid()
      reads this
    {
      && 0 <= scrollTop <= lastMaxScroll && (following ==> scrollTop == lastMaxScroll)
      && (prevFrame != [] ==> screen == Shown(prevFrame, prevWidth, prevHeight))
    }

    function Clamped(line: Text, width: nat): Text {
      if visibleWidth(line) > width then sliceByColumn(line, width) else line
    }

    /** The row as it is to be seen: of a frame too high the last rows, of a line too wide its first columns. */
    ghost function Clipped(frame: seq<Text>, width: nat, height: nat, row: nat): Text
      requires row < height
    {
      var i := row + Max(0, |frame| - height);
      var line := if i < |frame| then frame[i] else [];
      if visibleWidth(line) <= width then line else sliceByColumn(line, width)
    }

    lemma ShownRows(frame: seq<Text>, width: nat, height: nat)
      ensures forall row :: 0 <= row < height ==>
                Shown(Fitted(frame, height), width, height)[row] == Clipped(frame, width, height, row)
    {
    }

    /** The screen of a full repaint of `frame`. */
    function Shown(frame: seq<Text>, width: nat, height: nat): seq<Text> {
      seq(height, row requires 0 <= row < height => Clamped(RowOf(frame, row), width))
    }

    function ShownLine(line: Text): Text { if isImageLine(line) then imagePlaceholder else line }

    /** The frame at a given scroll position: transcript window on top, blank below its end, dock at the bottom. */
    function FrameAt(transcript: seq<Text>, dock: seq<Text>, height: nat, top: nat): (frame: seq<Text>)
      ensures |frame| == height
    {
      WindowAt(transcript, top, WindowHeight(dock, height)) + Last(dock, ClippedDockHeight(|dock|, height))
    }

    function WindowAt(transcript: seq<Text>, top: nat, windowHeight: nat): (window: seq<Text>)
      ensures |window| == windowHeight
    {
      seq(windowHeight, row requires 0 <= row < windowHeight =>
        if top + row < |transcript| then ShownLine(transcript[top + row]) else [])
    }

    /** The last rows are the last lines of the dock, all of them or as many as leave three rows or more. */
    ghost predicate DockBelow(frame: seq<Text>, dock: seq<Text>) {
      forall row :: 3 <= row < |frame| && |frame| - |dock| <= row ==> frame[row] == dock[row - (|frame| - |dock|)]
    }

    /** The other rows are the transcript's lines from `top` on, and blank below its end. */
    ghost predicate TranscriptAbove(frame: seq<Text>, transcript: seq<Text>, dock: seq<Text>, top: nat) {
      forall row :: 0 <= row < |frame| && (row < 3 || row + |dock| < |frame|) ==>
        frame[row] == (if top + row >= |transcript| then []
                       else if isImageLine(transcript[top + row]) then imagePlaceholder else transcript[top + row])
    }

    lemma FrameRows(transcript: seq<Text>, dock: seq<Text>, height: nat, top: nat)
      ensures var frame := FrameAt(transcript, dock, height, top);
              DockBelow(frame, dock) && TranscriptAbove(frame, transcript, dock, top)
    {
      var frame := FrameAt(transcript, dock, height, top);
      var window := WindowAt(transcript, top, WindowHeight(dock, height));
      forall row | 0 <= row < |frame| && (row < 3 || row + |dock| < |frame|)
        ensures frame[row] == if top + row < |transcript| then ShownLine(transcript[top + row]) else []
      {
        assert row < |window| && frame[row] == window[row];
      }
    }

    /** Where a recomposition scrolls to. */
    function NextTop(maxScroll: nat): int
      reads this
    {
      if following then maxScroll else Max(0, Min(scrollTop, maxScroll))
    }

    method ComposeFrame(transcript: seq<Text>, dock: seq<Text>, height: nat) returns (frame: seq<Text>)
      requires Valid()
      modifies this`scrollTop, this`lastMaxScroll, this`lastWindowHeight
      ensures Valid() && scrollTop == old(NextTop(MaxScroll(transcript, dock, height)))
      ensures lastMaxScroll == MaxScroll(transcript, dock, height) && lastWindowHeight == WindowHeight(dock, height)
      ensures frame == FrameAt(transcript, dock, height, scrollTop)
      ensures !following ==> scrollTop == Min(old(scrollTop), lastMaxScroll)
      ensures lastMaxScroll == Max(0, |transcript| + Min(|dock|, Max(0, height - 3)) - height)
      ensures |frame| == height && DockBelow(frame, dock) && TranscriptAbove(frame, transcript, dock, scrollTop)
    {
      var dockLines := dock;
      var dockHeight := ClippedDockHeight(|dockLines|, height);
      if |dockLines| > dockHeight {
        dockLines := dockLines[|dockLines| - dockHeight..];
      }
      var windowHeight := height - |dockLines|;
      var maxScroll := Max(0, |transcript| - windowHeight);
      if following {
        scrollTop := maxScroll;
      } else {
        scrollTop := Max(0, Min(scrollTop, maxScroll));
      }
      lastMaxScroll, lastWindowHeight := maxScroll, windowHeight;
      var window := ComposeWindow(transcript, scrollTop, windowHeight);
      frame := window + dockLines;
      FrameRows(transcript, dock, height, scrollTop);
    }

    method ComposeWindow(transcript: seq<Text>, top: nat, windowHeight: nat) returns (window: seq<Text>)
      requires top <= |transcript|
      ensures window == WindowAt(transcript, top, windowHeight)
    {
      window := transcript[top..Min(top + windowHeight, |transcript|)];
      ghost var taken := window;
      for i := 0 to |window|
        invariant |window| == |taken|
        invariant forall k :: 0 <= k < |window| ==> window[k] == if k < i then ShownLine(taken[k]) else taken[k]
      {
        if isImageLine(window[i]) {
          window := window[i := imagePlaceholder];
        }
      }
      while |window| < windowHeight
        invariant |taken| <= |window| <= windowHeight
        invariant forall k :: 0 <= k < |window| ==> window[k] == if k < |taken| then ShownLine(taken[k]) else []
      {
        window := window + [[]];
      }
    }

    method ScrollBy(delta: int)
      requires Valid()
      modifies this`scrollTop, this`following
      ensures Valid()
      ensures scrollTop == Max(0, Min(old(scrollTop) + delta, lastMaxScroll))
      ensures following <==> scrollTop == lastMaxScroll
    {
      var from := if following then lastMaxScroll else scrollTop;
      scrollTop := Max(0, Min(from + delta, lastMaxScroll));
      following := scrollTop >= lastMaxScroll;
    }

    method ScrollToTop()
      requires Valid()
      modifies this`scrollTop, this`following
      ensures Valid() && scrollTop == 0 && (following <==> lastMaxScroll == 0)
    {
      scrollTop := 0;
      following := lastMaxScroll == 0;
    }

    method ScrollToBottom()
      requires Valid()
      modifies this`scrollTop, this`following
      ensures Valid() && scrollTop == lastMaxScroll && following
    {
      scrollTop := lastMaxScroll;
      following := true;
    }

    /** Forgets the painted frame, so that the next paint starts from a cleared screen. */
    method Reset()
      requires Valid()
      modifies this`prevFrame
      ensures Valid() && prevFrame == []
    {
      prevFrame := [];
    }

    /**
     * Row-diff painting. `found` is what the terminal shows when the paint starts: the last painted screen, or
     * anything at all when nothing is remembered or the size changed. Either way the screen ends up as a full
     * repaint of the frame would leave it.
     */
    method Paint(frame: seq<Text>, width: nat, height: nat, cursorRow: Option<nat>, ghost found: Screen)
      returns (buffer: seq<Command>)
      requires Valid() && |found.rows| == height
      requires prevFrame != [] && width == prevWidth && height == prevHeight ==> found.rows == screen
      modifies this`prevFrame, this`prevWidth, this`prevHeight, this`screen
      ensures Valid()
      ensures screen == ExecuteAll(found, buffer).rows == Shown(Fitted(frame, height), width, height)
      ensures prevFrame == Fitted(frame, height) && prevWidth == width && prevHeight == height
    {
      var lines := Fitted(frame, height);
      var before := prevFrame;
      buffer := [SyncOn];
      Unshown(found, [], SyncOn);
      if width != prevWidth || height != prevHeight || |prevFrame| == 0 {
        ExecuteOne(found, buffer, ClearScreen);
        buffer := buffer + [ClearScreen];
        before := [];
      }
      var row := 0;
      while row < height
        invariant row <= height
        invariant RowsPainted(ExecuteAll(found, buffer).rows, lines, before, row, width)
      {
        PaintRow(ExecuteAll(found, buffer).rows, lines, before, row, width);
        var line := RowOf(lines, row);
        if row < |before| && before[row] == line {
          row := row + 1;
          continue;
        }
        var text := if visibleWidth(line) > width then sliceByColumn(line, width) else line;
        ExecuteRow(found, buffer, row, text);
        buffer := buffer + [MoveTo(row, 0)] + [EraseLine] + [Put(text)];
        row := row + 1;
      }
      if cursorRow.Some? {
        var target: nat := Max(0, Min(cursorRow.value, height - 1));
        Unshown(found, buffer, MoveTo(target, 0));
        buffer := buffer + [MoveTo(target, 0)];
      }
      Unshown(found, buffer, SyncOff);
      buffer := buffer + [SyncOff];
      AllRowsPainted(ExecuteAll(found, buffer).rows, lines, before, width);
      prevFrame, prevWidth, prevHeight := lines, width, height;
      screen := ExecuteAll(found, buffer).rows;
    }

    /** The first `done` rows show the frame; every later one still shows what was painted there before. */
    ghost predicate RowsPainted(rows: seq<Text>, frame: seq<Text>, before: seq<Text>, done: nat, width: nat) {
      && (forall k :: 0 <= k < done && k < |rows| ==> rows[k] == Clamped(RowOf(frame, k), width))
      && (forall k :: done <= k < |rows| ==> PaintedOrBlank(rows[k], before, k, width))
    }

    lemma PaintRow(rows: seq<Text>, frame: seq<Text>, before: seq<Text>, row: nat, width: nat)
      requires row < |rows| && RowsPainted(rows, frame, before, row, width)
      ensures RowsPainted(rows[row := Clamped(RowOf(frame, row), width)], frame, before, row + 1, width)
      ensures row < |before| && before[row] == RowOf(frame, row) ==> RowsPainted(rows, frame, before, row + 1, width)
    {
    }

    lemma AllRowsPainted(rows: seq<Text>, frame: seq<Text>, before: seq<Text>, width: nat)
      requires RowsPainted(rows, frame, before, |rows|, width)
      ensures rows == Shown(frame, width, |rows|)
    {
    }

    /** A row still shows what was painted there; nothing is known of a screen that was never painted. */
    ghost predicate PaintedOrBlank(shown: Text, before: seq<Text>, row: nat, width: nat) {
      row < |before| ==> shown == Clamped(before[row], width)
    }
  }

  /** Cursor moves and the brackets of a synchronized update leave every row as it is. */
  lemma Unshown(s: Screen, commands: seq<Command>, c: Command)
    requires c.SyncOn? || c.SyncOff? || c.MoveTo?
    ensures ExecuteAll(s, commands + [c]).rows == ExecuteAll(s, commands).rows
    ensures ExecuteAll(s, [c]).rows == s.rows
  {
    ExecuteOne(s, commands, c);
    ExecuteOne(s, [], c);
    assert [] + [c] == [c];
  }

  lemma ExecuteRow(s: Screen, commands: seq<Command>, row: nat, text: Text)
    requires row < |s.rows|
    ensures var rows := ExecuteAll(s, commands).rows;
            ExecuteAll(s, commands + [MoveTo(row, 0)] + [EraseLine] + [Put(text)]).rows == rows[row := text]
  {
    ExecuteOne(s, commands, MoveTo(row, 0));
    ExecuteOne(s, commands + [MoveTo(row, 0)], EraseLine);
    ExecuteOne(s, commands + [MoveTo(row, 0)] + [EraseLine], Put(text));
    RowWritten(ExecuteAll(s, commands), row, text);
  }

  lemma RowWritten(s: Screen, row: nat, text: Text)
    requires row < |s.rows|
    ensures Execute(Execute(Execute(s, MoveTo(row, 0)), EraseLine), Put(text)).rows == s.rows[row := text]
  {
    assert [] + text == text;
  }

  /** While not following, appended lines move nothing: rows that showed transcript, and the dock, stay as they were. */
  lemma AppendLeavesRows(v: FullscreenViewport, transcript: seq<Text>, more: seq<Text>, dock: seq<Text>, height: nat,
                         row: nat)
    requires !v.following && 0 <= v.scrollTop <= MaxScroll(transcript, dock, height)
    requires row < height
    requires row < WindowHeight(dock, height) ==> v.scrollTop + row < |transcript|
    ensures v.NextTop(MaxScroll(transcript + more, dock, height)) == v.scrollTop
    ensures v.FrameAt(transcript + more, dock, height, v.scrollTop)[row]
         == v.FrameAt(transcript, dock, height, v.scrollTop)[row]
  {
  }

  /** While following, the frame always shows the end of the transcript. */
  lemma FollowingShowsEnd(v: FullscreenViewport, transcript: seq<Text>, dock: seq<Text>, height: nat)
    requires v.following && transcript != [] && WindowHeight(dock, height) > 0
    ensures var top := v.NextTop(MaxScroll(transcript, dock, height));
            && 0 <= |transcript| - 1 - top < WindowHeight(dock, height)
            && v.FrameAt(transcript, dock, height, top)[|transcript| - 1 - top]
               == v.ShownLine(transcript[|transcript| - 1])
  {
  }
}
