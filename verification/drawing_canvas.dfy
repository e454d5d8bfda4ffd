/**
 * The drawing canvas of one client. Remote strokes arrive as start, move
 * and end events per socket; each move on an open stroke paints one line
 * segment. The same rules serve the live handlers and the replay of a
 * room's stored drawing log. Locally, a pointer state machine paints and
 * emits its own stroke. The canvas itself is modelled as the sequence of
 * marks painted on it: segments and clears.
 */
module DrawingCanvas {
  import opened Common
  import opened RoomModel

  const Pencil := "pencil"

  /** An open stroke of one socket: where it last reached, and how it is painted. */
  datatype Stroke = Stroke(lastPoint: Point, colour: Colour, width: int, tool: string)

  /** Socket id to its open stroke. */
  type Strokes = map<SocketId, Stroke>

  /** A paint operation on the canvas: a line segment, or wiping the whole canvas. */
  datatype Mark =
    | Segment(from: Point, to: Point, colour: Colour, width: int, alphaTenths: nat)
    | Cleared

  /** A drawing event, live or read back from the log; `Ignored` is a log entry of any other kind. */
  datatype StrokeEvent =
    | Start(socket: SocketId, at: Point, colour: Colour, width: int, tool: string)
    | Move(socket: SocketId, to: Point)
    | End(socket: SocketId)
    | Clear
    | Ignored

  /** The open strokes after some events, and the marks those events painted. */
  datatype Painted = Painted(strokes: Strokes, marks: seq<Mark>)

  /** The global alpha, in tenths: 0.7 for the pencil and 1.0 for any other tool. */
  function AlphaTenths(tool: string): nat
  {
    if tool == Pencil then 7 else 10
  }

  /** The segment an open stroke paints when it moves to `to`. */
  function SegmentTo(stroke: Stroke, to: Point): Mark
  {
    Segment(stroke.lastPoint, to, stroke.colour, stroke.width, AlphaTenths(stroke.tool))
  }

  /** Whether event `e` is about socket `s`'s stroke. */
  predicate Mentions(e: StrokeEvent, s: SocketId)
  {
    (e.Start? || e.Move? || e.End?) && e.socket == s
  }

  /** One event applied to the open strokes. */
  function Step(strokes: Strokes, e: StrokeEvent): (p: Painted)
    ensures forall o :: !Mentions(e, o) ==>
      (o in p.strokes <==> o in strokes) && (o in strokes ==> p.strokes[o] == strokes[o])
    ensures e.Move? && e.socket !in strokes ==> p == Painted(strokes, [])
    ensures e.Move? && e.socket in strokes ==>
      && p.marks == [SegmentTo(strokes[e.socket], e.to)]
      && e.socket in p.strokes && p.strokes[e.socket] == strokes[e.socket].(lastPoint := e.to)
    ensures e.Start? ==> e.socket in p.strokes && p.strokes[e.socket] == Stroke(e.at, e.colour, e.width, e.tool) && p.marks == []
    ensures e.End? ==> e.socket !in p.strokes && p.marks == []
    ensures e.Clear? ==> p == Painted(strokes, [Cleared])
  {
    match e
    case Start(s, at, colour, width, tool) => Painted(strokes[s := Stroke(at, colour, width, tool)], [])
    case Move(s, to) =>
      if s !in strokes then Painted(strokes, [])
      else Painted(strokes[s := strokes[s].(lastPoint := to)], [SegmentTo(strokes[s], to)])
    case End(s) => Painted(strokes - {s}, [])
    case Clear => Painted(strokes, [Cleared])
    case Ignored => Painted(strokes, [])
  }

  /** Events applied one after another, from the open strokes `strokes`. */
  function Run(strokes: Strokes, events: seq<StrokeEvent>): Painted
    decreases |events|
  {
    if events == [] then Painted(strokes, [])
    else
      var before := Run(strokes, events[..|events| - 1]);
      var last := Step(before.strokes, events[|events| - 1]);
      Painted(last.strokes, before.marks + last.marks)
  }

  /** The event a stored drawing command stands for, by its kind. */
  function Decode(cmd: DrawingCmd): StrokeEvent
  {
    var d := cmd.data;
    if cmd.kind == "clear" then Clear
    else if cmd.kind == "stroke-start" then Start(d.socketId, Point(d.x, d.y), d.colour, d.strokeWidth, d.tool)
    else if cmd.kind == "stroke-move" then Move(d.socketId, Point(d.x, d.y))
    else if cmd.kind == "stroke-end" then End(d.socketId)
    else Ignored
  }

  function Decoded(cmds: seq<DrawingCmd>): (events: seq<StrokeEvent>)
    ensures |events| == |cmds|
    ensures forall i :: 0 <= i < |cmds| ==> events[i] == Decode(cmds[i])
  {
    seq(|cmds|, i requires 0 <= i < |cmds| => Decode(cmds[i]))
  }

  lemma DecodedPrefix(cmds: seq<DrawingCmd>, i: nat)
    requires i < |cmds|
    ensures Decoded(cmds[..i + 1]) == Decoded(cmds[..i]) + [Decode(cmds[i])]
  {
    assert Decoded(cmds[..i + 1])[..i] == Decoded(cmds[..i]);
  }

  lemma OneEvent(strokes: Strokes, e: StrokeEvent)
    ensures Run(strokes, [e]) == Step(strokes, e)
  {
    assert [e][..0] == [];
  }

  /** Running two event lists one after the other is running their concatenation. */
  lemma {:induction false} RunAppend(strokes: Strokes, a: seq<StrokeEvent>, b: seq<StrokeEvent>)
    ensures var first := Run(strokes, a);
      var second := Run(first.strokes, b);
      Run(strokes, a + b) == Painted(second.strokes, first.marks + second.marks)
    decreases |b|
  {
    if b == [] {
      assert a + b == a;
    } else {
      var init := b[..|b| - 1];
      assert (a + b)[..|a + b| - 1] == a + init;
      RunAppend(strokes, a, init);
    }
  }

  /** Events that do not mention socket `s` leave its open stroke, or its absence, as it was. */
  lemma {:induction false} RunIgnoresOthers(strokes: Strokes, s: SocketId, events: seq<StrokeEvent>)
    requires forall i :: 0 <= i < |events| ==> !Mentions(events[i], s)
    ensures s in Run(strokes, events).strokes <==> s in strokes
    ensures s in strokes ==> Run(strokes, events).strokes[s] == strokes[s]
    decreases |events|
  {
    if events != [] {
      RunIgnoresOthers(strokes, s, events[..|events| - 1]);
    }
  }

  /**
   * Consecutive segments of one stroke are connected: the first move paints
   * from the stroke's last point, and the next move, after any events about
   * other sockets or clears, paints from where the first one ended, in the
   * stroke's colour, width and alpha.
   */
  lemma StrokeIsChain(strokes: Strokes, s: SocketId, p: Point, between: seq<StrokeEvent>, q: Point)
    requires s in strokes
    requires forall i :: 0 <= i < |between| ==> !Mentions(between[i], s)
    ensures var marks := Run(strokes, [Move(s, p)] + between + [Move(s, q)]).marks;
      && |marks| >= 2
      && marks[0] == SegmentTo(strokes[s], p)
      && marks[|marks| - 1] == SegmentTo(strokes[s].(lastPoint := p), q)
  {
    var first := [Move(s, p)];
    OneEvent(strokes, Move(s, p));
    var after := Run(strokes, first);
    RunAppend(strokes, first, between);
    RunIgnoresOthers(after.strokes, s, between);
    var events := first + between + [Move(s, q)];
    assert events[..|events| - 1] == first + between;
  }

  /** A clear wipes the canvas but keeps open strokes: the next move continues from the point reached before it. */
  lemma ClearKeepsOpenStrokes(strokes: Strokes, s: SocketId, p: Point, q: Point)
    requires s in strokes
    ensures Run(strokes, [Move(s, p), Clear, Move(s, q)]).marks
      == [SegmentTo(strokes[s], p), Cleared, SegmentTo(strokes[s].(lastPoint := p), q)]
  {
    var first, second := [Move(s, p)], [Move(s, p), Clear];
    OneEvent(strokes, Move(s, p));
    assert second[..1] == first;
    assert [Move(s, p), Clear, Move(s, q)][..2] == second;
  }

  /** A start replaces any unfinished stroke of the same socket: the next move paints from the new start point. */
  lemma StartOverwritesStroke(strokes: Strokes, s: SocketId, at: Point, colour: Colour, width: int, tool: string, p: Point)
    ensures Run(strokes, [Start(s, at, colour, width, tool), Move(s, p)]).marks
      == [Segment(at, p, colour, width, AlphaTenths(tool))]
  {
    var events := [Start(s, at, colour, width, tool), Move(s, p)];
    assert events[..1] == [Start(s, at, colour, width, tool)];
    OneEvent(strokes, Start(s, at, colour, width, tool));
  }

  /** After an end, a move of the same socket paints nothing, and only that socket's stroke is gone. */
  lemma EndThenMoveDrawsNothing(strokes: Strokes, s: SocketId, p: Point)
    ensures Run(strokes, [End(s), Move(s, p)]) == Painted(strokes - {s}, [])
  {
    var events := [End(s), Move(s, p)];
    assert events[..1] == [End(s)];
    OneEvent(strokes, End(s));
  }

  /** A message the local client sends. */
  datatype Outgoing =
    | DrawStart(at: Point, colour: Colour, width: int, tool: string)
    | DrawMove(at: Point)
    | DrawEnd
    | CursorMove(at: Point)

  function CursorMoves(out: seq<Outgoing>): nat
    decreases |out|
  {
    if out == [] then 0
    else CursorMoves(out[..|out| - 1]) + (if out[|out| - 1].CursorMove? then 1 else 0)
  }

  lemma {:induction false} CursorMovesAppend(a: seq<Outgoing>, b: seq<Outgoing>)
    ensures CursorMoves(a + b) == CursorMoves(a) + CursorMoves(b)
    decreases |b|
  {
    if b == [] {
      assert a + b == a;
    } else {
      assert (a + b)[..|a + b| - 1] == a + b[..|b| - 1];
      CursorMovesAppend(a, b[..|b| - 1]);
    }
  }

  /** One client's canvas component. */
  class Canvas {
    /** `remoteStrokes`: the open strokes of other sockets. */
    var remoteStrokes: Strokes
    /** Everything painted on the canvas so far, in order. */
    var marks: seq<Mark>
    var drawing: bool
    var lastPoint: Option<Point>
    /** Everything emitted on the socket so far, in order. */
    var sent: seq<Outgoing>
    /** Whether a socket is attached; without one, nothing is emitted. */
    const connected: bool

    ghost predicate Valid()
      reads this
    {
      drawing <==> lastPoint.Some?
    }

    constructor (connected: bool)
      ensures Valid() && this.connected == connected
      ensures remoteStrokes == map[] && marks == [] && !drawing && sent == []
    {
      this.connected := connected;
      remoteStrokes := map[];
      marks := [];
      drawing := false;
      lastPoint := None;
      sent := [];
    }

    /** The `draw-start` handler. */
    method OnDrawStart(socketId: SocketId, x: int, y: int, colour: Colour, strokeWidth: int, tool: string)
      modifies this
      ensures var p := Step(old(remoteStrokes), Start(socketId, Point(x, y), colour, strokeWidth, tool));
        remoteStrokes == p.strokes && marks == old(marks) + p.marks
      ensures drawing == old(drawing) && lastPoint == old(lastPoint) && sent == old(sent)
    {
      remoteStrokes := remoteStrokes[socketId := Stroke(Point(x, y), colour, strokeWidth, tool)];
    }

    /** The `draw-move` handler. */
    method OnDrawMove(socketId: SocketId, x: int, y: int)
      modifies this
      ensures var p := Step(old(remoteStrokes), Move(socketId, Point(x, y)));
        remoteStrokes == p.strokes && marks == old(marks) + p.marks
      ensures drawing == old(drawing) && lastPoint == old(lastPoint) && sent == old(sent)
    {
      if socketId !in remoteStrokes {
        return;
      }
      var stroke := remoteStrokes[socketId];
      var alpha := AlphaTenths(stroke.tool);
      marks := marks + [Segment(stroke.lastPoint, Point(x, y), stroke.colour, stroke.width, alpha)];
      remoteStrokes := remoteStrokes[socketId := stroke.(lastPoint := Point(x, y))];
    }

    /** The `draw-end` handler. */
    method OnDrawEnd(socketId: SocketId)
      modifies this
      ensures var p := Step(old(remoteStrokes), End(socketId));
        remoteStrokes == p.strokes && marks == old(marks) + p.marks
      ensures drawing == old(drawing) && lastPoint == old(lastPoint) && sent == old(sent)
    {
      remoteStrokes := remoteStrokes - {socketId};
    }

    /** The `clear-canvas` handler. */
    method OnClearCanvas()
      modifies this
      ensures var p := Step(old(remoteStrokes), Clear);
        remoteStrokes == p.strokes && marks == old(marks) + p.marks
      ensures drawing == old(drawing) && lastPoint == old(lastPoint) && sent == old(sent)
    {
      marks := marks + [Cleared];
    }

    /** The effect on the `clearSignal` property: a true signal wipes the canvas. */
    method OnClearSignal(clearSignal: bool)
      modifies this
      ensures marks == old(marks) + (if clearSignal then [Cleared] else [])
      ensures remoteStrokes == old(remoteStrokes) && drawing == old(drawing) && lastPoint == old(lastPoint) && sent == old(sent)
    {
      if clearSignal {
        marks := marks + [Cleared];
      }
    }

    /**
     * The effect on the `drawingData` property. A null or empty log changes
     * nothing; otherwise the canvas is wiped and the log is replayed with a
     * fresh table of strokes of its own.
     */
    method Replay(drawingData: Option<seq<DrawingCmd>>)
      modifies this
      ensures drawingData.None? || drawingData.value == [] ==> marks == old(marks)
      ensures drawingData.Some? && drawingData.value != [] ==>
        marks == old(marks) + [Cleared] + Run(map[], Decoded(drawingData.value)).marks
      ensures remoteStrokes == old(remoteStrokes) && drawing == old(drawing) && lastPoint == old(lastPoint) && sent == old(sent)
    {
      if drawingData.None? || |drawingData.value| == 0 {
        return;
      }
      var data := drawingData.value;
      marks := marks + [Cleared];
      ghost var base := marks;
      var temp: Strokes := map[];
      var i := 0;
      while i < |data|
        invariant 0 <= i <= |data|
        invariant temp == Run(map[], Decoded(data[..i])).strokes
        invariant marks == base + Run(map[], Decoded(data[..i])).marks
        invariant remoteStrokes == old(remoteStrokes) && drawing == old(drawing) && lastPoint == old(lastPoint) && sent == old(sent)
      {
        var cmd := data[i];
        DecodedPrefix(data, i);
        ghost var events := Decoded(data[..i + 1]);
        assert events[..|events| - 1] == Decoded(data[..i]);
        if cmd.kind == "clear" {
          marks := marks + [Cleared];
        } else if cmd.kind == "stroke-start" {
          temp := temp[cmd.data.socketId := Stroke(Point(cmd.data.x, cmd.data.y), cmd.data.colour, cmd.data.strokeWidth, cmd.data.tool)];
        } else if cmd.kind == "stroke-move" {
          if cmd.data.socketId in temp {
            var stroke := temp[cmd.data.socketId];
            var alpha := AlphaTenths(stroke.tool);
            marks := marks + [Segment(stroke.lastPoint, Point(cmd.data.x, cmd.data.y), stroke.colour, stroke.width, alpha)];
            temp := temp[cmd.data.socketId := stroke.(lastPoint := Point(cmd.data.x, cmd.data.y))];
          }
        } else if cmd.kind == "stroke-end" {
          temp := temp - {cmd.data.socketId};
        }
        i := i + 1;
      }
      assert data[..i] == data;
    }

    /** `handlePointerDown`: start a local stroke at the pointer and announce it. */
    method PointerDown(pt: Point, colour: Colour, strokeWidth: int, tool: string)
      modifies this
      ensures Valid() && drawing && lastPoint == Some(pt)
      ensures sent == old(sent) + (if connected then [DrawStart(pt, colour, strokeWidth, tool)] else [])
      ensures marks == old(marks) && remoteStrokes == old(remoteStrokes)
    {
      drawing := true;
      lastPoint := Some(pt);
      if connected {
        sent := sent + [DrawStart(pt, colour, strokeWidth, tool)];
      }
    }

    /**
     * `handlePointerMove`: while drawing, paint a segment from the last point
     * and emit the move and the cursor position; otherwise do nothing.
     */
    method PointerMove(pt: Point, colour: Colour, strokeWidth: int, tool: string)
      requires Valid()
      modifies this
      ensures Valid() && drawing == old(drawing)
      ensures !old(drawing) ==> marks == old(marks) && lastPoint == old(lastPoint) && sent == old(sent)
      ensures old(drawing) ==>
        && marks == old(marks) + [Segment(old(lastPoint).value, pt, colour, strokeWidth, AlphaTenths(tool))]
        && lastPoint == Some(pt)
        && sent == old(sent) + (if connected then [DrawMove(pt), CursorMove(pt)] else [])
      ensures remoteStrokes == old(remoteStrokes)
    {
      if !drawing {
        return;
      }
      var alpha := AlphaTenths(tool);
      if lastPoint.Some? {
        marks := marks + [Segment(lastPoint.value, pt, colour, strokeWidth, alpha)];
      }
      lastPoint := Some(pt);
      if connected {
        sent := sent + [DrawMove(pt)];
      }
      if connected {
        sent := sent + [CursorMove(pt)];
      }
    }

    /** `handlePointerUp`: end the local stroke and announce it. */
    method PointerUp()
      modifies this
      ensures Valid() && !drawing && lastPoint == None
      ensures sent == old(sent) + (if connected then [DrawEnd] else [])
      ensures marks == old(marks) && remoteStrokes == old(remoteStrokes)
    {
      drawing := false;
      lastPoint := None;
      if connected {
        sent := sent + [DrawEnd];
      }
    }

    /**
     * `handleMouseMove` and `handleTouchMove`: report the cursor when not
     * drawing, then handle the move. Every call emits exactly one cursor
     * position when a socket is attached, and a stroke move only while drawing.
     */
    method MouseMove(pt: Point, colour: Colour, strokeWidth: int, tool: string)
      requires Valid()
      modifies this
      ensures Valid() && drawing == old(drawing)
      ensures CursorMoves(sent) == CursorMoves(old(sent)) + (if connected then 1 else 0)
      ensures sent == old(sent) + (if !connected then [] else if old(drawing) then [DrawMove(pt), CursorMove(pt)] else [CursorMove(pt)])
      ensures !old(drawing) ==> marks == old(marks) && lastPoint == old(lastPoint)
      ensures old(drawing) ==>
        marks == old(marks) + [Segment(old(lastPoint).value, pt, colour, strokeWidth, AlphaTenths(tool))] && lastPoint == Some(pt)
      ensures remoteStrokes == old(remoteStrokes)
    {
      if !drawing && connected {
        sent := sent + [CursorMove(pt)];
      }
      PointerMove(pt, colour, strokeWidth, tool);
      CursorMovesAppend(old(sent), sent[|old(sent)|..]);
      assert sent == old(sent) + sent[|old(sent)|..];
      if connected && old(drawing) {
        assert sent[|old(sent)|..] == [DrawMove(pt)] + [CursorMove(pt)];
        CursorMovesAppend([DrawMove(pt)], [CursorMove(pt)]);
      }
    }
  }
}
