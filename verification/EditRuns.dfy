/** Every run of strokes, cancels, undos and redos. */
module EditRuns {
  import opened Wrappers
  import opened Strokes

  /** What a brush leaves on a layer of a given kind. */
  type Render<!R> = (LayerKind, Brush) -> R

  datatype Op = BeginStroke(kind: LayerKind, layer: int, brush: Brush) | PaintAt(point: Point, brush: Brush)
              | EndStroke | CancelStroke | UndoStroke | RedoStroke

  /** One call. A refused call changes nothing. */
  function Apply<R(==)>(d: Document<R>, shape: Shape, render: Render<R>, op: Op): Document<R> {
    match op
    case BeginStroke(kind, layer, brush) =>
      if BeginError(d, shape, kind, layer, brush).Some? then d else Begin(d, kind, layer)
    case PaintAt(point, brush) => PaintIfAllowed(d, shape, render, point, brush)
    case EndStroke => if d.cursor <= |d.history| then End(d) else d
    case CancelStroke => Cancel(d)
    case UndoStroke => Undo(d)
    case RedoStroke => Redo(d)
  }

  /** In a document whose cells are all filled the target is always there once the layer and the point are. */
  function PaintIfAllowed<R(==)>(d: Document<R>, shape: Shape, render: Render<R>, point: Point, brush: Brush)
    : Document<R>
  {
    if PaintError(d, shape, point).Some? || Target(d, point) !in d.tiles then d
    else Paint(d, point, render(d.active.value.entry.kind, brush))
  }

  function Run<R(==)>(d: Document<R>, shape: Shape, render: Render<R>, ops: seq<Op>): Document<R> {
    if ops == [] then d else Apply(Run(d, shape, render, ops[..|ops| - 1]), shape, render, ops[|ops| - 1])
  }

  // ---- Every step keeps the invariant ----

  lemma EndKeepsInv<R(!new)>(d: Document<R>, origin: Tiles<R>)
    requires Inv(d, origin)
    ensures Inv(End(d), origin)
  {
    var d' := End(d);
    if d.active.Some? && d.active.value.entry.mutations != [] {
      hide Fits, Applied, PointsIndexed;
      forall n | 0 <= n < |d'.history| ensures FitsAt(origin, d'.history, n) {
        ReplayAgrees(origin, d.history, d'.history, n);
        assert n < d.cursor ==> FitsAt(origin, d.history, n);
      }
      ReplayAgrees(origin, d.history, d'.history, d.cursor);
    }
  }

  lemma CancelRestores<R(!new)>(d: Document<R>, origin: Tiles<R>)
    requires Inv(d, origin)
    ensures Inv(Cancel(d), origin)
    ensures Cancel(d).tiles == Replay(origin, d.history, d.cursor)
  {
    if d.active.Some? {
      RevertedApplied(Replay(origin, d.history, d.cursor), d.active.value.entry);
    }
  }

  lemma UndoKeepsInv<R(!new)>(d: Document<R>, origin: Tiles<R>)
    requires Inv(d, origin)
    ensures Inv(Undo(d), origin)
  {
    if CanUndo(d) {
      assert FitsAt(origin, d.history, d.cursor - 1);
      RevertedApplied(Replay(origin, d.history, d.cursor - 1), d.history[d.cursor - 1]);
    }
  }

  lemma OpKeepsInv<R(!new)>(d: Document<R>, origin: Tiles<R>, shape: Shape, render: Render<R>, op: Op)
    requires Inv(d, origin)
    ensures Inv(Apply(d, shape, render, op), origin)
  {
    EndKeepsInv(d, origin);
    CancelRestores(d, origin);
    UndoKeepsInv(d, origin);
    if op.PaintAt? && d.active.Some? && Target(d, op.point) in d.tiles {
      PaintKeepsStroke(Replay(origin, d.history, d.cursor), d, op.point, render(d.active.value.entry.kind, op.brush));
    }
  }

  /** In every run the tiles are the opened ones with exactly the entries before the cursor and the active stroke
      applied, and the undone entries can still be applied forwards. */
  lemma {:induction false} RunKeepsInv<R(!new)>(origin: Tiles<R>, shape: Shape, render: Render<R>, ops: seq<Op>)
    ensures Inv(Run(Open(origin), shape, render, ops), origin)
  {
    if ops != [] {
      RunKeepsInv(origin, shape, render, ops[..|ops| - 1]);
      OpKeepsInv(Run(Open(origin), shape, render, ops[..|ops| - 1]), origin, shape, render, ops[|ops| - 1]);
    }
  }

  // ---- Undo and redo ----

  lemma RedoUndoes<R(!new)>(d: Document<R>, origin: Tiles<R>)
    requires Inv(d, origin)
    ensures CanUndo(d) ==> Redo(Undo(d)) == d.(revision := d.revision + 2)
    ensures CanRedo(d) ==> Undo(Redo(d)) == d.(revision := d.revision + 2)
  {
    if CanUndo(d) {
      assert FitsAt(origin, d.history, d.cursor - 1);
      RevertedApplied(Replay(origin, d.history, d.cursor - 1), d.history[d.cursor - 1]);
    }
    if CanRedo(d) {
      assert FitsAt(origin, d.history, d.cursor);
      RevertedApplied(d.tiles, d.history[d.cursor]);
    }
  }

  function UndoTimes<R>(d: Document<R>, n: nat): Document<R>
    decreases n
  {
    if n == 0 then d else UndoTimes(Undo(d), n - 1)
  }

  function RedoTimes<R>(d: Document<R>, n: nat): Document<R> {
    if n == 0 then d else Redo(RedoTimes(d, n - 1))
  }

  /** Undoing strokes walks back through exactly the states the history was made in. */
  lemma {:induction false} UndoWalksBack<R(!new)>(d: Document<R>, origin: Tiles<R>, n: nat)
    requires Inv(d, origin) && d.active.None? && n <= d.cursor
    ensures UndoTimes(d, n) == d.(tiles := Replay(origin, d.history, d.cursor - n), cursor := d.cursor - n,
                                  revision := d.revision + n)
    decreases n
  {
    if n > 0 {
      UndoKeepsInv(d, origin);
      UndoWalksBack(Undo(d), origin, n - 1);
    }
  }

  /** After any run that ends outside a stroke, undoing everything gives the opened map back, and redoing as much gives
      the edited one. */
  lemma UndoAllRestores<R(!new)>(origin: Tiles<R>, shape: Shape, render: Render<R>, ops: seq<Op>)
    requires Run(Open(origin), shape, render, ops).active.None?
    ensures var d := Run(Open(origin), shape, render, ops);
            && UndoTimes(d, d.cursor).tiles == origin
            && RedoTimes(UndoTimes(d, d.cursor), d.cursor).tiles == d.tiles
  {
    RunKeepsInv(origin, shape, render, ops);
    var d := Run(Open(origin), shape, render, ops);
    UndoWalksBack(d, origin, d.cursor);
    RedoWalksForward(d, origin, d.cursor);
  }

  lemma {:induction false} RedoWalksForward<R(!new)>(d: Document<R>, origin: Tiles<R>, n: nat)
    requires Inv(d, origin) && d.active.None? && n <= d.cursor
    ensures RedoTimes(UndoTimes(d, n), n) == d.(revision := d.revision + 2 * n)
    decreases n
  {
    if n > 0 {
      UndoKeepsInv(d, origin);
      RedoWalksForward(Undo(d), origin, n - 1);
      RedoUndoes(d, origin);
    }
  }

  // ---- A whole stroke ----

  datatype Visit = Visit(point: Point, brush: Brush)

  function PaintAll<R(==)>(d: Document<R>, shape: Shape, render: Render<R>, visits: seq<Visit>): Document<R> {
    if visits == [] then d
    else
      var v := visits[|visits| - 1];
      PaintIfAllowed(PaintAll(d, shape, render, visits[..|visits| - 1]), shape, render, v.point, v.brush)
  }

  /** Painting without any record keeping: each visit writes its result. */
  function Painted<R>(tiles: Tiles<R>, shape: Shape, render: Render<R>, kind: LayerKind, layer: int,
                      visits: seq<Visit>): Tiles<R> {
    if visits == [] then tiles
    else
      var v := visits[|visits| - 1];
      var rest := Painted(tiles, shape, render, kind, layer, visits[..|visits| - 1]);
      if !InBounds(shape, v.point) || Cell(kind, layer, v.point) !in rest then rest
      else rest[Cell(kind, layer, v.point) := render(kind, v.brush)]
  }

  lemma BeginKeepsInv<R(!new)>(d: Document<R>, origin: Tiles<R>, kind: LayerKind, layer: int)
    requires Inv(d, origin) && d.active.None?
    ensures Inv(Begin(d, kind, layer), origin)
  {
  }

  lemma RecordedIsSome<R(!new)>(s: Stroke<R>, point: Point, after: R)
    ensures forall before :: var s' := Recorded(s, point, before, after);
            s'.entry.kind == s.entry.kind && s'.entry.layer == s.entry.layer && s'.entry.mutations != []
  {
  }

  lemma {:induction false} PaintAllPaints<R(!new)>(d: Document<R>, origin: Tiles<R>, shape: Shape, render: Render<R>,
                                                     kind: LayerKind, layer: int, visits: seq<Visit>)
    requires Inv(d, origin) && d.active.None?
    ensures var s := PaintAll(Begin(d, kind, layer), shape, render, visits);
            && Inv(s, origin) && s.history == d.history && s.cursor == d.cursor
            && s.active.Some? && s.active.value.entry.kind == kind && s.active.value.entry.layer == layer
            && s.tiles == Painted(d.tiles, shape, render, kind, layer, visits)
            && s.revision >= d.revision && (s.active.value.entry.mutations == [] <==> s.revision == d.revision)
  {
    hide Inv, Recorded;
    BeginKeepsInv(d, origin, kind, layer);
    if visits != [] {
      var v := visits[|visits| - 1];
      PaintAllPaints(d, origin, shape, render, kind, layer, visits[..|visits| - 1]);
      var s := PaintAll(Begin(d, kind, layer), shape, render, visits[..|visits| - 1]);
      OpKeepsInv(s, origin, shape, render, PaintAt(v.point, v.brush));
      RecordedIsSome(s.active.value, v.point, render(kind, v.brush));
    }
  }

  /** A cancelled stroke leaves the document as it was, however often it came back to a cell; only the revision moves,
      and only if the stroke changed something. */
  lemma CancelLeavesNoTrace<R(!new)>(d: Document<R>, origin: Tiles<R>, shape: Shape, render: Render<R>,
                                         kind: LayerKind, layer: int, visits: seq<Visit>)
    requires Inv(d, origin) && d.active.None?
    ensures var s := PaintAll(Begin(d, kind, layer), shape, render, visits);
            Cancel(s) == d.(revision := if s.revision == d.revision then d.revision else s.revision + 1)
  {
    hide Inv;
    PaintAllPaints(d, origin, shape, render, kind, layer, visits);
    CancelRestores(PaintAll(Begin(d, kind, layer), shape, render, visits), origin);
    CancelRestores(d, origin);
  }

  /** A stroke that changed something is one undo step: undo gives the tiles from before its first visit, redo gives
      what painting every visit in order gives, and what had been undone before is gone. */
  lemma StrokeIsOneStep<R(!new)>(d: Document<R>, origin: Tiles<R>, shape: Shape, render: Render<R>,
                                     kind: LayerKind, layer: int, visits: seq<Visit>)
    requires Inv(d, origin) && d.active.None?
    requires PaintAll(Begin(d, kind, layer), shape, render, visits).revision != d.revision
    ensures var after := Apply(PaintAll(Begin(d, kind, layer), shape, render, visits), shape, render, EndStroke);
            && after.tiles == Painted(d.tiles, shape, render, kind, layer, visits)
            && |after.history| == d.cursor + 1 && after.history[..d.cursor] == d.history[..d.cursor]
            && Undo(after).tiles == d.tiles && Undo(after).cursor == d.cursor
            && Redo(Undo(after)).tiles == after.tiles && Redo(after) == after
  {
    hide HistoryFits, Painted, StrokeFits;
    PaintAllPaints(d, origin, shape, render, kind, layer, visits);
    var s := PaintAll(Begin(d, kind, layer), shape, render, visits);
    hide PaintAll;
    EndKeepsInv(s, origin);
    var after := End(s);
    RedoUndoes(after, origin);
    UndoRestoresBase(after, origin);
    ReplayAgrees(origin, d.history, after.history, d.cursor);
  }

  lemma UndoRestoresBase<R(!new)>(d: Document<R>, origin: Tiles<R>)
    requires Inv(d, origin) && CanUndo(d)
    ensures Undo(d).tiles == Replay(origin, d.history, d.cursor - 1)
  {
    UndoKeepsInv(d, origin);
  }

  // ---- What is accepted ----

  /** Exactly which strokes may begin, and which faults come first. */
  lemma StrokeIsAccepted<R(!new)>(d: Document<R>, shape: Shape, kind: LayerKind, layer: int, brush: Brush)
    ensures
      var there := (kind == Floor && 0 <= layer < shape.floors) || (kind == Wall && 0 <= layer < shape.walls)
                   || (kind == Shadow && 0 <= layer < shape.shadows);
      var fits := brush.empty || (brush.identity.style <= 63 && brush.identity.sequence <= 63);
      BeginError(d, shape, kind, layer, brush) ==
      if d.active.Some? then Some(StrokeActive) else if !there then Some(BadLayer)
      else if !fits then Some(BadIdentity) else None
  {
  }

  /** Exactly which paints are carried out. */
  lemma PaintIsAccepted<R(!new)>(d: Document<R>, shape: Shape, point: Point)
    ensures PaintError(d, shape, point) ==
            if d.active.None? then Some(NoStroke)
            else if 0 <= point.x < shape.width && 0 <= point.y < shape.height then None else Some(OutOfBounds)
  {
  }

  /** On a map whose cells are all there, a legal stroke of one visit leaves exactly what its brush draws in exactly
      the cell asked for, at once and after it is finished, and adds one entry to the history if that is a change. */
  lemma LegalPaintShows<R(!new)>(d: Document<R>, shape: Shape, render: Render<R>, kind: LayerKind, layer: int,
  brush: Brush,
                                 visit: Visit)
    requires Filled(shape, d.tiles) && d.active.None? && d.cursor <= |d.history|
    requires kind == Floor || kind == Wall || kind == Shadow
    requires 0 <= layer < if kind == Floor then shape.floors else if kind == Wall then shape.walls else shape.shadows
    requires brush.empty || (brush.identity.style <= 63 && brush.identity.sequence <= 63)
    requires 0 <= visit.point.x < shape.width && 0 <= visit.point.y < shape.height
    ensures
      var began := Apply(d, shape, render, BeginStroke(kind, layer, brush));
      var painted := Apply(began, shape, render, PaintAt(visit.point, visit.brush));
      var ended := Apply(painted, shape, render, EndStroke);
      var cell, drawn := Cell(kind, layer, visit.point), render(kind, visit.brush);
      && began.tiles == d.tiles && cell in d.tiles
      && painted.tiles == d.tiles[cell := drawn] && ended.tiles == painted.tiles && ended.active.None?
      && (drawn == d.tiles[cell] ==> ended == d)
      && (drawn != d.tiles[cell] ==>
            && ended.history ==
               d.history[..d.cursor] + [Entry(kind, layer, [Mutation(visit.point, d.tiles[cell], drawn)])]
            && ended.cursor == d.cursor + 1 && ended.revision == d.revision + 1)
  {
    StrokeIsAccepted(d, shape, kind, layer, brush);
    var cell := Cell(kind, layer, visit.point);
    assert cell in d.tiles;
    var began := Apply(d, shape, render, BeginStroke(kind, layer, brush));
    PaintIsAccepted(began, shape, visit.point);
    hide Filled, BeginError, PaintError;
    assert d.tiles[cell := d.tiles[cell]] == d.tiles;
    var m := Mutation(visit.point, d.tiles[cell], render(kind, visit.brush));
    assert [] + [m] == [m];
  }

  // ---- What presentation is told ----

  /** Every cell an undo, a redo or a finished stroke changes is among the points it reports. */
  lemma HistoryReportsChanges<R(!new)>(d: Document<R>, origin: Tiles<R>, cell: Cell)
    requires Inv(d, origin) && cell in origin
    ensures cell in d.tiles && cell in Undo(d).tiles && cell in Redo(d).tiles
    ensures cell in Replay(origin, d.history, d.cursor)
    ensures Undo(d).tiles[cell] != d.tiles[cell] ==> CanUndo(d) && cell.point in Points(d.history[d.cursor - 1])
    ensures Redo(d).tiles[cell] != d.tiles[cell] ==> CanRedo(d) && cell.point in Points(d.history[d.cursor])
    ensures d.tiles[cell] != Replay(origin, d.history, d.cursor)[cell] ==>
              d.active.Some? && cell.point in Points(d.active.value.entry)
  {
    ReplayKeepsCells(origin, d.history, d.cursor);
    var base := Replay(origin, d.history, d.cursor);
    if d.active.Some? {
      if d.tiles[cell] != base[cell] {
        ChangesAreReported(base, d.active.value.entry, cell);
      }
    } else {
      if CanUndo(d) {
        assert FitsAt(origin, d.history, d.cursor - 1);
        ReplayKeepsCells(origin, d.history, d.cursor - 1);
        var earlier := Replay(origin, d.history, d.cursor - 1);
        RevertedApplied(earlier, d.history[d.cursor - 1]);
        if earlier[cell] != d.tiles[cell] {
          ChangesAreReported(earlier, d.history[d.cursor - 1], cell);
        }
      }
      if CanRedo(d) {
        assert FitsAt(origin, d.history, d.cursor);
        if Applied(d.tiles, d.history[d.cursor])[cell] != d.tiles[cell] {
          ChangesAreReported(d.tiles, d.history[d.cursor], cell);
        }
      }
    }
  }

  lemma {:induction false} ReplayKeepsCells<R(!new)>(origin: Tiles<R>, history: seq<Entry<R>>, n: nat)
    requires n <= |history|
    ensures origin.Keys <= Replay(origin, history, n).Keys
  {
    if n > 0 {
      ReplayKeepsCells(origin, history, n - 1);
    }
  }

  lemma OpMovesRevision<R(!new)>(d: Document<R>, shape: Shape, render: Render<R>, op: Op)
    ensures var d' := Apply(d, shape, render, op);
            d'.revision >= d.revision && (d'.revision == d.revision ==> d'.tiles == d.tiles)
  {
  }

  /** A revision that has not moved means that no tile has. */
  lemma {:induction false} SameRevisionSameTiles<R(!new)>(d: Document<R>, shape: Shape, render: Render<R>, ops: seq<Op>)
    ensures var d' := Run(d, shape, render, ops);
            d'.revision >= d.revision && (d'.revision == d.revision ==> d'.tiles == d.tiles)
  {
    if ops != [] {
      SameRevisionSameTiles(d, shape, render, ops[..|ops| - 1]);
      OpMovesRevision(Run(d, shape, render, ops[..|ops| - 1]), shape, render, ops[|ops| - 1]);
    }
  }
}
