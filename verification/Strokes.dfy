/** Tile edits as data: what a stroke records, what it does to the tiles forwards and backwards, and the document's
    operations on an undo history. */
module Strokes {
  import opened Wrappers

  datatype LayerKind = Floor | Wall | Shadow | Unknown(code: nat)

  datatype Point = Point(x: int, y: int)

  datatype Cell = Cell(kind: LayerKind, layer: int, point: Point)

  datatype Identity = Identity(orientation: nat, style: nat, sequence: nat)

  datatype Brush = Brush(identity: Identity, properties: nat, empty: bool)

  datatype Mutation<R> = Mutation(point: Point, before: R, after: R)

  datatype Entry<R> = Entry(kind: LayerKind, layer: int, mutations: seq<Mutation<R>>)

  datatype Stroke<R> = Stroke(entry: Entry<R>, points: map<Point, nat>)

  /** Grid dimensions and layer counts, fixed when a document is opened. */
  datatype Shape = Shape(width: int, height: int, floors: int, walls: int, shadows: int)

  datatype StrokeError = StrokeActive | NoStroke | BadLayer | BadIdentity | OutOfBounds

  type Tiles<R> = map<Cell, R>

  datatype Document<R> = Document(tiles: Tiles<R>, revision: nat, history: seq<Entry<R>>, cursor: nat,
                                  active: Option<Stroke<R>>)

  // ---- Shape ----

  predicate InBounds(shape: Shape, point: Point) {
    0 <= point.x < shape.width && 0 <= point.y < shape.height
  }

  predicate HasLayer(shape: Shape, kind: LayerKind, layer: int) {
    match kind
    case Floor => 0 <= layer < shape.floors
    case Wall => 0 <= layer < shape.walls
    case Shadow => 0 <= layer < shape.shadows
    case Unknown(_) => false
  }

  /** Every cell of every layer has a record. */
  ghost predicate Filled<R(!new)>(shape: Shape, tiles: Tiles<R>) {
    forall cell: Cell :: cell in tiles <==> HasLayer(shape, cell.kind, cell.layer) && InBounds(shape, cell.point)
  }

  // ---- Edits ----

  function CellOf<R>(e: Entry<R>, m: Mutation<R>): Cell {
    Cell(e.kind, e.layer, m.point)
  }

  function Front<R>(e: Entry<R>): Entry<R>
    requires e.mutations != []
  {
    e.(mutations := e.mutations[..|e.mutations| - 1])
  }

  function Last<R>(e: Entry<R>): Mutation<R>
    requires e.mutations != []
  {
    e.mutations[|e.mutations| - 1]
  }

  /** Replays the recorded results in order. */
  function Applied<R>(tiles: Tiles<R>, e: Entry<R>): (after: Tiles<R>)
    ensures tiles.Keys <= after.Keys
    decreases |e.mutations|
  {
    if e.mutations == [] then tiles else Applied(tiles, Front(e))[CellOf(e, Last(e)) := Last(e).after]
  }

  /** Puts the recorded originals back, last one first. */
  function Reverted<R>(tiles: Tiles<R>, e: Entry<R>): Tiles<R>
    decreases |e.mutations|
  {
    if e.mutations == [] then tiles else Reverted(tiles[CellOf(e, Last(e)) := Last(e).before], Front(e))
  }

  function Points<R>(e: Entry<R>): seq<Point> {
    seq(|e.mutations|, i requires 0 <= i < |e.mutations| => e.mutations[i].point)
  }

  /** The state the tiles are in after the first `n` entries of a history. */
  function Replay<R>(origin: Tiles<R>, history: seq<Entry<R>>, n: nat): Tiles<R>
    requires n <= |history|
  {
    if n == 0 then origin else Applied(Replay(origin, history, n - 1), history[n - 1])
  }

  // ---- Operations ----

  function Open<R>(tiles: Tiles<R>): Document<R> {
    Document(tiles, 1, [], 0, None)
  }

  function BeginError<R>(d: Document<R>, shape: Shape, kind: LayerKind, layer: int, brush: Brush): Option<StrokeError> {
    if d.active.Some? then Some(StrokeActive)
    else if !HasLayer(shape, kind, layer) then Some(BadLayer)
    else if !brush.empty && (brush.identity.style > 0x3f || brush.identity.sequence > 0x3f) then Some(BadIdentity)
    else None
  }

  function Begin<R>(d: Document<R>, kind: LayerKind, layer: int): Document<R> {
    d.(active := Some(Stroke(Entry(kind, layer, []), map[])))
  }

  function PaintError<R>(d: Document<R>, shape: Shape, point: Point): Option<StrokeError> {
    if d.active.None? then Some(NoStroke) else if !InBounds(shape, point) then Some(OutOfBounds) else None
  }

  /** Records a painted cell: a repeated visit keeps the first original and takes the new result. */
  function Recorded<R>(s: Stroke<R>, point: Point, before: R, after: R): Stroke<R> {
    if point in s.points && s.points[point] < |s.entry.mutations| then
      var i := s.points[point];
      s.(entry := s.entry.(mutations := s.entry.mutations[i := s.entry.mutations[i].(after := after)]))
    else
      Stroke(s.entry.(mutations := s.entry.mutations + [Mutation(point, before, after)]),
             s.points[point := |s.entry.mutations|])
  }

  /** The cell a paint of the active stroke lands on. */
  function Target<R>(d: Document<R>, point: Point): Cell
    requires d.active.Some?
  {
    Cell(d.active.value.entry.kind, d.active.value.entry.layer, point)
  }

  function Paint<R(==)>(d: Document<R>, point: Point, result: R): Document<R>
    requires d.active.Some? && Target(d, point) in d.tiles
  {
    var cell := Target(d, point);
    if d.tiles[cell] == result then d
    else d.(tiles := d.tiles[cell := result], revision := d.revision + 1,
            active := Some(Recorded(d.active.value, point, d.tiles[cell], result)))
  }

  function End<R>(d: Document<R>): Document<R>
    requires d.cursor <= |d.history|
  {
    if d.active.None? || d.active.value.entry.mutations == [] then d.(active := None)
    else d.(active := None, history := d.history[..d.cursor] + [d.active.value.entry], cursor := d.cursor + 1)
  }

  function Cancel<R>(d: Document<R>): Document<R> {
    if d.active.None? || d.active.value.entry.mutations == [] then d.(active := None)
    else d.(active := None, revision := d.revision + 1, tiles := Reverted(d.tiles, d.active.value.entry))
  }

  predicate CanUndo<R>(d: Document<R>) {
    d.active.None? && 0 < d.cursor <= |d.history|
  }

  function Undo<R>(d: Document<R>): Document<R> {
    if !CanUndo(d) then d
    else d.(cursor := d.cursor - 1, revision := d.revision + 1, tiles := Reverted(d.tiles, d.history[d.cursor - 1]))
  }

  predicate CanRedo<R>(d: Document<R>) {
    d.active.None? && d.cursor < |d.history|
  }

  function Redo<R>(d: Document<R>): Document<R> {
    if !CanRedo(d) then d
    else d.(cursor := d.cursor + 1, revision := d.revision + 1, tiles := Applied(d.tiles, d.history[d.cursor]))
  }

  // ---- What holds of every document ----

  /** An entry is a forward difference from `tiles`: it visits each cell once and remembers what was there. */
  ghost predicate Fits<R(!new)>(tiles: Tiles<R>, e: Entry<R>) {
    && (forall i, j :: 0 <= i < j < |e.mutations| ==> e.mutations[i].point != e.mutations[j].point)
    && (forall m :: m in e.mutations ==> CellOf(e, m) in tiles && tiles[CellOf(e, m)] == m.before)
  }

  ghost predicate FitsAt<R(!new)>(origin: Tiles<R>, history: seq<Entry<R>>, n: nat)
    requires n < |history|
  {
    history[n].mutations != [] && Fits(Replay(origin, history, n), history[n])
  }

  /** Each entry is a forward difference from the state the entries before it lead to. */
  ghost predicate HistoryFits<R(!new)>(origin: Tiles<R>, history: seq<Entry<R>>) {
    forall n :: 0 <= n < |history| ==> FitsAt(origin, history, n)
  }

  ghost predicate PointsIndexed<R(!new)>(s: Stroke<R>) {
    && (forall p :: p in s.points ==> s.points[p] < |s.entry.mutations| && s.entry.mutations[s.points[p]].point == p)
    && (forall i :: 0 <= i < |s.entry.mutations| ==>
        s.entry.mutations[i].point in s.points && s.points[s.entry.mutations[i].point] == i)
  }

  ghost predicate StrokeFits<R(!new)>(base: Tiles<R>, tiles: Tiles<R>, s: Stroke<R>) {
    Fits(base, s.entry) && tiles == Applied(base, s.entry) && PointsIndexed(s)
  }

  /** The tiles are the original ones with exactly the entries before the cursor, and the active stroke, applied; the
      entries after the cursor are still forward differences. */
  ghost predicate Inv<R(!new)>(d: Document<R>, origin: Tiles<R>) {
    && d.cursor <= |d.history|
    && HistoryFits(origin, d.history)
    && var base := Replay(origin, d.history, d.cursor);
      match d.active
      case None => d.tiles == base
      case Some(s) => StrokeFits(base, d.tiles, s)
  }

  // ---- One entry forwards and backwards ----

  lemma FrontFits<R(!new)>(tiles: Tiles<R>, e: Entry<R>)
    requires Fits(tiles, e) && e.mutations != []
    ensures Fits(tiles, Front(e))
  {
  }

  /** Applying an entry changes exactly its own cells. */
  lemma {:induction false} AppliedAt<R(!new)>(tiles: Tiles<R>, e: Entry<R>, cell: Cell)
    requires Fits(tiles, e)
    ensures Applied(tiles, e).Keys == tiles.Keys
    ensures (forall m :: m in e.mutations ==> CellOf(e, m) != cell) && cell in tiles ==>
              Applied(tiles, e)[cell] == tiles[cell]
    ensures forall m :: m in e.mutations && CellOf(e, m) == cell ==> Applied(tiles, e)[cell] == m.after
    decreases |e.mutations|
  {
    if e.mutations != [] {
      FrontFits(tiles, e);
      AppliedAt(tiles, Front(e), cell);
      assert Last(e) in e.mutations;
      assert forall m :: m in e.mutations ==> m in Front(e).mutations || m == Last(e);
      assert forall m :: m in Front(e).mutations ==> m in e.mutations && m.point != Last(e).point;
    }
  }

  /** Putting the originals back undoes an entry. */
  lemma {:induction false} RevertedApplied<R(!new)>(tiles: Tiles<R>, e: Entry<R>)
    requires Fits(tiles, e)
    ensures Reverted(Applied(tiles, e), e) == tiles
    decreases |e.mutations|
  {
    if e.mutations != [] {
      FrontFits(tiles, e);
      var m := Last(e);
      var cell := CellOf(e, m);
      assert m in e.mutations;
      assert forall k :: k in Front(e).mutations ==> CellOf(Front(e), k) != cell;
      AppliedAt(tiles, Front(e), cell);
      assert Applied(tiles, e)[cell := m.before] == Applied(tiles, Front(e));
      RevertedApplied(tiles, Front(e));
    }
  }

  /** Whatever an entry changes is among the points it reports. */
  lemma ChangesAreReported<R(!new)>(tiles: Tiles<R>, e: Entry<R>, cell: Cell)
    requires Fits(tiles, e) && cell in tiles && Applied(tiles, e)[cell] != tiles[cell]
    ensures cell.kind == e.kind && cell.layer == e.layer && cell.point in Points(e)
  {
    AppliedAt(tiles, e, cell);
    var m :| m in e.mutations && CellOf(e, m) == cell;
    var i :| 0 <= i < |e.mutations| && e.mutations[i] == m;
    assert Points(e)[i] == cell.point;
  }

  lemma {:induction false} ReplayAgrees<R>(origin: Tiles<R>, a: seq<Entry<R>>, b: seq<Entry<R>>, n: nat)
    requires n <= |a| && n <= |b| && a[..n] == b[..n]
    ensures Replay(origin, a, n) == Replay(origin, b, n)
  {
    if n > 0 {
      assert a[n - 1] == a[..n][n - 1] == b[n - 1];
      assert a[..n - 1] == a[..n][..n - 1] == b[..n - 1];
      ReplayAgrees(origin, a, b, n - 1);
    }
  }

  // ---- Painting inside a stroke ----

  /** Taking a new result for a cell already visited. */
  lemma {:induction false} AppliedOverwrite<R(!new)>(tiles: Tiles<R>, e: Entry<R>, i: nat, after: R)
    requires Fits(tiles, e) && i < |e.mutations|
    ensures var e' := e.(mutations := e.mutations[i := e.mutations[i].(after := after)]);
            Fits(tiles, e') && Applied(tiles, e') == Applied(tiles, e)[CellOf(e, e.mutations[i]) := after]
    decreases |e.mutations|
  {
    var e' := e.(mutations := e.mutations[i := e.mutations[i].(after := after)]);
    FrontFits(tiles, e);
    forall m | m in e'.mutations ensures CellOf(e', m) in tiles && tiles[CellOf(e', m)] == m.before {
      assert m in e.mutations || m == e.mutations[i].(after := after);
      assert e.mutations[i] in e.mutations;
    }
    if i < |e.mutations| - 1 {
      AppliedOverwrite(tiles, Front(e), i, after);
      assert Front(e').mutations == Front(e).mutations[i := e.mutations[i].(after := after)];
      assert Last(e') == Last(e) && Last(e).point != e.mutations[i].point;
    } else {
      assert Front(e') == Front(e);
    }
  }

  lemma OverwriteKeepsIndex<R(!new)>(s: Stroke<R>, point: Point, before: R, after: R)
    requires PointsIndexed(s)
    ensures PointsIndexed(Recorded(s, point, before, after))
  {
  }

  /** A first visit adds a difference whose original is the stroke's own starting point. */
  lemma AppliedExtend<R(!new)>(tiles: Tiles<R>, e: Entry<R>, m: Mutation<R>)
    requires Fits(tiles, e) && forall k :: k in e.mutations ==> k.point != m.point
    requires CellOf(e, m) in tiles && Applied(tiles, e)[CellOf(e, m)] == m.before
    ensures var e' := e.(mutations := e.mutations + [m]);
            Fits(tiles, e') && Applied(tiles, e') == Applied(tiles, e)[CellOf(e, m) := m.after]
  {
    var e' := e.(mutations := e.mutations + [m]);
    AppliedAt(tiles, e, CellOf(e, m));
    assert Front(e') == e && Last(e') == m;
    forall i, j | 0 <= i < j < |e'.mutations| ensures e'.mutations[i].point != e'.mutations[j].point {
      assert j == |e.mutations| ==> e.mutations[i] in e.mutations;
    }
  }

  lemma PaintKeepsStroke<R(!new)>(base: Tiles<R>, d: Document<R>, point: Point, result: R)
    requires d.active.Some? && StrokeFits(base, d.tiles, d.active.value) && Target(d, point) in d.tiles
    ensures var d' := Paint(d, point, result);
            d'.active.Some? && StrokeFits(base, d'.tiles, d'.active.value)
  {
    var s := d.active.value;
    var cell := Target(d, point);
    AppliedAt(base, s.entry, cell);
    if d.tiles[cell] != result {
      OverwriteKeepsIndex(s, point, d.tiles[cell], result);
      if point in s.points {
        AppliedOverwrite(base, s.entry, s.points[point], result);
      } else {
        AppliedExtend(base, s.entry, Mutation(point, d.tiles[cell], result));
      }
    }
  }
}
