/** The editable map: tiles changed in place, with an undo history. Each method does to the document what the operation
    of the same name in Strokes does. */
module MapEditor {
  import opened Wrappers
  import opened Strokes
  import opened EditRuns

  class MapDocument<R(==, !new)> {
    const shape: Shape
    const render: Render<R>
    ghost const origin: Tiles<R>
    var tiles: Tiles<R>
    var revision: nat
    var history: seq<Entry<R>>
    var cursor: nat
    var active: Option<Stroke<R>>

    ghost function View(): Document<R>
      reads this
    {
      Document(tiles, revision, history, cursor, active)
    }

    ghost predicate Valid()
      reads this
    {
      && Filled(shape, origin)
      && Inv(View(), origin)
      && (active.Some? ==> HasLayer(shape, active.value.entry.kind, active.value.entry.layer))
    }

    constructor (shape: Shape, render: Render<R>, tiles: Tiles<R>)
      requires Filled(shape, tiles)
      ensures Valid() && View() == Open(tiles) && origin == tiles
      ensures this.shape == shape && this.render == render
    {
      this.shape, this.render, this.origin := shape, render, tiles;
      this.tiles, revision, history, cursor, active := tiles, 1, [], 0, None;
    }

    // ---- Strokes ----

    method BeginStroke(kind: LayerKind, layer: int, brush: Brush) returns (error: Option<StrokeError>)
      requires Valid()
      modifies this
      ensures Valid() && error == BeginError(old(View()), shape, kind, layer, brush)
      ensures View() == if error.Some? then old(View()) else Begin(old(View()), kind, layer)
    {
      if active.Some? {
        return Some(StrokeActive);
      }
      if !HasLayer(shape, kind, layer) {
        return Some(BadLayer);
      }
      if !brush.empty && (brush.identity.style > 0x3f || brush.identity.sequence > 0x3f) {
        return Some(BadIdentity);
      }
      active := Some(Stroke(Entry(kind, layer, []), map[]));
      error := None;
    }

    method PaintAt(point: Point, brush: Brush) returns (r: Result<bool, StrokeError>)
      requires Valid()
      modifies this
      ensures Valid()
      ensures r.Err? <==> PaintError(old(View()), shape, point).Some?
      ensures r.Err? ==> PaintError(old(View()), shape, point) == Some(r.error) && View() == old(View())
      ensures r.Ok? ==> old(active).Some? && Target(old(View()), point) in old(tiles)
      ensures r.Ok? ==> View() == Paint(old(View()), point, render(old(active).value.entry.kind, brush))
      ensures r.Ok? ==> r.value == (tiles != old(tiles))
    {
      hide Inv;
      if active.None? {
        return Err(NoStroke);
      }
      if !InBounds(shape, point) {
        return Err(OutOfBounds);
      }
      TilesAreFilled(View(), origin);
      OpKeepsInv(View(), origin, shape, render, EditRuns.PaintAt(point, brush));
      var stroke := active.value;
      var entry := stroke.entry;
      var cell := Cell(entry.kind, entry.layer, point);
      var before := tiles[cell];
      var after := render(entry.kind, brush);
      if before == after {
        return Ok(false);
      }
      tiles := tiles[cell := after];
      active := Some(Recorded(stroke, point, before, after));
      revision := revision + 1;
      r := Ok(true);
    }

    method EndStrokePoints() returns (points: seq<Point>)
      requires Valid()
      modifies this
      ensures Valid() && View() == (if old(active).Some? then End(old(View())) else old(View()))
      ensures points == if old(active).Some? then Points(old(active).value.entry) else []
    {
      InvBounds(View(), origin);
      EndKeepsInv(View(), origin);
      hide Inv;
      if active.None? {
        return [];
      }
      var stroke := active.value;
      active := None;
      points := Points(stroke.entry);
      if stroke.entry.mutations == [] {
        return;
      }
      history := history[..cursor] + [stroke.entry];
      cursor := |history|;
    }

    method CancelStroke() returns (changed: bool)
      requires Valid()
      modifies this
      ensures Valid() && View() == Cancel(old(View()))
      ensures changed <==> old(active).Some? && old(active).value.entry.mutations != []
    {
      CancelRestores(View(), origin);
      hide Inv;
      if active.None? {
        return false;
      }
      var entry := active.value.entry;
      RevertEntry(entry);
      changed := |entry.mutations| > 0;
      active := None;
      if changed {
        revision := revision + 1;
      }
    }

    // ---- History ----

    method UndoPoints() returns (points: seq<Point>)
      requires Valid()
      modifies this
      ensures Valid() && View() == Undo(old(View()))
      ensures points == if CanUndo(old(View())) then Points(old(history)[old(cursor) - 1]) else []
      ensures points != [] <==> CanUndo(old(View()))
    {
      InvBounds(View(), origin);
      UndoKeepsInv(View(), origin);
      hide Inv;
      if active.Some? || cursor == 0 {
        return [];
      }
      cursor := cursor - 1;
      var entry := history[cursor];
      RevertEntry(entry);
      revision := revision + 1;
      points := Points(entry);
    }

    method RedoPoints() returns (points: seq<Point>)
      requires Valid()
      modifies this
      ensures Valid() && View() == Redo(old(View()))
      ensures points == if CanRedo(old(View())) then Points(old(history)[old(cursor)]) else []
      ensures points != [] <==> CanRedo(old(View()))
    {
      InvBounds(View(), origin);
      OpKeepsInv(View(), origin, shape, render, RedoStroke);
      hide Inv;
      if active.Some? || cursor >= |history| {
        return [];
      }
      var entry := history[cursor];
      var index := 0;
      while index < |entry.mutations|
        invariant 0 <= index <= |entry.mutations|
        invariant tiles == Applied(old(tiles), entry.(mutations := entry.mutations[..index]))
        invariant unchanged(this`revision) && unchanged(this`history)
        invariant unchanged(this`cursor) && unchanged(this`active)
      {
        ApplyMutation(entry, entry.mutations[index], true);
        assert entry.mutations[..index + 1][..index] == entry.mutations[..index];
        index := index + 1;
      }
      assert entry.mutations[..index] == entry.mutations;
      cursor := cursor + 1;
      revision := revision + 1;
      points := Points(entry);
    }

    /** Writes one side of a recorded edit back. */
    method ApplyMutation(entry: Entry<R>, m: Mutation<R>, forward: bool)
      modifies this`tiles
      ensures tiles == old(tiles)[CellOf(entry, m) := if forward then m.after else m.before]
    {
      if forward {
        tiles := tiles[CellOf(entry, m) := m.after];
      } else {
        tiles := tiles[CellOf(entry, m) := m.before];
      }
    }

    /** Puts the originals of an entry back, last one first. */
    method RevertEntry(entry: Entry<R>)
      modifies this`tiles
      ensures tiles == Reverted(old(tiles), entry)
    {
      var index := |entry.mutations|;
      assert entry.(mutations := entry.mutations[..index]) == entry;
      while index > 0
        invariant 0 <= index <= |entry.mutations|
        invariant Reverted(tiles, entry.(mutations := entry.mutations[..index])) == Reverted(old(tiles), entry)
      {
        index := index - 1;
        assert entry.mutations[..index + 1][..index] == entry.mutations[..index];
        ApplyMutation(entry, entry.mutations[index], false);
      }
    }
  }

  lemma InvBounds<R(!new)>(d: Document<R>, origin: Tiles<R>)
    requires Inv(d, origin)
    ensures d.cursor <= |d.history| && forall n :: 0 <= n < |d.history| ==> d.history[n].mutations != []
  {
    forall n | 0 <= n < |d.history| ensures d.history[n].mutations != [] {
      assert FitsAt(origin, d.history, n);
    }
  }

  lemma {:induction false} ReplayKeys<R(!new)>(origin: Tiles<R>, history: seq<Entry<R>>, n: nat)
    requires HistoryFits(origin, history) && n <= |history|
    ensures Replay(origin, history, n).Keys == origin.Keys
  {
    if n > 0 {
      ReplayKeys(origin, history, n - 1);
      assert FitsAt(origin, history, n - 1);
      AppliedAt(Replay(origin, history, n - 1), history[n - 1], Cell(Floor, 0, Point(0, 0)));
    }
  }

  /** Editing never adds or loses a cell. */
  lemma TilesAreFilled<R(!new)>(d: Document<R>, origin: Tiles<R>)
    requires Inv(d, origin)
    ensures d.tiles.Keys == origin.Keys
  {
    ReplayKeys(origin, d.history, d.cursor);
    if d.active.Some? {
      AppliedAt(Replay(origin, d.history, d.cursor), d.active.value.entry, Cell(Floor, 0, Point(0, 0)));
    }
  }
}
