/** The client session's presentation state as it is built: fields replaced under a lock, collections updated through
    hash and identity tables. Each method does what the function in Corrections says. */
module ClientSessions {
  import opened Wrappers
  import opened Corrections

  class Session<D(!new)> {
    const hash: Hash
    var tick: nat
    var checksum: string
    var reliableHud: Hud<D>
    var reliable: World<D>
    var hud: Hud<D>
    var world: World<D>
    var revision: nat

    ghost function Presented(): Client<D>
      reads this
    {
      Client(tick, checksum, reliableHud, reliable, hud, world, revision)
    }

    ghost predicate Valid()
      reads this
    {
      Inv(Presented())
    }

    constructor (hash: Hash, tick: nat, checksum: string, v: View<D>)
      requires v.hud.tick == tick && v.world.tick == tick && IdsApart(v.world)
      ensures Valid() && Presented() == Installed(tick, checksum, v, 1) && this.hash == hash
    {
      InstalledIsOk(tick, checksum, v, 1);
      this.hash, this.tick, this.checksum := hash, tick, checksum;
      hud, world, reliableHud, reliable, revision := v.hud, v.world, v.hud, v.world, 1;
    }

    // ---- Reliable corrections ----

    method ApplyCorrection(s: Snapshot<D>) returns (error: Option<CorrectionError>)
      requires Valid()
      modifies this
      ensures Valid() && Presented() == Correct(old(Presented()), s)
      ensures error == CorrectionRefused(old(Presented()), s)
    {
      CorrectKeepsInv(Presented(), s);
      hide Inv;
      var decoded := Decoded(s);
      if decoded.None? {
        return Some(BadView);
      }
      var view := decoded.value;
      if s.tick < tick || (s.tick == tick && s.checksum != checksum) {
        return Some(Stale);
      }
      if !SameOwner(reliableHud.owner, view.hud.owner) {
        return Some(WrongOwner);
      }
      tick, checksum := s.tick, s.checksum;
      reliableHud := view.hud;
      reliable := view.world;
      hud, world := MergeReliablePresentation(view.hud, view.world, hud, world);
      revision := revision + 1;
      error := None;
    }

    method MergeReliablePresentation(reliableHud: Hud<D>, reliable: World<D>, hud: Hud<D>, world: World<D>)
      returns (hud': Hud<D>, world': World<D>)
      ensures hud' == MergedHud(reliableHud, hud, reliable, world) && world' == MergedWorld(reliable, world)
    {
      if world.tick <= reliable.tick {
        return reliableHud, reliable;
      }
      var entities := MergeEntityTransforms(reliable.entities, world.entities);
      var missiles := MergeMissileTransforms(reliable.missiles, world.missiles);
      world' := World(world.tick, world.origin, entities, missiles);
      hud' := reliableHud.(tick := hud.tick, motion := hud.motion, velocity := hud.velocity);
    }

    method MergeEntityTransforms(reliable: seq<Entity<D>>, current: seq<Entity<D>>) returns (merged: seq<Entity<D>>)
      ensures merged == MergedEntities(reliable, current)
    {
      var transforms: map<string, Entity<D>> := map[];
      for k := 0 to |current|
        invariant forall id: string :: LastEntity(current[..k], id) ==
                    if id in transforms then Some(transforms[id]) else None
      {
        assert current[..k + 1][..k] == current[..k];
        transforms := transforms[current[k].id := current[k]];
      }
      assert current[..|current|] == current;
      merged := reliable;
      for index := 0 to |merged|
        invariant |merged| == |reliable|
        invariant forall i :: 0 <= i < |reliable| ==>
                    merged[i] == if i < index then WithMotion(reliable[i], current) else reliable[i]
      {
        if merged[index].id in transforms {
          merged := merged[index := merged[index].(motion := transforms[merged[index].id].motion)];
        }
      }
    }

    method MergeMissileTransforms(reliable: seq<Missile<D>>, current: seq<Missile<D>>) returns (merged: seq<Missile<D>>)
      ensures merged == MergedMissiles(reliable, current)
    {
      var positions: map<string, Position> := map[];
      for k := 0 to |current|
        invariant forall id: string :: (id in positions <==> LastMissile(current[..k], id).Some?)
                    && (id in positions ==> positions[id] == LastMissile(current[..k], id).value.position)
      {
        assert current[..k + 1][..k] == current[..k];
        positions := positions[current[k].id := current[k].position];
      }
      assert current[..|current|] == current;
      merged := reliable;
      for index := 0 to |merged|
        invariant |merged| == |reliable|
        invariant forall i :: 0 <= i < |reliable| ==>
                    merged[i] == if i < index then WithPosition(reliable[i], current) else reliable[i]
      {
        if merged[index].id in positions {
          merged := merged[index := merged[index].(position := positions[merged[index].id])];
        }
      }
    }

    // ---- Transform frames ----

    method ApplyTransform(f: Frame) returns (error: Option<CorrectionError>)
      requires Valid()
      modifies this
      ensures Valid() && Presented() == Move(old(Presented()), hash, f)
      ensures error == if FrameRefused(old(Presented()), hash, f) then Some(HashCollision) else None
    {
      MoveKeepsInv(Presented(), hash, f);
      hide Inv;
      if f.tick <= world.tick {
        return None;
      }
      var indexes := TransformIndexes(world);
      if indexes.None? {
        return Some(HashCollision);
      }
      var moved := ApplyFrameTransforms(world, f, indexes.value.0, indexes.value.1);
      hud, world := MovedHud(hud, f), moved;
      revision := revision + 1;
      error := None;
    }

    /** Fails exactly when two presented things share a hash. */
    method TransformIndexes(w: World<D>) returns (r: Option<(map<nat, nat>, map<nat, nat>)>)
      ensures r.Some? <==> HashesApart(w, hash)
      ensures r.Some? ==> IndexesEntities(w, hash, |w.entities|, r.value.0)
      ensures r.Some? ==> IndexesMissiles(w, hash, |w.missiles|, r.value.1)
    {
      var entities: map<nat, nat> := map[];
      for k := 0 to |w.entities|
        invariant IndexesEntities(w, hash, k, entities)
      {
        var h := hash(w.entities[k].id);
        if h in entities {
          assert hash(w.entities[entities[h]].id) == hash(w.entities[k].id);
          return None;
        }
        entities := entities[h := k];
      }
      var missiles: map<nat, nat> := map[];
      for k := 0 to |w.missiles|
        invariant IndexesMissiles(w, hash, k, missiles)
        invariant entities.Keys !! missiles.Keys
      {
        var h := hash(w.missiles[k].id);
        if h in entities {
          assert hash(w.entities[entities[h]].id) == hash(w.missiles[k].id);
          return None;
        }
        if h in missiles {
          assert hash(w.missiles[missiles[h]].id) == hash(w.missiles[k].id);
          return None;
        }
        missiles := missiles[h := k];
      }
      IndexedIsApart(w, hash, entities, missiles);
      r := Some((entities, missiles));
    }

    method ApplyFrameTransforms(w: World<D>, f: Frame, entities: map<nat, nat>, missiles: map<nat, nat>)
      returns (moved: World<D>)
      requires HashesApart(w, hash)
      requires IndexesEntities(w, hash, |w.entities|, entities) && IndexesMissiles(w, hash, |w.missiles|, missiles)
      ensures moved == MovedWorld(w, hash, f)
    {
      hide HashesApart, IndexesEntities, IndexesMissiles;
      var es, ms := w.entities, w.missiles;
      assert es == MovedEntities(w.entities, hash, []) && ms == MovedMissiles(w.missiles, hash, []);
      for k := 0 to |f.transforms|
        invariant es == MovedEntities(w.entities, hash, f.transforms[..k])
        invariant ms == MovedMissiles(w.missiles, hash, f.transforms[..k])
      {
        var t := f.transforms[k];
        assert f.transforms[..k + 1] == f.transforms[..k] + [t];
        StepEntities(w, hash, f.transforms[..k], t, entities);
        StepMissiles(w, hash, f.transforms[..k], t, missiles);
        Disjoint(w, hash, entities, missiles);
        if t.idHash in entities {
          var i := entities[t.idHash];
          es := es[i := es[i].(motion := Trimmed(t.motion))];
          continue;
        }
        if t.idHash in missiles {
          var i := missiles[t.idHash];
          ms := ms[i := ms[i].(position := t.motion.position)];
        }
      }
      assert f.transforms[..|f.transforms|] == f.transforms;
      moved := World(f.tick, f.owner.position, es, ms);
    }
  }

  /** A table from hash to position, filled up to `n`. */
  ghost predicate IndexesEntities<D>(w: World<D>, hash: Hash, n: nat, table: map<nat, nat>) {
    && n <= |w.entities|
    && (forall i :: 0 <= i < n ==> hash(w.entities[i].id) in table && table[hash(w.entities[i].id)] == i)
    && (forall h :: h in table ==> table[h] < n && hash(w.entities[table[h]].id) == h)
  }

  ghost predicate IndexesMissiles<D>(w: World<D>, hash: Hash, n: nat, table: map<nat, nat>) {
    && n <= |w.missiles|
    && (forall i :: 0 <= i < n ==> hash(w.missiles[i].id) in table && table[hash(w.missiles[i].id)] == i)
    && (forall h :: h in table ==> table[h] < n && hash(w.missiles[table[h]].id) == h)
  }

  lemma IndexedIsApart<D>(w: World<D>, hash: Hash, entities: map<nat, nat>, missiles: map<nat, nat>)
    requires IndexesEntities(w, hash, |w.entities|, entities) && IndexesMissiles(w, hash, |w.missiles|, missiles)
    requires entities.Keys !! missiles.Keys
    ensures HashesApart(w, hash)
  {
    forall i, j | 0 <= i < |w.entities| && 0 <= j < |w.missiles|
      ensures hash(w.entities[i].id) != hash(w.missiles[j].id)
    {
      assert hash(w.entities[i].id) in entities.Keys && hash(w.missiles[j].id) in missiles.Keys;
    }
  }

  lemma Disjoint<D>(w: World<D>, hash: Hash, entities: map<nat, nat>, missiles: map<nat, nat>)
    requires IndexesEntities(w, hash, |w.entities|, entities) && IndexesMissiles(w, hash, |w.missiles|, missiles)
    requires HashesApart(w, hash)
    ensures forall h :: h in entities ==> h !in missiles && entities[h] < |w.entities|
    ensures forall h :: h in missiles ==> missiles[h] < |w.missiles|
  {
    forall h, h' | h in entities && h' in missiles ensures h != h' {
      assert hash(w.entities[entities[h]].id) != hash(w.missiles[missiles[h']].id);
    }
  }

  lemma StepEntities<D>(w: World<D>, hash: Hash, ts: seq<Transform>, t: Transform, table: map<nat, nat>)
    requires HashesApart(w, hash) && IndexesEntities(w, hash, |w.entities|, table)
    ensures var es := MovedEntities(w.entities, hash, ts);
            MovedEntities(w.entities, hash, ts + [t]) ==
            if t.idHash in table then es[table[t.idHash] := es[table[t.idHash]].(motion := Trimmed(t.motion))] else es
  {
    assert (ts + [t])[..|ts|] == ts;
  }

  lemma StepMissiles<D>(w: World<D>, hash: Hash, ts: seq<Transform>, t: Transform, table: map<nat, nat>)
    requires HashesApart(w, hash) && IndexesMissiles(w, hash, |w.missiles|, table)
    ensures var ms := MovedMissiles(w.missiles, hash, ts);
            MovedMissiles(w.missiles, hash, ts + [t]) ==
            if t.idHash in table then ms[table[t.idHash] := ms[table[t.idHash]].(position := t.motion.position)] else ms
  {
    assert (ts + [t])[..|ts|] == ts;
  }
}
