/** The presentation buffer as it is built: a bounded, sorted history searched by halving. Each method does what the
    function in Snapshots says. */
module PresentationBuffers {
  import opened Wrappers
  import opened Corrections
  import opened Snapshots

  class PresentationBuffer<D> {
    var revision: nat
    var snapshots: seq<Snap<D>>

    ghost function Contents(): Buffer<D>
      reads this
    {
      Buffer(revision, snapshots)
    }

    ghost predicate Valid()
      reads this
    {
      Snapshots.Inv(Contents())
    }

    constructor ()
      ensures Valid() && Contents() == Buffer(0, [])
    {
      revision, snapshots := 0, [];
    }

    // ---- Storing ----

    method PushWorld(w: World<D>) returns (stored: bool)
      requires Valid()
      modifies this
      ensures Valid() && Contents() == Push(old(Contents()), w) && stored == Newer(old(Contents()), w)
    {
      if |snapshots| > 0 && w.tick <= snapshots[|snapshots| - 1].tick {
        return false;
      }
      AppendWorld(w);
      stored := true;
    }

    method UpsertWorld(w: World<D>) returns (stored: bool)
      requires Valid()
      modifies this
      ensures Valid() && Contents() == Upsert(old(Contents()), w) && stored == (revision != old(revision))
    {
      StoreKeepsInv(Contents(), w);
      hide Snapshots.Inv;
      if |snapshots| == 0 || w.tick > snapshots[|snapshots| - 1].tick {
        AppendWorld(w);
        return true;
      }
      if w.tick < snapshots[|snapshots| - 1].tick {
        return false;
      }
      revision := revision + 1;
      var snap := Snapshot(w);
      snapshots := snapshots[|snapshots| - 1 := snap];
      stored := true;
    }

    method AppendWorld(w: World<D>)
      requires Valid() && Newer(Contents(), w)
      modifies this
      ensures Valid() && Contents() == Append(old(Contents()), w)
    {
      AppendKeepsInv(Contents(), w);
      hide Snapshots.Inv;
      revision := revision + 1;
      var snap := Snapshot(w);
      snapshots := snapshots + [snap];
      if |snapshots| > CAPACITY {
        snapshots := snapshots[|snapshots| - CAPACITY..];
      }
    }

    method Snapshot(w: World<D>) returns (snap: Snap<D>)
      ensures snap == Snap(w.tick, revision, ById(w.entities))
    {
      var entities: map<string, Entity<D>> := map[];
      for k := 0 to |w.entities|
        invariant entities == ById(w.entities[..k])
      {
        assert w.entities[..k + 1][..k] == w.entities[..k];
        entities := entities[w.entities[k].id := w.entities[k]];
      }
      assert w.entities[..|w.entities|] == w.entities;
      snap := Snap(w.tick, revision, entities);
    }

    // ---- Sampling ----

    /** The first snapshot after a render tick, found by halving. */
    method FirstAfter(at: real) returns (upper: nat)
      requires Valid()
      ensures upper == Upper(snapshots, at)
    {
      var low, high := 0, |snapshots|;
      while low < high
        invariant low <= high <= |snapshots|
        invariant forall k :: 0 <= k < low ==> snapshots[k].tick as real <= at
        invariant forall k :: high <= k < |snapshots| ==> snapshots[k].tick as real > at
      {
        var middle := (low + high) / 2;
        if snapshots[middle].tick as real > at {
          assert forall k :: middle < k < |snapshots| ==> snapshots[middle].tick < snapshots[k].tick;
          high := middle;
        } else {
          assert forall k :: 0 <= k < middle ==> snapshots[k].tick < snapshots[middle].tick;
          low := middle + 1;
        }
      }
      upper := low;
      var u := Upper(snapshots, at);
      assert u > 0 ==> snapshots[u - 1].tick as real <= at;
      assert u < |snapshots| ==> snapshots[u].tick as real > at;
    }

    method SampleAt(m: Moment) returns (sample: Option<Sampled<D>>)
      requires Valid()
      ensures sample == Sample(Contents(), m)
    {
      hide Upper, BlendAll, LeadAll, Stamped;
      if |snapshots| == 0 {
        return None;
      }
      var at := RenderTick(m);
      var upper := FirstAfter(at);
      if upper == 0 {
        return Some(Exactly(m, snapshots[0]));
      }
      if upper < |snapshots| {
        var lower, next := snapshots[upper - 1], snapshots[upper];
        var entities := SampleBetween(lower, next, Fraction(lower, next, at));
        return Some(Sampled(m, lower.tick, lower.revision, entities, false));
      }
      var latest := snapshots[|snapshots| - 1];
      if |snapshots| == 1 || at <= latest.tick as real {
        return Some(Exactly(m, latest));
      }
      var previous := snapshots[|snapshots| - 2];
      var ahead := Ahead(latest, at);
      var entities := ExtrapolateSnapshot(previous, latest, ahead);
      sample := Some(Sampled(m, latest.tick, latest.revision, entities, ahead > 0.0));
    }

    /** Visits the entities in any order. */
    method SampleBetween(lower: Snap<D>, upper: Snap<D>, alpha: real) returns (entities: map<string, Entity<D>>)
      ensures entities == BlendAll(lower, upper, alpha)
    {
      entities := map[];
      var pending := lower.entities.Keys;
      while pending != {}
        invariant pending <= lower.entities.Keys && entities.Keys == lower.entities.Keys - pending
        invariant forall id :: id in entities ==> entities[id] == Blend(lower.entities[id], upper.entities, id, alpha)
      {
        var id :| id in pending;
        pending := pending - {id};
        var value := lower.entities[id];
        if id in upper.entities {
          var p, q := value.motion.position, upper.entities[id].motion.position;
          value := Moved(value, Position(Slide(p.x, q.x, alpha), Slide(p.y, q.y, alpha)));
        }
        entities := entities[id := value];
      }
    }

    method ExtrapolateSnapshot(previous: Snap<D>, latest: Snap<D>, ahead: real)
      returns (entities: map<string, Entity<D>>)
      requires previous.tick < latest.tick
      ensures entities == LeadAll(previous, latest, ahead)
    {
      var span := (latest.tick - previous.tick) as real;
      entities := map[];
      var pending := latest.entities.Keys;
      while pending != {}
        invariant pending <= latest.entities.Keys && entities.Keys == latest.entities.Keys - pending
        invariant forall id :: id in entities ==>
                    entities[id] == Lead(latest.entities[id], previous.entities, id, ahead, span)
      {
        var id :| id in pending;
        pending := pending - {id};
        var value := latest.entities[id];
        if id in previous.entities && span > 0.0 {
          var p, q := previous.entities[id].motion.position, value.motion.position;
          value := Moved(value, Position(Project(p.x, q.x, ahead, span), Project(p.y, q.y, ahead, span)));
        }
        entities := entities[id := value];
      }
    }
  }
}
