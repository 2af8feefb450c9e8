/** The bounded history of world snapshots a client renders from, as values, and what any two samples of it have in
    common. Entities are those of Corrections. */
module Snapshots {
  import opened Wrappers
  import opened Corrections

  const CAPACITY: nat := 32
  const MAX_AHEAD: real := 2.5

  datatype Snap<D> = Snap(tick: nat, revision: nat, entities: map<string, Entity<D>>)

  datatype Buffer<D> = Buffer(revision: nat, snapshots: seq<Snap<D>>)

  /** A tick and the progress towards the next. */
  datatype Moment = Moment(tick: nat, fraction: real)

  /** `tick` and `revision` are those of the snapshot that owns everything but positions. */
  datatype Sampled<D> = Sampled(moment: Moment, tick: nat, revision: nat, entities: map<string, Entity<D>>,
                                extrapolated: bool)

  // ---- Storing ----

  /** Entities by identity; of several with one identity the last. */
  function ById<D>(entities: seq<Entity<D>>): map<string, Entity<D>> {
    if entities == [] then map[]
    else
      var e := entities[|entities| - 1];
      ById(entities[..|entities| - 1])[e.id := e]
  }

  function Newest<D>(snapshots: seq<Snap<D>>): seq<Snap<D>> {
    if |snapshots| > CAPACITY then snapshots[|snapshots| - CAPACITY..] else snapshots
  }

  function Append<D>(b: Buffer<D>, w: World<D>): Buffer<D> {
    Buffer(b.revision + 1, Newest(b.snapshots + [Snap(w.tick, b.revision + 1, ById(w.entities))]))
  }

  predicate Newer<D>(b: Buffer<D>, w: World<D>) {
    b.snapshots == [] || w.tick > b.snapshots[|b.snapshots| - 1].tick
  }

  function Push<D>(b: Buffer<D>, w: World<D>): Buffer<D> {
    if Newer(b, w) then Append(b, w) else b
  }

  /** A world of the newest tick replaces that snapshot under a new revision; an older one is ignored. */
  function Upsert<D>(b: Buffer<D>, w: World<D>): Buffer<D> {
    if Newer(b, w) then Append(b, w)
    else if w.tick < b.snapshots[|b.snapshots| - 1].tick then b
    else Buffer(b.revision + 1, b.snapshots[|b.snapshots| - 1 := Snap(w.tick, b.revision + 1, ById(w.entities))])
  }

  // ---- Sampling ----

  function RenderTick(m: Moment): real {
    m.tick as real + m.fraction
  }

  /** How many snapshots are not after a render tick. */
  function Upper<D>(snapshots: seq<Snap<D>>, at: real): (u: nat)
    ensures u <= |snapshots|
    ensures u > 0 ==> snapshots[u - 1].tick as real <= at
    ensures forall k :: u <= k < |snapshots| ==> snapshots[k].tick as real > at
  {
    if snapshots == [] || snapshots[|snapshots| - 1].tick as real <= at then |snapshots|
    else Upper(snapshots[..|snapshots| - 1], at)
  }

  /** From `a` towards `b`. */
  function Slide(a: real, b: real, amount: real): real {
    a + Times(b - a, amount)
  }

  function Times(distance: real, k: real): real {
    distance * k
  }

  /** Past `b`, `ahead` ticks at the speed that led from `a` to `b` in `span` ticks. */
  function Project(a: real, b: real, ahead: real, span: real): real
    requires span != 0.0
  {
    b + Times(b - a, ahead) / span
  }

  function Moved<D>(e: Entity<D>, p: Position): Entity<D> {
    e.(motion := e.motion.(position := p))
  }

  function Blend<D>(e: Entity<D>, upper: map<string, Entity<D>>, id: string, amount: real): Entity<D> {
    if id !in upper then e
    else
      var p, q := e.motion.position, upper[id].motion.position;
      Moved(e, Position(Slide(p.x, q.x, amount), Slide(p.y, q.y, amount)))
  }

  function BlendAll<D>(lower: Snap<D>, upper: Snap<D>, amount: real): map<string, Entity<D>> {
    map id | id in lower.entities :: Blend(lower.entities[id], upper.entities, id, amount)
  }

  function Lead<D>(e: Entity<D>, previous: map<string, Entity<D>>, id: string, ahead: real, span: real): Entity<D> {
    if id !in previous || span <= 0.0 then e
    else
      var p, q := previous[id].motion.position, e.motion.position;
      Moved(e, Position(Project(p.x, q.x, ahead, span), Project(p.y, q.y, ahead, span)))
  }

  function LeadAll<D>(previous: Snap<D>, latest: Snap<D>, ahead: real): map<string, Entity<D>> {
    map id | id in latest.entities ::
      Lead(latest.entities[id], previous.entities, id, ahead, (latest.tick - previous.tick) as real)
  }

  function Exactly<D>(m: Moment, s: Snap<D>): Sampled<D> {
    Sampled(m, s.tick, s.revision, s.entities, false)
  }

  function Fraction<D>(lower: Snap<D>, upper: Snap<D>, at: real): real
    requires lower.tick < upper.tick
  {
    (at - lower.tick as real) / (upper.tick - lower.tick) as real
  }

  function Ahead<D>(latest: Snap<D>, at: real): real {
    if at - latest.tick as real <= MAX_AHEAD then at - latest.tick as real else MAX_AHEAD
  }

  function Sample<D>(b: Buffer<D>, m: Moment): Option<Sampled<D>>
    requires Inv(b)
  {
    var s, at := b.snapshots, RenderTick(m);
    if s == [] then None
    else
      var u := Upper(s, at);
      if u == 0 then Some(Exactly(m, s[0]))
      else if u < |s| then
        var lower, upper := s[u - 1], s[u];
        Some(Sampled(m, lower.tick, lower.revision, BlendAll(lower, upper, Fraction(lower, upper, at)), false))
      else
        var latest := s[|s| - 1];
        if |s| == 1 || at <= latest.tick as real then Some(Exactly(m, latest))
        else
          var ahead := Ahead(latest, at);
          Some(Sampled(m, latest.tick, latest.revision, LeadAll(s[|s| - 2], latest, ahead), ahead > 0.0))
  }

  // ---- What every buffer keeps ----

  predicate Sorted<D>(snapshots: seq<Snap<D>>) {
    forall i, j :: 0 <= i < j < |snapshots| ==>
      snapshots[i].tick < snapshots[j].tick && snapshots[i].revision < snapshots[j].revision
  }

  predicate Keyed<D>(entities: map<string, Entity<D>>) {
    forall id :: id in entities ==> entities[id].id == id
  }

  predicate Stamped<D>(snapshots: seq<Snap<D>>, revision: nat) {
    forall i :: 0 <= i < |snapshots| ==> snapshots[i].revision <= revision && Keyed(snapshots[i].entities)
  }

  predicate Inv<D>(b: Buffer<D>) {
    && |b.snapshots| <= CAPACITY && Sorted(b.snapshots)
    && Stamped(b.snapshots, b.revision)
  }

  lemma {:induction false} ByIdIsKeyed<D>(entities: seq<Entity<D>>)
    ensures Keyed(ById(entities))
  {
    if entities != [] {
      ByIdIsKeyed(entities[..|entities| - 1]);
    }
  }

  /** Storing drops no identity and makes none up. */
  lemma {:induction false} ByIdIsComplete<D>(entities: seq<Entity<D>>, id: string)
    ensures id in ById(entities) <==> LastEntity(entities, id).Some?
    ensures id in ById(entities) ==> ById(entities)[id] == LastEntity(entities, id).value
  {
    if entities != [] {
      ByIdIsComplete(entities[..|entities| - 1], id);
    }
  }

  lemma SortedAppend<D>(s: seq<Snap<D>>, x: Snap<D>)
    requires Sorted(s) && (s != [] ==> s[|s| - 1].tick < x.tick && s[|s| - 1].revision < x.revision)
    ensures Sorted(s + [x])
  {
    var g := s + [x];
    forall i, j | 0 <= i < j < |g| ensures g[i].tick < g[j].tick && g[i].revision < g[j].revision {
      assert j < |s| || i == |s| - 1 || s[i].tick < s[|s| - 1].tick;
    }
  }

  lemma NewestKeeps<D>(s: seq<Snap<D>>, revision: nat)
    requires Sorted(s) && Stamped(s, revision)
    ensures Sorted(Newest(s)) && |Newest(s)| <= CAPACITY && Stamped(Newest(s), revision)
  {
  }

  lemma StampedAppend<D>(s: seq<Snap<D>>, x: Snap<D>, revision: nat)
    requires Stamped(s, revision) && x.revision == revision + 1 && Keyed(x.entities)
    ensures s != [] ==> s[|s| - 1].revision <= revision
    ensures Stamped(s + [x], revision + 1)
  {
    hide Keyed;
  }

  lemma AppendKeepsInv<D>(b: Buffer<D>, w: World<D>)
    requires Inv(b) && Newer(b, w)
    ensures Inv(Append(b, w))
  {
    hide ById, Keyed, Sorted, Newest, Stamped;
    ByIdIsKeyed(w.entities);
    var x := Snap(w.tick, b.revision + 1, ById(w.entities));
    StampedAppend(b.snapshots, x, b.revision);
    SortedAppend(b.snapshots, x);
    NewestKeeps(b.snapshots + [x], b.revision + 1);
  }

  lemma StoreKeepsInv<D>(b: Buffer<D>, w: World<D>)
    requires Inv(b)
    ensures Inv(Push(b, w)) && Inv(Upsert(b, w))
  {
    ByIdIsKeyed(w.entities);
    if Newer(b, w) {
      AppendKeepsInv(b, w);
    }
  }

  // ---- What two samples have in common ----

  /** The snapshot a sample takes everything but positions from. */
  function Discrete<D>(snapshots: seq<Snap<D>>, at: real): Snap<D>
    requires snapshots != []
  {
    var u := Upper(snapshots, at);
    if u == 0 then snapshots[0] else snapshots[u - 1]
  }

  predicate NotAfter<D>(a: Snap<D>, b: Snap<D>) {
    a.tick <= b.tick && a.revision <= b.revision
  }

  lemma SampleIsDiscrete<D>(b: Buffer<D>, m: Moment)
    requires Inv(b)
    ensures Sample(b, m).None? <==> b.snapshots == []
    ensures b.snapshots != [] ==>
              var d := Discrete(b.snapshots, RenderTick(m));
              && Sample(b, m).value.tick == d.tick && Sample(b, m).value.revision == d.revision
              && Sample(b, m).value.entities.Keys == d.entities.Keys
  {
  }

  lemma LaterIsNotEarlier<D>(s: seq<Snap<D>>, at: real, at': real)
    requires s != [] && Sorted(s) && at <= at'
    ensures NotAfter(Discrete(s, at), Discrete(s, at'))
  {
    var u, u' := Upper(s, at), Upper(s, at');
    assert u > 0 ==> u' >= u;
  }

  lemma GrownIsNotEarlier<D>(s: seq<Snap<D>>, x: Snap<D>, at: real)
    requires s != [] && Sorted(s + [x])
    ensures NotAfter(Discrete(s, at), Discrete(s + [x], at))
  {
    var g := s + [x];
    assert g[..|g| - 1] == s;
    var u, v := Upper(s, at), Upper(g, at);
    assert v == if x.tick as real <= at then |g| else u;
    hide Upper;
    if x.tick as real <= at {
      SnapsBefore(g, if u == 0 then 0 else u - 1, |s|);
    } else {
      assert u <= |s| && (if u == 0 then g[0] == s[0] else g[u - 1] == s[u - 1]);
    }
  }

  lemma SnapsBefore<D>(s: seq<Snap<D>>, i: nat, j: nat)
    requires Sorted(s) && i <= j < |s|
    ensures NotAfter(s[i], s[j])
  {
  }

  lemma DroppedIsNotEarlier<D>(s: seq<Snap<D>>, drop: nat, at: real)
    requires Sorted(s) && drop < |s|
    ensures NotAfter(Discrete(s, at), Discrete(s[drop..], at))
  {
    var t := s[drop..];
    var u, v := Upper(s, at), Upper(t, at);
    assert forall k :: 0 <= k < |t| ==> t[k] == s[k + drop];
    assert v > 0 ==> u >= v + drop;
    assert u > drop ==> v >= u - drop;
  }

  lemma ReplacedIsNotEarlier<D>(s: seq<Snap<D>>, x: Snap<D>, at: real)
    requires s != [] && Sorted(s) && x.tick == s[|s| - 1].tick && x.revision >= s[|s| - 1].revision
    ensures NotAfter(Discrete(s, at), Discrete(s[|s| - 1 := x], at))
  {
    var t := s[|s| - 1 := x];
    var u, v := Upper(s, at), Upper(t, at);
    assert t[..|t| - 1] == s[..|s| - 1];
    assert u == v;
  }

  datatype Packet<D> = Pushed(world: World<D>) | Upserted(world: World<D>)

  function Store<D>(b: Buffer<D>, p: Packet<D>): Buffer<D> {
    match p
    case Pushed(w) => Push(b, w)
    case Upserted(w) => Upsert(b, w)
  }

  function StoreAll<D>(b: Buffer<D>, ps: seq<Packet<D>>): Buffer<D> {
    if ps == [] then b else Store(StoreAll(b, ps[..|ps| - 1]), ps[|ps| - 1])
  }

  lemma StoredIsNotEarlier<D>(b: Buffer<D>, p: Packet<D>, at: real)
    requires Inv(b) && b.snapshots != []
    ensures Store(b, p).snapshots != [] && NotAfter(Discrete(b.snapshots, at), Discrete(Store(b, p).snapshots, at))
  {
    hide Upper, Discrete;
    var s, x := b.snapshots, Snap(p.world.tick, b.revision + 1, ById(p.world.entities));
    if Newer(b, p.world) {
      GrownIsNotEarlier(s, x, at);
      var grown := s + [x];
      if |grown| > CAPACITY {
        DroppedIsNotEarlier(grown, |grown| - CAPACITY, at);
      }
    } else if p.Upserted? && p.world.tick == s[|s| - 1].tick {
      ReplacedIsNotEarlier(s, x, at);
    }
    LaterIsNotEarlier(s, at, at);
  }

  /** Between two samples at moments in order, whatever packets arrive, stale, repeated or of the same tick: the later
      sample is never of an earlier tick or revision. */
  lemma {:induction false} SamplesNeverGoBack<D>(b: Buffer<D>, ps: seq<Packet<D>>, m: Moment, m': Moment)
    requires Inv(b) && b.snapshots != [] && RenderTick(m) <= RenderTick(m')
    ensures var later := StoreAll(b, ps);
            && Inv(later) && Sample(b, m).Some? && Sample(later, m').Some?
            && Sample(b, m).value.tick <= Sample(later, m').value.tick
            && Sample(b, m).value.revision <= Sample(later, m').value.revision
  {
    var at := RenderTick(m);
    StoreAllIsNotEarlier(b, ps, at);
    hide Sample, Discrete, Upper;
    LaterIsNotEarlier(StoreAll(b, ps).snapshots, at, RenderTick(m'));
    SampleIsDiscrete(b, m);
    SampleIsDiscrete(StoreAll(b, ps), m');
  }

  lemma {:induction false} StoreAllIsNotEarlier<D>(b: Buffer<D>, ps: seq<Packet<D>>, at: real)
    requires Inv(b) && b.snapshots != []
    ensures var later := StoreAll(b, ps);
            Inv(later) && later.snapshots != [] && NotAfter(Discrete(b.snapshots, at), Discrete(later.snapshots, at))
  {
    if ps != [] {
      var before := StoreAll(b, ps[..|ps| - 1]);
      StoreAllIsNotEarlier(b, ps[..|ps| - 1], at);
      StoredIsNotEarlier(before, ps[|ps| - 1], at);
      StoreKeepsInv(before, ps[|ps| - 1].world);
    }
  }

  // ---- Where a sample puts things ----

  predicate Bounds(a: real, v: real, b: real) {
    a <= v <= b || b <= v <= a
  }

  lemma Scaled(distance: real, k: real, most: real)
    requires 0.0 <= k <= most
    ensures distance >= 0.0 ==> 0.0 <= Times(distance, k) <= Times(distance, most)
    ensures distance <= 0.0 ==> Times(distance, most) <= Times(distance, k) <= 0.0
  {
    if distance >= 0.0 {
      assert distance * (most - k) >= 0.0;
    } else {
      assert distance * (most - k) <= 0.0;
    }
  }

  lemma Ratio(part: real, whole: real)
    requires 0.0 <= part < whole
    ensures 0.0 <= part / whole < 1.0
  {
    assert part / whole * whole == part;
  }

  lemma SlideBounds(a: real, b: real, amount: real)
    requires 0.0 <= amount <= 1.0
    ensures Bounds(a, Slide(a, b, amount), b)
  {
    Scaled(b - a, amount, 1.0);
  }

  lemma FractionBounds<D>(lower: Snap<D>, upper: Snap<D>, at: real)
    requires lower.tick < upper.tick && lower.tick as real <= at < upper.tick as real
    ensures 0.0 <= Fraction(lower, upper, at) < 1.0
  {
    Ratio(at - lower.tick as real, (upper.tick - lower.tick) as real);
  }

  /** Between two snapshots every entity of the earlier one is shown, and nothing else; one that is in both stands
      between its two positions, and all that is not its position is the earlier snapshot's. */
  lemma InterpolationStaysBetween<D>(b: Buffer<D>, m: Moment, id: string)
    requires Inv(b)
    requires var u := Upper(b.snapshots, RenderTick(m)); 0 < u < |b.snapshots| && id in b.snapshots[u - 1].entities
    ensures var u := Upper(b.snapshots, RenderTick(m));
            var lower, upper := b.snapshots[u - 1].entities, b.snapshots[u].entities;
            var sample := Sample(b, m).value;
            && !sample.extrapolated && sample.entities.Keys == lower.Keys
            && Moved(sample.entities[id], lower[id].motion.position) == lower[id]
            && (id !in upper ==> sample.entities[id] == lower[id])
            && (id in upper ==>
                  var p, q := lower[id].motion.position, upper[id].motion.position;
                  var shown := sample.entities[id].motion.position;
                  Bounds(p.x, shown.x, q.x) && Bounds(p.y, shown.y, q.y))
  {
    var at := RenderTick(m);
    var u := Upper(b.snapshots, at);
    var lower, upper := b.snapshots[u - 1], b.snapshots[u];
    FractionBounds(lower, upper, at);
    if id in upper.entities {
      var p, q := lower.entities[id].motion.position, upper.entities[id].motion.position;
      SlideBounds(p.x, q.x, Fraction(lower, upper, at));
      SlideBounds(p.y, q.y, Fraction(lower, upper, at));
    }
  }

  /** How far an entity is on its way is how far the render tick is between the two ticks. */
  lemma InterpolationIsLinear<D>(b: Buffer<D>, m: Moment, id: string)
    requires Inv(b)
    requires var u := Upper(b.snapshots, RenderTick(m));
             0 < u < |b.snapshots| && id in b.snapshots[u - 1].entities && id in b.snapshots[u].entities
    ensures var u := Upper(b.snapshots, RenderTick(m));
            var lower, upper := b.snapshots[u - 1], b.snapshots[u];
            var p, q := lower.entities[id].motion.position, upper.entities[id].motion.position;
            var span, passed := (upper.tick - lower.tick) as real, m.tick as real + m.fraction - lower.tick as real;
            id in Sample(b, m).value.entities &&
            var shown := Sample(b, m).value.entities[id].motion.position;
            (shown.x - p.x) * span == (q.x - p.x) * passed && (shown.y - p.y) * span == (q.y - p.y) * passed
  {
    hide Slide, Project, Times, Upper;
    var u := Upper(b.snapshots, RenderTick(m));
    var lower, upper := b.snapshots[u - 1], b.snapshots[u];
    var p, q := lower.entities[id].motion.position, upper.entities[id].motion.position;
    var span, passed := (upper.tick - lower.tick) as real, m.tick as real + m.fraction - lower.tick as real;
    Proportional(p.x, q.x, passed, span);
    Proportional(p.y, q.y, passed, span);
  }

  lemma Proportional(a: real, b: real, passed: real, span: real)
    requires span > 0.0
    ensures (Slide(a, b, passed / span) - a) * span == (b - a) * passed
    ensures (Project(a, b, passed, span) - b) * span == (b - a) * passed
  {
    var d, k := b - a, passed / span;
    assert k * span == passed;
    assert d * k * span == d * passed;
    assert Times(d, passed) / span * span == Times(d, passed);
  }

  /** At the very tick of a snapshot it is shown unchanged. */
  lemma ExactTickIsExact<D>(b: Buffer<D>, m: Moment, k: nat)
    requires Inv(b) && k < |b.snapshots| && RenderTick(m) == b.snapshots[k].tick as real
    ensures Sample(b, m) == Some(Exactly(m, b.snapshots[k]))
  {
    var at, s := RenderTick(m), b.snapshots;
    assert Upper(s, at) == k + 1;
    if k + 1 < |s| {
      assert Fraction(s[k], s[k + 1], at) == 0.0;
      assert forall a, c :: Slide(a, c, 0.0) == a;
      forall id | id in s[k].entities
        ensures Blend(s[k].entities[id], s[k + 1].entities, id, 0.0) == s[k].entities[id]
      {
      }
      assert BlendAll(s[k], s[k + 1], 0.0) == s[k].entities;
    }
  }

  function Distance(a: real, b: real): real {
    if a <= b then b - a else a - b
  }

  lemma ProjectBound(a: real, b: real, ahead: real, span: real)
    requires 0.0 <= ahead <= MAX_AHEAD && span > 0.0
    ensures Bounds(a, b, Project(a, b, ahead, span))
    ensures Distance(b, Project(a, b, ahead, span)) * span <= MAX_AHEAD * Distance(a, b)
  {
    Scaled(b - a, ahead, MAX_AHEAD);
    Quotient(Times(b - a, ahead), span);
  }

  lemma Quotient(x: real, y: real)
    requires y > 0.0
    ensures x / y * y == x && (x >= 0.0 <==> x / y >= 0.0) && (x <= 0.0 <==> x / y <= 0.0)
  {
  }

  /** Past the newest snapshot exactly its entities are shown; one that the snapshot before it has too moves on in the
      same direction by at most two and a half ticks of its last displacement per tick. */
  lemma ExtrapolationIsBounded<D>(b: Buffer<D>, m: Moment, id: string)
    requires Inv(b) && |b.snapshots| > 1
    requires RenderTick(m) > b.snapshots[|b.snapshots| - 1].tick as real
    requires id in b.snapshots[|b.snapshots| - 1].entities
    ensures var n := |b.snapshots|;
            var previous, latest := b.snapshots[n - 2], b.snapshots[n - 1];
            var sample := Sample(b, m).value;
            && sample.extrapolated && sample.tick == latest.tick && sample.entities.Keys == latest.entities.Keys
            && Moved(sample.entities[id], latest.entities[id].motion.position) == latest.entities[id]
            && (id !in previous.entities ==> sample.entities[id] == latest.entities[id])
            && (id in previous.entities ==>
                  var p, q := previous.entities[id].motion.position, latest.entities[id].motion.position;
                  var shown := sample.entities[id].motion.position;
                  var span := (latest.tick - previous.tick) as real;
                  && Bounds(p.x, q.x, shown.x) && Distance(q.x, shown.x) * span <= MAX_AHEAD * Distance(p.x, q.x)
                  && Bounds(p.y, q.y, shown.y) && Distance(q.y, shown.y) * span <= MAX_AHEAD * Distance(p.y, q.y))
  {
    var n, at := |b.snapshots|, RenderTick(m);
    var previous, latest := b.snapshots[n - 2], b.snapshots[n - 1];
    hide Project, Bounds, Distance, Upper, Stamped;
    assert Upper(b.snapshots, at) == n;
    if id in previous.entities {
      var p, q := previous.entities[id].motion.position, latest.entities[id].motion.position;
      ProjectBound(p.x, q.x, Ahead(latest, at), (latest.tick - previous.tick) as real);
      ProjectBound(p.y, q.y, Ahead(latest, at), (latest.tick - previous.tick) as real);
    }
  }

  /** How far past its last position an entity is shown is what its last displacement makes of the ticks ahead, of which
      at most two and a half count. */
  lemma ExtrapolationIsLinear<D>(b: Buffer<D>, m: Moment, id: string)
    requires Inv(b) && |b.snapshots| > 1
    requires RenderTick(m) > b.snapshots[|b.snapshots| - 1].tick as real
    requires id in b.snapshots[|b.snapshots| - 1].entities && id in b.snapshots[|b.snapshots| - 2].entities
    ensures var n := |b.snapshots|;
            var previous, latest := b.snapshots[n - 2], b.snapshots[n - 1];
            var p, q := previous.entities[id].motion.position, latest.entities[id].motion.position;
            var span, late := (latest.tick - previous.tick) as real, m.tick as real + m.fraction - latest.tick as real;
            var ahead := if late <= 2.5 then late else 2.5;
            id in Sample(b, m).value.entities &&
            var shown := Sample(b, m).value.entities[id].motion.position;
            (shown.x - q.x) * span == (q.x - p.x) * ahead && (shown.y - q.y) * span == (q.y - p.y) * ahead
  {
    var n, at := |b.snapshots|, RenderTick(m);
    assert Upper(b.snapshots, at) == n;
    hide Slide, Project, Times, Upper;
    var previous, latest := b.snapshots[n - 2], b.snapshots[n - 1];
    var p, q := previous.entities[id].motion.position, latest.entities[id].motion.position;
    var span := (latest.tick - previous.tick) as real;
    Proportional(p.x, q.x, Ahead(latest, at), span);
    Proportional(p.y, q.y, Ahead(latest, at), span);
  }

  // ---- What is stored is what is shown ----

  /** A world that is newer than all stored ones, or as new as the newest and upserted, is shown at its own tick, with
      exactly its own entities; one that is older changes nothing. */
  lemma StoredIsShown<D>(b: Buffer<D>, p: Packet<D>, m: Moment, id: string)
    requires Inv(b) && RenderTick(m) == p.world.tick as real
    ensures Inv(Store(b, p))
    ensures
      var last := if b.snapshots == [] then -1 else b.snapshots[|b.snapshots| - 1].tick;
      var accepted := p.world.tick > last || (p.Upserted? && p.world.tick == last);
      && (!accepted ==> Store(b, p) == b)
      && (accepted ==>
            && Sample(Store(b, p), m).Some?
            && var shown := Sample(Store(b, p), m).value;
            && shown.tick == p.world.tick && shown.revision == b.revision + 1 && !shown.extrapolated
            && (id in shown.entities <==> LastEntity(p.world.entities, id).Some?)
            && (id in shown.entities ==> shown.entities[id] == LastEntity(p.world.entities, id).value))
  {
    StoreKeepsInv(b, p.world);
    ByIdIsComplete(p.world.entities, id);
    StoredIsLast(b, p);
    var b' := Store(b, p);
    hide Sample, ById, Store, Inv;
    if b' != b {
      ExactTickIsExact(b', m, |b'.snapshots| - 1);
    }
  }

  lemma StoredIsLast<D>(b: Buffer<D>, p: Packet<D>)
    ensures
      var last := if b.snapshots == [] then -1 else b.snapshots[|b.snapshots| - 1].tick;
      var b' := Store(b, p);
      if p.world.tick > last || (p.Upserted? && p.world.tick == last) then
        && b' != b && b'.snapshots != []
        && b'.snapshots[|b'.snapshots| - 1] == Snap(p.world.tick, b.revision + 1, ById(p.world.entities))
      else b' == b
  {
    hide ById;
  }

  /** Storing a world rewrites nothing that was stored for another tick: what is still there is shown as before. */
  lemma HistoryIsKept<D>(b: Buffer<D>, p: Packet<D>, s: Snap<D>)
    requires Inv(b) && s in Store(b, p).snapshots && s.tick != p.world.tick
    ensures s in b.snapshots
  {
  }

  /** Storing a newer world loses nothing until there are 32, and then only the oldest. */
  lemma OnlyOldestGoes<D>(b: Buffer<D>, p: Packet<D>)
    requires Inv(b) && (b.snapshots == [] || p.world.tick > b.snapshots[|b.snapshots| - 1].tick)
    ensures var s, s' := b.snapshots, Store(b, p).snapshots;
            && s' != [] && s'[|s'| - 1].tick == p.world.tick
            && s'[..|s'| - 1] == if |s| < 32 then s else s[1..]
  {
  }

  /** Before the first snapshot the first is shown, and a single one is shown at any moment, unchanged. */
  lemma OutsideIsExact<D>(b: Buffer<D>, m: Moment)
    requires Inv(b) && b.snapshots != [] && (|b.snapshots| == 1 || RenderTick(m) <= b.snapshots[0].tick as real)
    ensures var s := b.snapshots[0]; Sample(b, m) == Some(Sampled(m, s.tick, s.revision, s.entities, false))
  {
    if RenderTick(m) == b.snapshots[0].tick as real {
      ExactTickIsExact(b, m, 0);
    }
  }
}
