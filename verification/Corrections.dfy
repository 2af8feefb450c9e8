/** What a client presents: reliable corrections that own which things exist, and lossy transform frames that only move
    things already known. */
module Corrections {
  import opened Wrappers

  datatype Position = Position(x: real, y: real)

  /** The fields a transform frame may change. */
  datatype Motion = Motion(position: Position, direction: int, mode: string, animationStart: nat)

  /** `details` holds every field that only a reliable correction may change. */
  datatype Entity<D> = Entity(id: string, motion: Motion, details: D)

  datatype Missile<D> = Missile(id: string, position: Position, details: D)

  datatype World<D> = World(tick: nat, origin: Position, entities: seq<Entity<D>>, missiles: seq<Missile<D>>)

  datatype Owner = Owner(playerId: string, characterId: string)

  /** `velocity` and `gait` are the movement and animation of the player's own character. */
  datatype Hud<D> = Hud(tick: nat, owner: Owner, motion: Motion, velocity: Position, details: D)

  datatype View<D> = View(hud: Hud<D>, world: World<D>)

  /** A reliable snapshot; its payload decodes to a view or not at all. */
  datatype Snapshot<D> = Snapshot(tick: nat, checksum: string, payload: Option<View<D>>)

  datatype Transform = Transform(idHash: nat, motion: Motion)

  datatype Frame = Frame(tick: nat, owner: Motion, velocity: Position, transforms: seq<Transform>)

  datatype CorrectionError = BadView | Stale | WrongOwner | HashCollision

  datatype Client<D> = Client(tick: nat, checksum: string, reliableHud: Hud<D>, reliable: World<D>, hud: Hud<D>,
                              world: World<D>, revision: nat)

  type Hash = string -> nat

  // ---- Wire values ----

  /** Modes are fixed-width fields padded with NUL. */
  function TrimNul(mode: string): string {
    if mode != [] && mode[|mode| - 1] == '\0' then TrimNul(mode[..|mode| - 1]) else mode
  }

  function Trimmed(m: Motion): Motion {
    m.(mode := TrimNul(m.mode))
  }

  predicate IdsApart<D>(w: World<D>) {
    && (forall i, j :: 0 <= i < j < |w.entities| ==> w.entities[i].id != w.entities[j].id)
    && (forall i, j :: 0 <= i < j < |w.missiles| ==> w.missiles[i].id != w.missiles[j].id)
    && (forall i, j :: 0 <= i < |w.entities| && 0 <= j < |w.missiles| ==> w.entities[i].id != w.missiles[j].id)
  }

  /** A payload is only accepted if its views are of the snapshot's tick and name nothing twice. */
  function Decoded<D>(s: Snapshot<D>): Option<View<D>> {
    if s.payload.Some? && s.payload.value.hud.tick == s.tick && s.payload.value.world.tick == s.tick
       && IdsApart(s.payload.value.world)
    then s.payload else None
  }

  // ---- Reliable corrections ----

  predicate SameOwner(expected: Owner, actual: Owner) {
    expected.playerId != "" && expected.characterId != "" && actual == expected
  }

  /** The last entity with an id. */
  function LastEntity<D>(entities: seq<Entity<D>>, id: string): Option<Entity<D>> {
    if entities == [] then None
    else if entities[|entities| - 1].id == id then Some(entities[|entities| - 1])
    else LastEntity(entities[..|entities| - 1], id)
  }

  function LastMissile<D>(missiles: seq<Missile<D>>, id: string): Option<Missile<D>> {
    if missiles == [] then None
    else if missiles[|missiles| - 1].id == id then Some(missiles[|missiles| - 1])
    else LastMissile(missiles[..|missiles| - 1], id)
  }

  function WithMotion<D>(e: Entity<D>, current: seq<Entity<D>>): Entity<D> {
    match LastEntity(current, e.id)
    case None => e
    case Some(c) => e.(motion := c.motion)
  }

  function WithPosition<D>(m: Missile<D>, current: seq<Missile<D>>): Missile<D> {
    match LastMissile(current, m.id)
    case None => m
    case Some(c) => m.(position := c.position)
  }

  function MergedEntities<D>(reliable: seq<Entity<D>>, current: seq<Entity<D>>): seq<Entity<D>> {
    seq(|reliable|, i requires 0 <= i < |reliable| => WithMotion(reliable[i], current))
  }

  function MergedMissiles<D>(reliable: seq<Missile<D>>, current: seq<Missile<D>>): seq<Missile<D>> {
    seq(|reliable|, i requires 0 <= i < |reliable| => WithPosition(reliable[i], current))
  }

  /** The reliable world with the newer motion of what was already presented. */
  function MergedWorld<D>(reliable: World<D>, current: World<D>): World<D> {
    if current.tick <= reliable.tick then reliable
    else World(current.tick, current.origin, MergedEntities(reliable.entities, current.entities),
               MergedMissiles(reliable.missiles, current.missiles))
  }

  function MergedHud<D>(reliable: Hud<D>, current: Hud<D>, world: World<D>, currentWorld: World<D>): Hud<D> {
    if currentWorld.tick <= world.tick then reliable
    else reliable.(tick := current.tick, motion := current.motion, velocity := current.velocity)
  }

  function CorrectionRefused<D>(c: Client<D>, s: Snapshot<D>): Option<CorrectionError> {
    if Decoded(s).None? then Some(BadView)
    else if s.tick < c.tick || (s.tick == c.tick && s.checksum != c.checksum) then Some(Stale)
    else if !SameOwner(c.reliableHud.owner, s.payload.value.hud.owner) then Some(WrongOwner)
    else None
  }

  function Correct<D>(c: Client<D>, s: Snapshot<D>): Client<D> {
    if CorrectionRefused(c, s).Some? then c
    else
      var v := s.payload.value;
      var hud, world := MergedHud(v.hud, c.hud, v.world, c.world), MergedWorld(v.world, c.world);
      Client(s.tick, s.checksum, v.hud, v.world, hud, world, c.revision + 1)
  }

  // ---- Transform frames ----

  function LastTransform(transforms: seq<Transform>, idHash: nat): Option<Transform> {
    if transforms == [] then None
    else if transforms[|transforms| - 1].idHash == idHash then Some(transforms[|transforms| - 1])
    else LastTransform(transforms[..|transforms| - 1], idHash)
  }

  function MovedEntity<D>(e: Entity<D>, hash: Hash, transforms: seq<Transform>): Entity<D> {
    match LastTransform(transforms, hash(e.id))
    case None => e
    case Some(t) => e.(motion := Trimmed(t.motion))
  }

  function MovedMissile<D>(m: Missile<D>, hash: Hash, transforms: seq<Transform>): Missile<D> {
    match LastTransform(transforms, hash(m.id))
    case None => m
    case Some(t) => m.(position := t.motion.position)
  }

  function MovedEntities<D>(entities: seq<Entity<D>>, hash: Hash, transforms: seq<Transform>): seq<Entity<D>> {
    seq(|entities|, i requires 0 <= i < |entities| => MovedEntity(entities[i], hash, transforms))
  }

  function MovedMissiles<D>(missiles: seq<Missile<D>>, hash: Hash, transforms: seq<Transform>): seq<Missile<D>> {
    seq(|missiles|, i requires 0 <= i < |missiles| => MovedMissile(missiles[i], hash, transforms))
  }

  /** No two presented things share a hash. */
  predicate HashesApart<D>(w: World<D>, hash: Hash) {
    && (forall i, j :: 0 <= i < j < |w.entities| ==> hash(w.entities[i].id) != hash(w.entities[j].id))
    && (forall i, j :: 0 <= i < j < |w.missiles| ==> hash(w.missiles[i].id) != hash(w.missiles[j].id))
    && (forall i, j :: 0 <= i < |w.entities| && 0 <= j < |w.missiles| ==>
          hash(w.entities[i].id) != hash(w.missiles[j].id))
  }

  /** Every known thing takes the frame's last word about it; nothing appears or goes. */
  function MovedWorld<D>(w: World<D>, hash: Hash, f: Frame): World<D> {
    World(f.tick, f.owner.position, MovedEntities(w.entities, hash, f.transforms),
          MovedMissiles(w.missiles, hash, f.transforms))
  }

  function MovedHud<D>(h: Hud<D>, f: Frame): Hud<D> {
    h.(tick := f.tick, motion := Trimmed(f.owner), velocity := f.velocity)
  }

  function FrameRefused<D>(c: Client<D>, hash: Hash, f: Frame): bool {
    f.tick > c.world.tick && !HashesApart(c.world, hash)
  }

  /** An obsolete frame is acknowledged and ignored. */
  function Move<D>(c: Client<D>, hash: Hash, f: Frame): Client<D> {
    if f.tick <= c.world.tick || FrameRefused(c, hash, f) then c
    else c.(hud := MovedHud(c.hud, f), world := MovedWorld(c.world, hash, f), revision := c.revision + 1)
  }

  /** The session starts from, and a reconnect returns it to, one reliable view. */
  function Installed<D>(tick: nat, checksum: string, v: View<D>, revision: nat): Client<D> {
    Client(tick, checksum, v.hud, v.world, v.hud, v.world, revision)
  }

  // ---- What every client keeps ----

  /** The same things in the same order, up to how they move. */
  predicate SameLifecycle<D(==)>(a: World<D>, b: World<D>) {
    && |a.entities| == |b.entities| && |a.missiles| == |b.missiles|
    && (forall i :: 0 <= i < |a.entities| ==>
          a.entities[i].id == b.entities[i].id && a.entities[i].details == b.entities[i].details)
    && (forall i :: 0 <= i < |a.missiles| ==>
          a.missiles[i].id == b.missiles[i].id && a.missiles[i].details == b.missiles[i].details)
  }

  predicate SameOwnership<D(==)>(a: Hud<D>, b: Hud<D>) {
    a.owner == b.owner && a.details == b.details
  }

  predicate Inv<D(==)>(c: Client<D>) {
    && c.reliable.tick == c.tick && c.reliableHud.tick == c.tick
    && IdsApart(c.reliable) && c.tick <= c.world.tick && c.hud.tick == c.world.tick
    && SameLifecycle(c.reliable, c.world) && SameOwnership(c.reliableHud, c.hud)
    && (c.world.tick == c.tick ==> c.world == c.reliable && c.hud == c.reliableHud)
  }

  datatype Message<D> = Reliable(snapshot: Snapshot<D>) | Lossy(frame: Frame)

  function Receive<D>(c: Client<D>, hash: Hash, m: Message<D>): Client<D> {
    match m
    case Reliable(s) => Correct(c, s)
    case Lossy(f) => Move(c, hash, f)
  }

  function ReceiveAll<D>(c: Client<D>, hash: Hash, ms: seq<Message<D>>): Client<D> {
    if ms == [] then c else Receive(ReceiveAll(c, hash, ms[..|ms| - 1]), hash, ms[|ms| - 1])
  }

  lemma CorrectKeepsInv<D>(c: Client<D>, s: Snapshot<D>)
    requires Inv(c)
    ensures Inv(Correct(c, s))
  {
  }

  lemma MoveKeepsInv<D>(c: Client<D>, hash: Hash, f: Frame)
    requires Inv(c)
    ensures Inv(Move(c, hash, f))
  {
  }

  predicate NotBehind<D(==)>(c: Client<D>, later: Client<D>) {
    && later.tick >= c.tick && later.world.tick >= c.world.tick && later.revision >= c.revision
    && later.reliableHud.owner == c.reliableHud.owner
    && (later.revision == c.revision ==> later == c)
    && (later.tick == c.tick ==> later.checksum == c.checksum)
  }

  lemma ReceiveMovesOn<D>(c: Client<D>, hash: Hash, m: Message<D>)
    requires Inv(c)
    ensures NotBehind(c, Receive(c, hash, m))
  {
  }

  /** However corrections and frames interleave, are lost, repeated or reordered between reconnects: the presented tick
      never goes back and is never behind the reliable one, the presented world holds exactly the things of the last
      reliable correction in its order, the owner never changes, and a revision that has not moved means that nothing
      has. */
  lemma {:induction false} PresentationMovesOn<D>(c: Client<D>, hash: Hash, ms: seq<Message<D>>)
    requires Inv(c)
    ensures Inv(ReceiveAll(c, hash, ms)) && NotBehind(c, ReceiveAll(c, hash, ms))
  {
    if ms != [] {
      PresentationMovesOn(c, hash, ms[..|ms| - 1]);
      var before := ReceiveAll(c, hash, ms[..|ms| - 1]);
      ReceiveMovesOn(before, hash, ms[|ms| - 1]);
      match ms[|ms| - 1]
      case Reliable(s) => CorrectKeepsInv(before, s);
      case Lossy(f) => MoveKeepsInv(before, hash, f);
    }
  }

  lemma InstalledIsOk<D>(tick: nat, checksum: string, v: View<D>, revision: nat)
    requires v.hud.tick == tick && v.world.tick == tick && IdsApart(v.world)
    ensures Inv(Installed(tick, checksum, v, revision))
  {
  }

  // ---- Repeats and reordering ----

  lemma {:induction false} LastEntityIs<D>(entities: seq<Entity<D>>, i: nat)
    requires i < |entities| && forall j, k :: 0 <= j < k < |entities| ==> entities[j].id != entities[k].id
    ensures LastEntity(entities, entities[i].id) == Some(entities[i])
    decreases |entities|
  {
    if i < |entities| - 1 {
      LastEntityIs(entities[..|entities| - 1], i);
    }
  }

  lemma {:induction false} LastMissileIs<D>(missiles: seq<Missile<D>>, i: nat)
    requires i < |missiles| && forall j, k :: 0 <= j < k < |missiles| ==> missiles[j].id != missiles[k].id
    ensures LastMissile(missiles, missiles[i].id) == Some(missiles[i])
    decreases |missiles|
  {
    if i < |missiles| - 1 {
      LastMissileIs(missiles[..|missiles| - 1], i);
    }
  }

  lemma MergeTwice<D>(w: World<D>, current: World<D>)
    requires IdsApart(w) && w.tick < current.tick
    ensures MergedWorld(w, MergedWorld(w, current)) == MergedWorld(w, current)
  {
    var once := MergedWorld(w, current);
    forall i | 0 <= i < |w.entities| ensures WithMotion(w.entities[i], once.entities) == once.entities[i] {
      LastEntityIs(once.entities, i);
    }
    forall i | 0 <= i < |w.missiles| ensures WithPosition(w.missiles[i], once.missiles) == once.missiles[i] {
      LastMissileIs(once.missiles, i);
    }
    assert MergedEntities(w.entities, once.entities) == once.entities;
    assert MergedMissiles(w.missiles, once.missiles) == once.missiles;
  }

  /** A repeated correction changes nothing but the revision, whatever frames came before it. */
  lemma RepeatIsIdempotent<D>(c: Client<D>, s: Snapshot<D>)
    requires Inv(c) && CorrectionRefused(c, s).None?
    ensures CorrectionRefused(Correct(c, s), s).None?
    ensures Correct(Correct(c, s), s) == Correct(c, s).(revision := c.revision + 2)
  {
    if s.tick < c.world.tick {
      MergeTwice(s.payload.value.world, c.world);
    }
  }

  lemma {:induction false} MovedLast<D>(entities: seq<Entity<D>>, hash: Hash, transforms: seq<Transform>, id: string)
    ensures var last := LastEntity(entities, id);
            LastEntity(MovedEntities(entities, hash, transforms), id) ==
            if last.None? then None else Some(MovedEntity(last.value, hash, transforms))
    ensures LastEntity(entities, id).Some? ==> LastEntity(entities, id).value.id == id
    decreases |entities|
  {
    if entities != [] {
      var n := |entities| - 1;
      assert MovedEntities(entities, hash, transforms)[..n] == MovedEntities(entities[..n], hash, transforms);
      MovedLast(entities[..n], hash, transforms, id);
    }
  }

  lemma {:induction false} MovedLastMissile<D>(missiles: seq<Missile<D>>, hash: Hash, transforms: seq<Transform>,
                                               id: string)
    ensures var last := LastMissile(missiles, id);
            LastMissile(MovedMissiles(missiles, hash, transforms), id) ==
            if last.None? then None else Some(MovedMissile(last.value, hash, transforms))
    ensures LastMissile(missiles, id).Some? ==> LastMissile(missiles, id).value.id == id
    decreases |missiles|
  {
    if missiles != [] {
      var n := |missiles| - 1;
      assert MovedMissiles(missiles, hash, transforms)[..n] == MovedMissiles(missiles[..n], hash, transforms);
      MovedLastMissile(missiles[..n], hash, transforms, id);
    }
  }

  // ---- What a message shows ----

  /** Only the padding goes, and all of it. */
  lemma {:induction false} TrimNulIsExact(mode: string)
    ensures TrimNul(mode) <= mode && forall i :: |TrimNul(mode)| <= i < |mode| ==> mode[i] == '\0'
    ensures TrimNul(mode) != [] ==> TrimNul(mode)[|TrimNul(mode)| - 1] != '\0'
  {
    if mode != [] && mode[|mode| - 1] == '\0' {
      TrimNulIsExact(mode[..|mode| - 1]);
    }
  }

  /** The motion a transform gives, without its padding. */
  predicate Gives(t: Motion, m: Motion) {
    && m.position == t.position && m.direction == t.direction && m.animationStart == t.animationStart
    && m.mode <= t.mode && (m.mode != [] ==> m.mode[|m.mode| - 1] != '\0')
    && forall i :: |m.mode| <= i < |t.mode| ==> t.mode[i] == '\0'
  }

  /** The j-th transform is a frame's last word about a hash. */
  predicate LastWord(f: Frame, j: nat, idHash: nat)
    requires j < |f.transforms|
  {
    f.transforms[j].idHash == idHash && forall k :: j < k < |f.transforms| ==> f.transforms[k].idHash != idHash
  }

  lemma {:induction false} LastTransformIs(transforms: seq<Transform>, idHash: nat)
    ensures LastTransform(transforms, idHash).None? ==> forall t :: t in transforms ==> t.idHash != idHash
    ensures LastTransform(transforms, idHash).Some? ==>
              exists j :: 0 <= j < |transforms| && transforms[j] == LastTransform(transforms, idHash).value
                          && transforms[j].idHash == idHash
                          && forall k :: j < k < |transforms| ==> transforms[k].idHash != idHash
  {
    if transforms != [] && transforms[|transforms| - 1].idHash != idHash {
      LastTransformIs(transforms[..|transforms| - 1], idHash);
    }
  }

  lemma LastWordIs(f: Frame, j: nat, idHash: nat)
    requires j < |f.transforms| && LastWord(f, j, idHash)
    ensures LastTransform(f.transforms, idHash) == Some(f.transforms[j])
  {
    LastTransformIs(f.transforms, idHash);
    assert f.transforms[j] in f.transforms;
  }

  /** A frame newer than what is presented is shown: its tick, its owner's motion, and its last word about every thing
      already presented; nothing else moves, and what only corrections may change does not change. */
  lemma FrameIsShown<D>(c: Client<D>, hash: Hash, f: Frame)
    requires f.tick > c.world.tick && HashesApart(c.world, hash)
    ensures
      var d := Move(c, hash, f);
      && d.revision == c.revision + 1 && d.world.tick == f.tick && d.hud.tick == f.tick
      && d.world.origin == f.owner.position && Gives(f.owner, d.hud.motion) && d.hud.velocity == f.velocity
      && d.reliable == c.reliable && d.reliableHud == c.reliableHud && d.tick == c.tick && d.checksum == c.checksum
      && SameLifecycle(c.world, d.world) && SameOwnership(c.hud, d.hud)
    ensures
      var d := Move(c, hash, f);
      && |d.world.entities| == |c.world.entities|
      && (forall i, j :: 0 <= i < |c.world.entities| && 0 <= j < |f.transforms|
                         && LastWord(f, j, hash(c.world.entities[i].id)) ==>
            Gives(f.transforms[j].motion, d.world.entities[i].motion))
      && (forall i :: 0 <= i < |c.world.entities|
                      && (forall t :: t in f.transforms ==> t.idHash != hash(c.world.entities[i].id)) ==>
            d.world.entities[i] == c.world.entities[i])
    ensures
      var d := Move(c, hash, f);
      && |d.world.missiles| == |c.world.missiles|
      && (forall i, j :: 0 <= i < |c.world.missiles| && 0 <= j < |f.transforms|
                         && LastWord(f, j, hash(c.world.missiles[i].id)) ==>
            d.world.missiles[i].position == f.transforms[j].motion.position)
      && (forall i :: 0 <= i < |c.world.missiles|
                      && (forall t :: t in f.transforms ==> t.idHash != hash(c.world.missiles[i].id)) ==>
            d.world.missiles[i] == c.world.missiles[i])
  {
    var d := Move(c, hash, f);
    TrimNulIsExact(f.owner.mode);
    hide HashesApart, LastTransform, LastWord, TrimNul;
    forall i, j | 0 <= i < |c.world.entities| && 0 <= j < |f.transforms| && LastWord(f, j, hash(c.world.entities[i].id))
      ensures Gives(f.transforms[j].motion, d.world.entities[i].motion)
    {
      LastWordIs(f, j, hash(c.world.entities[i].id));
      TrimNulIsExact(f.transforms[j].motion.mode);
    }
    forall i, j | 0 <= i < |c.world.missiles| && 0 <= j < |f.transforms| && LastWord(f, j, hash(c.world.missiles[i].id))
      ensures d.world.missiles[i].position == f.transforms[j].motion.position
    {
      LastWordIs(f, j, hash(c.world.missiles[i].id));
    }
    forall i | 0 <= i < |c.world.entities|
      ensures (forall t :: t in f.transforms ==> t.idHash != hash(c.world.entities[i].id)) ==>
                d.world.entities[i] == c.world.entities[i]
    {
      LastTransformIs(f.transforms, hash(c.world.entities[i].id));
    }
    forall i | 0 <= i < |c.world.missiles|
      ensures (forall t :: t in f.transforms ==> t.idHash != hash(c.world.missiles[i].id)) ==>
                d.world.missiles[i] == c.world.missiles[i]
    {
      LastTransformIs(f.transforms, hash(c.world.missiles[i].id));
    }
  }

  /** Exactly which corrections are accepted, and that one at least as new as what is presented is shown as it is. */
  lemma CorrectionIsShown<D>(c: Client<D>, s: Snapshot<D>)
    ensures CorrectionRefused(c, s).None? <==>
            && s.payload.Some? && s.payload.value.hud.tick == s.tick && s.payload.value.world.tick == s.tick
            && IdsApart(s.payload.value.world)
            && (s.tick > c.tick || (s.tick == c.tick && s.checksum == c.checksum))
            && c.reliableHud.owner.playerId != "" && c.reliableHud.owner.characterId != ""
            && s.payload.value.hud.owner == c.reliableHud.owner
    ensures CorrectionRefused(c, s).Some? ==> Correct(c, s) == c
    ensures CorrectionRefused(c, s).None? ==>
              var d := Correct(c, s);
              && d.tick == s.tick && d.checksum == s.checksum && d.revision == c.revision + 1
              && d.reliable == s.payload.value.world && d.reliableHud == s.payload.value.hud
              && (c.world.tick <= s.tick ==> d.world == s.payload.value.world && d.hud == s.payload.value.hud)
              && (c.world.tick > s.tick ==>
                    && d.world.tick == c.world.tick && d.world.origin == c.world.origin
                    && d.hud.tick == c.hud.tick && d.hud.motion == c.hud.motion && d.hud.velocity == c.hud.velocity
                    && SameLifecycle(s.payload.value.world, d.world) && SameOwnership(s.payload.value.hud, d.hud))
  {
  }

  // ---- A frame and a correction in either order ----

  function FrameFirst<D>(c: Client<D>, s: Snapshot<D>, hash: Hash, f: Frame): Client<D> {
    Correct(Move(c, hash, f), s)
  }

  function CorrectionFirst<D>(c: Client<D>, s: Snapshot<D>, hash: Hash, f: Frame): Client<D> {
    Move(Correct(c, s), hash, f)
  }

  /** How a thing moves after a newer frame and then a correction: the frame's word if it was known and told, where it
      was if it was known and not told, and the correction's if it was not known. */
  function MotionFrameFirst<M>(reliable: M, known: Option<M>, told: Option<M>): M {
    if known.None? then reliable else if told.Some? then told.value else known.value
  }

  /** The same after a correction and then a newer frame: `behind` when the correction was older than what was
      presented. */
  function MotionCorrectionFirst<M>(reliable: M, known: Option<M>, told: Option<M>, behind: bool): M {
    if told.Some? then told.value else if known.Some? && behind then known.value else reliable
  }

  /** Exactly when the two agree, case by case. */
  predicate MotionsAgree<M(==)>(reliable: M, known: Option<M>, told: Option<M>, behind: bool) {
    if known.Some? then told.Some? || behind || known.value == reliable
    else told.Some? ==> told.value == reliable
  }

  function KnownMotion<D>(w: World<D>, id: string): Option<Motion> {
    match LastEntity(w.entities, id) case None => None case Some(e) => Some(e.motion)
  }

  function ToldMotion(f: Frame, idHash: nat): Option<Motion> {
    match LastTransform(f.transforms, idHash) case None => None case Some(t) => Some(Trimmed(t.motion))
  }

  function KnownPosition<D>(w: World<D>, id: string): Option<Position> {
    match LastMissile(w.missiles, id) case None => None case Some(m) => Some(m.position)
  }

  function ToldPosition(f: Frame, idHash: nat): Option<Position> {
    match LastTransform(f.transforms, idHash) case None => None case Some(t) => Some(t.motion.position)
  }

  predicate EntityAgrees<D>(c: Client<D>, w: World<D>, hash: Hash, f: Frame, i: nat)
    requires i < |w.entities|
  {
    var e := w.entities[i];
    MotionsAgree(e.motion, KnownMotion(c.world, e.id), ToldMotion(f, hash(e.id)), c.world.tick > w.tick)
  }

  predicate MissileAgrees<D>(c: Client<D>, w: World<D>, hash: Hash, f: Frame, i: nat)
    requires i < |w.missiles|
  {
    var m := w.missiles[i];
    MotionsAgree(m.position, KnownPosition(c.world, m.id), ToldPosition(f, hash(m.id)), c.world.tick > w.tick)
  }

  /** Exactly when a frame and an accepted correction lead to the same client in either order. */
  predicate OrderIsImmaterial<D>(c: Client<D>, w: World<D>, hash: Hash, f: Frame) {
    || f.tick <= c.world.tick || f.tick <= w.tick
    || (&& (HashesApart(c.world, hash) <==> HashesApart(w, hash))
        && (HashesApart(w, hash) ==>
              && (forall i :: 0 <= i < |w.entities| ==> EntityAgrees(c, w, hash, f, i))
              && (forall i :: 0 <= i < |w.missiles| ==> MissileAgrees(c, w, hash, f, i))))
  }

  /** What each entity of the correction looks like in either order once a newer frame has come too. */
  lemma EntityInEitherOrder<D>(c: Client<D>, s: Snapshot<D>, hash: Hash, f: Frame, i: nat)
    requires Inv(c) && CorrectionRefused(c, s).None? && f.tick > c.world.tick && f.tick > s.tick
    requires HashesApart(c.world, hash) && HashesApart(s.payload.value.world, hash)
    requires i < |s.payload.value.world.entities|
    ensures var e := s.payload.value.world.entities[i];
            var known, told := KnownMotion(c.world, e.id), ToldMotion(f, hash(e.id));
            var a, b := FrameFirst(c, s, hash, f).world.entities, CorrectionFirst(c, s, hash, f).world.entities;
            && |a| == |b| == |s.payload.value.world.entities|
            && a[i] == e.(motion := MotionFrameFirst(e.motion, known, told))
            && b[i] == e.(motion := MotionCorrectionFirst(e.motion, known, told, c.world.tick > s.tick))
  {
    var w := s.payload.value.world;
    var e := w.entities[i];
    MergedHashes(c.world, w, hash);
    MovedLast(c.world.entities, hash, f.transforms, e.id);
    var corrected := Correct(c, s);
    assert corrected.world.entities[i] == if c.world.tick <= s.tick then e else WithMotion(e, c.world.entities);
  }

  lemma MissileInEitherOrder<D>(c: Client<D>, s: Snapshot<D>, hash: Hash, f: Frame, i: nat)
    requires Inv(c) && CorrectionRefused(c, s).None? && f.tick > c.world.tick && f.tick > s.tick
    requires HashesApart(c.world, hash) && HashesApart(s.payload.value.world, hash)
    requires i < |s.payload.value.world.missiles|
    ensures var m := s.payload.value.world.missiles[i];
            var known, told := KnownPosition(c.world, m.id), ToldPosition(f, hash(m.id));
            var a, b := FrameFirst(c, s, hash, f).world.missiles, CorrectionFirst(c, s, hash, f).world.missiles;
            && |a| == |b| == |s.payload.value.world.missiles|
            && a[i] == m.(position := MotionFrameFirst(m.position, known, told))
            && b[i] == m.(position := MotionCorrectionFirst(m.position, known, told, c.world.tick > s.tick))
  {
    var w := s.payload.value.world;
    var m := w.missiles[i];
    MergedHashes(c.world, w, hash);
    MovedLastMissile(c.world.missiles, hash, f.transforms, m.id);
    var corrected := Correct(c, s);
    assert corrected.world.missiles[i] == if c.world.tick <= s.tick then m else WithPosition(m, c.world.missiles);
  }

  /** A frame that is not newer than both leaves the same client in either order, up to its revision. */
  lemma OldFrameCommutes<D>(c: Client<D>, s: Snapshot<D>, hash: Hash, f: Frame)
    requires Inv(c) && CorrectionRefused(c, s).None? && (f.tick <= c.world.tick || f.tick <= s.tick)
    ensures FrameFirst(c, s, hash, f) ==
            CorrectionFirst(c, s, hash, f).(revision := FrameFirst(c, s, hash, f).revision)
  {
  }

  /** All but the entities and missiles is the same in either order. */
  lemma RestInEitherOrder<D>(c: Client<D>, s: Snapshot<D>, hash: Hash, f: Frame)
    requires Inv(c) && CorrectionRefused(c, s).None? && f.tick > c.world.tick && f.tick > s.tick
    requires HashesApart(c.world, hash) && HashesApart(s.payload.value.world, hash)
    ensures var a, b := FrameFirst(c, s, hash, f), CorrectionFirst(c, s, hash, f);
            && a == b.(world := a.world) && a.revision == c.revision + 2
            && a.world.tick == b.world.tick == f.tick && a.world.origin == b.world.origin
  {
    MergedHashes(c.world, s.payload.value.world, hash);
  }

  /** When only one of the two worlds has colliding hashes, the frame is applied in only one order, and it shows. */
  lemma CollisionShows<D>(c: Client<D>, s: Snapshot<D>, hash: Hash, f: Frame)
    requires Inv(c) && CorrectionRefused(c, s).None? && f.tick > c.world.tick && f.tick > s.tick
    requires !(HashesApart(c.world, hash) && HashesApart(s.payload.value.world, hash))
    ensures FrameFirst(c, s, hash, f) == CorrectionFirst(c, s, hash, f) <==>
            (HashesApart(c.world, hash) <==> HashesApart(s.payload.value.world, hash))
    ensures FrameFirst(c, s, hash, f).world == CorrectionFirst(c, s, hash, f).world <==>
            (HashesApart(c.world, hash) <==> HashesApart(s.payload.value.world, hash))
  {
    MergedHashes(c.world, s.payload.value.world, hash);
  }

  lemma MergedHashes<D>(current: World<D>, reliable: World<D>, hash: Hash)
    ensures HashesApart(MergedWorld(reliable, current), hash) <==> HashesApart(reliable, hash)
  {
    var w := MergedWorld(reliable, current);
    assert forall i :: 0 <= i < |w.entities| ==> w.entities[i].id == reliable.entities[i].id;
    assert forall i :: 0 <= i < |w.missiles| ==> w.missiles[i].id == reliable.missiles[i].id;
  }

  lemma MotionsAgreeIff<M>(reliable: M, known: Option<M>, told: Option<M>, behind: bool)
    ensures MotionFrameFirst(reliable, known, told) == MotionCorrectionFirst(reliable, known, told, behind) <==>
            MotionsAgree(reliable, known, told, behind)
  {
  }

  /** A frame and an accepted correction give the same client in either order, up to its revision, exactly when the
      order is immaterial. */
  lemma OrderOfFrameAndCorrection<D>(c: Client<D>, s: Snapshot<D>, hash: Hash, f: Frame)
    requires Inv(c) && CorrectionRefused(c, s).None?
    ensures FrameFirst(c, s, hash, f) ==
            CorrectionFirst(c, s, hash, f).(revision := FrameFirst(c, s, hash, f).revision)
            <==> OrderIsImmaterial(c, s.payload.value.world, hash, f)
  {
    var w := s.payload.value.world;
    hide Inv;
    if f.tick <= c.world.tick || f.tick <= s.tick {
      OldFrameCommutes(c, s, hash, f);
    } else if !(HashesApart(c.world, hash) && HashesApart(w, hash)) {
      CollisionShows(c, s, hash, f);
    } else {
      hide CorrectionRefused, HashesApart, FrameFirst, CorrectionFirst, EntityAgrees, MissileAgrees;
      RestInEitherOrder(c, s, hash, f);
      ThingsInEitherOrder(c, s, hash, f);
    }
  }

  lemma ThingsInEitherOrder<D>(c: Client<D>, s: Snapshot<D>, hash: Hash, f: Frame)
    requires Inv(c) && CorrectionRefused(c, s).None? && f.tick > c.world.tick && f.tick > s.tick
    requires HashesApart(c.world, hash) && HashesApart(s.payload.value.world, hash)
    ensures var w, a, b := s.payload.value.world, FrameFirst(c, s, hash, f).world, CorrectionFirst(c, s, hash, f).world;
            && (a.entities == b.entities <==> forall i :: 0 <= i < |w.entities| ==> EntityAgrees(c, w, hash, f, i))
            && (a.missiles == b.missiles <==> forall i :: 0 <= i < |w.missiles| ==> MissileAgrees(c, w, hash, f, i))
  {
    var w, a, b := s.payload.value.world, FrameFirst(c, s, hash, f).world, CorrectionFirst(c, s, hash, f).world;
    hide Inv, CorrectionRefused, HashesApart, FrameFirst, CorrectionFirst, MotionFrameFirst, MotionCorrectionFirst,
         MotionsAgree, KnownMotion, ToldMotion, KnownPosition, ToldPosition;
    EntitiesAgree(c, s, hash, f);
    MissilesAgree(c, s, hash, f);
  }

  lemma EntitiesAgree<D>(c: Client<D>, s: Snapshot<D>, hash: Hash, f: Frame)
    requires Inv(c) && CorrectionRefused(c, s).None? && f.tick > c.world.tick && f.tick > s.tick
    requires HashesApart(c.world, hash) && HashesApart(s.payload.value.world, hash)
    ensures var w, a, b := s.payload.value.world, FrameFirst(c, s, hash, f).world, CorrectionFirst(c, s, hash, f).world;
            a.entities == b.entities <==> forall i :: 0 <= i < |w.entities| ==> EntityAgrees(c, w, hash, f, i)
  {
    var w, a, b := s.payload.value.world, FrameFirst(c, s, hash, f).world, CorrectionFirst(c, s, hash, f).world;
    assert w.tick == s.tick;
    hide Inv, CorrectionRefused, HashesApart, FrameFirst, CorrectionFirst, MotionFrameFirst, MotionCorrectionFirst,
         MotionsAgree, KnownMotion, ToldMotion;
    forall i | 0 <= i < |w.entities|
      ensures |a.entities| == |b.entities| == |w.entities|
      ensures a.entities[i] == b.entities[i] <==> EntityAgrees(c, w, hash, f, i)
    {
      var e := w.entities[i];
      EntityInEitherOrder(c, s, hash, f, i);
      MotionsAgreeIff(e.motion, KnownMotion(c.world, e.id), ToldMotion(f, hash(e.id)), c.world.tick > s.tick);
    }
    EntityCount(c, s, hash, f);
  }

  lemma MissilesAgree<D>(c: Client<D>, s: Snapshot<D>, hash: Hash, f: Frame)
    requires Inv(c) && CorrectionRefused(c, s).None? && f.tick > c.world.tick && f.tick > s.tick
    requires HashesApart(c.world, hash) && HashesApart(s.payload.value.world, hash)
    ensures var w, a, b := s.payload.value.world, FrameFirst(c, s, hash, f).world, CorrectionFirst(c, s, hash, f).world;
            a.missiles == b.missiles <==> forall i :: 0 <= i < |w.missiles| ==> MissileAgrees(c, w, hash, f, i)
  {
    var w, a, b := s.payload.value.world, FrameFirst(c, s, hash, f).world, CorrectionFirst(c, s, hash, f).world;
    assert w.tick == s.tick;
    hide Inv, CorrectionRefused, HashesApart, FrameFirst, CorrectionFirst, MotionFrameFirst, MotionCorrectionFirst,
         MotionsAgree, KnownPosition, ToldPosition;
    forall i | 0 <= i < |w.missiles|
      ensures |a.missiles| == |b.missiles| == |w.missiles|
      ensures a.missiles[i] == b.missiles[i] <==> MissileAgrees(c, w, hash, f, i)
    {
      var m := w.missiles[i];
      MissileInEitherOrder(c, s, hash, f, i);
      MotionsAgreeIff(m.position, KnownPosition(c.world, m.id), ToldPosition(f, hash(m.id)), c.world.tick > s.tick);
    }
    EntityCount(c, s, hash, f);
  }

  lemma EntityCount<D>(c: Client<D>, s: Snapshot<D>, hash: Hash, f: Frame)
    requires CorrectionRefused(c, s).None?
    ensures var w, a, b := s.payload.value.world, FrameFirst(c, s, hash, f).world, CorrectionFirst(c, s, hash, f).world;
            && |a.entities| == |b.entities| == |w.entities| && |a.missiles| == |b.missiles| == |w.missiles|
  {
  }

  /** An entity that the frame leaves out and the correction moves is shown where it was if the frame comes first, and
      where the correction puts it if the correction does. */
  lemma OrderMatters(owner: Owner, hash: Hash, from: Motion, to: Motion)
    requires from != to && owner.playerId != "" && owner.characterId != ""
    ensures var before, after := World(10, from.position, [Entity("a", from, true)], []),
                                 World(11, from.position, [Entity("a", to, true)], []);
            var hud, hud' := Hud(10, owner, from, from.position, true), Hud(11, owner, from, from.position, true);
            var c := Installed(10, "x", View(hud, before), 1);
            var s, f := Snapshot(11, "y", Some(View(hud', after))), Frame(12, from, from.position, []);
            && Inv(c) && CorrectionRefused(c, s).None?
            && FrameFirst(c, s, hash, f).world.entities == [Entity("a", from, true)]
            && CorrectionFirst(c, s, hash, f).world.entities == [Entity("a", to, true)]
  {
    var before, after := World(10, from.position, [Entity("a", from, true)], []),
                         World(11, from.position, [Entity("a", to, true)], []);
    var hud, hud' := Hud(10, owner, from, from.position, true), Hud(11, owner, from, from.position, true);
    var c := Installed(10, "x", View(hud, before), 1);
    var s, f := Snapshot(11, "y", Some(View(hud', after))), Frame(12, from, from.position, []);
    EntityInEitherOrder(c, s, hash, f, 0);
    LastEntityIs(before.entities, 0);
    assert FrameFirst(c, s, hash, f).world.entities == [Entity("a", from, true)];
    assert CorrectionFirst(c, s, hash, f).world.entities == [Entity("a", to, true)];
  }
}
