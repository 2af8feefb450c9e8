/** The mixer's slots, free list and command queue as values, and what every sequence of calls keeps. */
module Sounds {
  import opened Wrappers

  /** A handle names a slot and the generation it was issued for. */
  datatype SoundId = SoundId(slot: nat, generation: nat)

  type Bytes = seq<bv8>

  datatype Command =
    | PcmOpen(id: SoundId, rate: int, channels: int, volume: real)
    | Play(id: SoundId, format: string, data: Bytes, volume: real, pan: real, loop: bool, stream: bool)
    | PcmWrite(id: SoundId, data: Bytes)
    | Volume(id: SoundId, volume: real)
    | Pan(id: SoundId, pan: real)
    | Stop(id: SoundId)

  type Duration = ns: int | ns > 0 witness 1

  datatype Fade = Fade(from: real, to: real, elapsed: int, duration: Duration)

  datatype Slot = Slot(generation: nat, active: bool, bus: string, volume: real, group: string, fade: Option<Fade>,
                       pcmRate: int, pcmFrames: int)

  datatype PlayOptions = PlayOptions(bus: string, volume: real, pan: real, loop: bool, group: string, stream: bool)

  datatype AudioError = EmptySound | UnknownBus | BadVolume | BadPan | BadStream | BadSamples | BadFrames | NotPcm
                      | BadSlot | StaleSound | NoGroup | NoBackend | BackendFailed

  /** `queued` is every command ever queued and `applied` every command the backend has accepted. */
  datatype State = State(slots: seq<Slot>, free: seq<nat>, pending: seq<Command>, buses: map<string, real>,
                         queued: seq<Command>, applied: seq<Command>)

  const GENERATIONS: nat := 0x1_0000_0000
  const DEFAULT_BUS: string := "sfx"
  const PCM_BUS: string := "cinematic"

  // ---- Pieces of the operations ----

  function Empty(): State {
    State([], [], [], map[], [], [])
  }

  predicate ValidBus(bus: string) {
    bus in ["music", "ui", DEFAULT_BUS, "ambience", "speech", PCM_BUS]
  }

  predicate UnitRange(volume: real) {
    0.0 <= volume <= 1.0
  }

  predicate PanRange(pan: real) {
    -1.0 <= pan <= 1.0
  }

  function BusVolume(s: State, bus: string): real {
    if bus in s.buses then s.buses[bus] else 1.0
  }

  function Gain(volume: real, bus: real): real {
    volume * bus
  }

  function Send(s: State, c: Command): State {
    s.(pending := s.pending + [c], queued := s.queued + [c])
  }

  /** 32-bit increment that skips zero. */
  function NextGeneration(generation: nat): nat {
    var next := (generation + 1) % GENERATIONS;
    if next == 0 then 1 else next
  }

  function FreshSlot(): Slot {
    Slot(1, false, "", 0.0, "", None, 0, 0)
  }

  /** The most recently freed slot, or a new one at the end. */
  function Reserve(s: State): (r: (State, nat))
    requires Partitioned(s)
    ensures r.1 < |r.0.slots|
  {
    if s.free == [] then (s.(slots := s.slots + [FreshSlot()]), |s.slots|)
    else
      var last := s.free[|s.free| - 1];
      assert last in s.free;
      (s.(free := s.free[..|s.free| - 1]), last)
  }

  /** Sends a command about slot `i` with what the slot becomes. */
  function Use(s: State, i: nat, slot: Slot, c: Command): State
    requires i < |s.slots|
  {
    Send(s.(slots := s.slots[i := slot]), c)
  }

  function IdAt(s: State, i: nat): SoundId
    requires i < |s.slots|
  {
    SoundId(i, s.slots[i].generation)
  }

  function Retire(s: State, i: nat): State
    requires i < |s.slots|
  {
    var slot := s.slots[i].(active := false, generation := NextGeneration(s.slots[i].generation));
    Use(s.(free := s.free + [i]), i, slot, Stop(IdAt(s, i)))
  }

  predicate Live(s: State, id: SoundId) {
    id.slot < |s.slots| && s.slots[id.slot].active && s.slots[id.slot].generation == id.generation
  }

  function SoundError(s: State, id: SoundId): Option<AudioError> {
    if id.slot >= |s.slots| then Some(BadSlot) else if !Live(s, id) then Some(StaleSound) else None
  }

  // ---- The sessions of a slot ----

  predicate Opens(c: Command) {
    c.PcmOpen? || c.Play?
  }

  /** Where a slot's command stream stands: how many sessions are over and whether one is open. */
  datatype Session = Session(done: nat, open: bool) | Broken

  /** The generation the k-th session of a slot carries. */
  function Generation(k: nat): nat {
    1 + k % (GENERATIONS - 1)
  }

  /** A session is one opening command, then only writes, volumes and pans, then one stop, all under one generation. */
  function Next(t: Session, c: Command): Session {
    if t.Broken? || c.id.generation != Generation(t.done) then Broken
    else if !t.open then (if Opens(c) then Session(t.done, true) else Broken)
    else if Opens(c) then Broken
    else if c.Stop? then Session(t.done + 1, false)
    else t
  }

  function Track(commands: seq<Command>, slot: nat): Session {
    if commands == [] then Session(0, false)
    else
      var t := Track(commands[..|commands| - 1], slot);
      var c := commands[|commands| - 1];
      if c.id.slot == slot then Next(t, c) else t
  }

  /** The gain the backend was last told to play a slot at. */
  function LastGain(commands: seq<Command>, slot: nat): Option<real> {
    if commands == [] then None
    else
      var c := commands[|commands| - 1];
      if c.id.slot == slot && (Opens(c) || c.Volume?) then Some(c.volume)
      else LastGain(commands[..|commands| - 1], slot)
  }

  // ---- What every state satisfies ----

  predicate Distinct(free: seq<nat>) {
    forall i, j :: 0 <= i < j < |free| ==> free[i] != free[j]
  }

  /** Every slot is either active or on the free list, once. */
  predicate Partitioned(s: State) {
    && Distinct(s.free)
    && (forall i :: i in s.free ==> i < |s.slots| && !s.slots[i].active)
    && (forall i :: 0 <= i < |s.slots| && !s.slots[i].active ==> i in s.free)
  }

  predicate SessionOk(s: State, i: nat) {
    var t := Track(s.queued, i);
    && t.Session?
    && if i < |s.slots| then t.open == s.slots[i].active && s.slots[i].generation == Generation(t.done)
       else t == Session(0, false)
  }

  ghost predicate SessionsOk(s: State) {
    forall i: nat :: SessionOk(s, i)
  }

  /** Each command is applied once and in order, however often a drain failed. */
  predicate Delivered(s: State) {
    s.applied + s.pending == s.queued
  }

  predicate GainOk(s: State, i: nat)
    requires i < |s.slots|
  {
    s.slots[i].active ==> LastGain(s.queued, i) == Some(Gain(s.slots[i].volume, BusVolume(s, s.slots[i].bus)))
  }

  /** The backend was last told each sound's own volume times its bus's. */
  predicate GainsOk(s: State) {
    forall i :: 0 <= i < |s.slots| ==> GainOk(s, i)
  }

  predicate FadeOk(fade: Fade) {
    UnitRange(fade.from) && UnitRange(fade.to) && 0 <= fade.elapsed < fade.duration
  }

  predicate SlotRange(slot: Slot) {
    UnitRange(slot.volume) && (slot.fade.Some? ==> FadeOk(slot.fade.value))
  }

  predicate CommandRange(c: Command) {
    && (Opens(c) || c.Volume? ==> UnitRange(c.volume))
    && (c.Play? || c.Pan? ==> PanRange(c.pan))
  }

  /** Every gain is a proportion and every pan is between left and right. */
  predicate RangesOk(s: State) {
    && (forall i :: 0 <= i < |s.slots| ==> SlotRange(s.slots[i]))
    && (forall bus :: bus in s.buses ==> UnitRange(s.buses[bus]))
    && (forall c :: c in s.queued ==> CommandRange(c))
  }

  ghost predicate Core(s: State) {
    Partitioned(s) && SessionsOk(s) && Delivered(s)
  }

  ghost predicate Inv(s: State) {
    Core(s) && GainsOk(s) && RangesOk(s)
  }

  // ---- Sending one command ----

  lemma SendSteps(commands: seq<Command>, c: Command, slot: nat)
    ensures Track(commands + [c], slot) ==
            if c.id.slot == slot then Next(Track(commands, slot), c) else Track(commands, slot)
    ensures LastGain(commands + [c], slot) ==
            if c.id.slot == slot && (Opens(c) || c.Volume?) then Some(c.volume) else LastGain(commands, slot)
  {
    assert (commands + [c])[..|commands + [c]| - 1] == commands;
  }

  lemma {:induction false} GenerationAdvances(k: nat)
    ensures NextGeneration(Generation(k)) == Generation(k + 1)
    ensures 1 <= Generation(k) < GENERATIONS
  {
    var m := GENERATIONS - 1;
    var r := k % m;
    assert (k + 1) % m == if r == m - 1 then 0 else r + 1;
  }

  /** Two sessions share a generation exactly when they are a whole number of cycles apart. */
  lemma GenerationRepeats(k: nat, k': nat)
    requires k <= k' && Generation(k) == Generation(k')
    ensures k == k' || k' >= k + GENERATIONS - 1
  {
    var m := GENERATIONS - 1;
    assert k == k / m * m + k % m && k' == k' / m * m + k' % m;
  }

  lemma OccupyKeepsCore(s: State, slot: Slot, c: Command)
    requires Core(s)
    requires var (r, i) := Reserve(s);
             slot.active && slot.generation == r.slots[i].generation && Opens(c) && c.id == IdAt(r, i)
    ensures var (r, i) := Reserve(s);
            Core(Use(r, i, slot, c))
  {
    var (r, i) := Reserve(s);
    var u := Use(r, i, slot, c);
    if s.free != [] {
      assert s.free[|s.free| - 1] in s.free;
    }
    assert SessionOk(s, i);
    forall k: nat ensures SessionOk(u, k) {
      assert SessionOk(s, k);
      SendSteps(s.queued, c, k);
    }
    OccupyKeepsPartition(s, slot, c);
  }

  lemma OccupyKeepsPartition(s: State, slot: Slot, c: Command)
    requires Partitioned(s)
    requires slot.active
    ensures var (r, i) := Reserve(s);
            Partitioned(Use(r, i, slot, c))
  {
    hide Track, Next;
    var (r, i) := Reserve(s);
    var u := Use(r, i, slot, c);
    if s.free != [] {
      var last := |s.free| - 1;
      assert s.free == s.free[..last] + [i];
      forall k | 0 <= k < |u.slots| && !u.slots[k].active ensures k in u.free {
        assert k in s.free && k != i;
      }
      forall k | k in u.free ensures k < |u.slots| && !u.slots[k].active {
        assert k in s.free && k != i;
      }
    }
  }

  lemma UseKeepsCore(s: State, i: nat, slot: Slot, c: Command)
    requires Core(s) && i < |s.slots| && s.slots[i].active
    requires slot.active && slot.generation == s.slots[i].generation
    requires !Opens(c) && !c.Stop? && c.id == IdAt(s, i)
    ensures Core(Use(s, i, slot, c))
  {
    var u := Use(s, i, slot, c);
    forall k: nat ensures SessionOk(u, k) {
      assert SessionOk(s, k) && SessionOk(s, i);
      SendSteps(s.queued, c, k);
    }
  }

  lemma RetireKeepsCore(s: State, i: nat)
    requires Core(s) && i < |s.slots| && s.slots[i].active
    ensures Core(Retire(s, i))
  {
    var u := Retire(s, i);
    assert SessionOk(s, i);
    forall k: nat ensures SessionOk(u, k) {
      assert SessionOk(s, k);
      SendSteps(s.queued, Stop(IdAt(s, i)), k);
      GenerationAdvances(Track(s.queued, i).done);
    }
    assert i !in s.free;
  }

  /** A command changes the gain of its own slot only. */
  lemma UseKeepsOtherGains(s: State, i: nat, slot: Slot, c: Command, k: nat)
    requires i < |s.slots| && c.id.slot == i && k < |s.slots| && k != i && GainOk(s, k)
    ensures GainOk(Use(s, i, slot, c), k)
  {
    SendSteps(s.queued, c, k);
  }

  lemma UseSetsGain(s: State, i: nat, slot: Slot, c: Command)
    requires i < |s.slots| && c.id.slot == i
    requires if Opens(c) || c.Volume? then c.volume == Gain(slot.volume, BusVolume(s, slot.bus))
             else if slot.active then
               GainOk(s, i) && s.slots[i].active && slot.volume == s.slots[i].volume && slot.bus == s.slots[i].bus
             else true
    ensures GainOk(Use(s, i, slot, c), i)
  {
    SendSteps(s.queued, c, i);
  }

  lemma UseKeepsGains(s: State, i: nat, slot: Slot, c: Command)
    requires GainsOk(s) && i < |s.slots| && c.id.slot == i
    requires if Opens(c) || c.Volume? then c.volume == Gain(slot.volume, BusVolume(s, slot.bus))
             else !slot.active || (s.slots[i].active && slot.volume == s.slots[i].volume && slot.bus == s.slots[i].bus)
    ensures GainsOk(Use(s, i, slot, c))
  {
    hide GainOk;
    forall k | 0 <= k < |s.slots| ensures GainOk(Use(s, i, slot, c), k) {
      if k == i {
        UseSetsGain(s, i, slot, c);
      } else {
        UseKeepsOtherGains(s, i, slot, c, k);
      }
    }
  }

  lemma GainRange(volume: real, bus: real)
    requires UnitRange(volume) && UnitRange(bus)
    ensures UnitRange(Gain(volume, bus))
  {
    assert 0.0 <= volume * bus <= 1.0 * bus;
  }

  lemma UseKeepsRanges(s: State, i: nat, slot: Slot, c: Command)
    requires RangesOk(s) && i < |s.slots| && SlotRange(slot) && CommandRange(c)
    ensures RangesOk(Use(s, i, slot, c))
  {
  }
}
