/** The mixer's calls, and what every run of them guarantees. */
module MixerRuns {
  import opened Wrappers
  import opened Sounds

  // ---- Opening sounds ----

  function WithDefaultBus(options: PlayOptions): PlayOptions {
    if options.bus == "" then options.(bus := DEFAULT_BUS) else options
  }

  function PlayError(format: string, data: Bytes, options: PlayOptions): Option<AudioError> {
    if format == "" || data == [] then Some(EmptySound)
    else if !ValidBus(WithDefaultBus(options).bus) then Some(UnknownBus)
    else if !UnitRange(options.volume) then Some(BadVolume)
    else if !PanRange(options.pan) then Some(BadPan)
    else None
  }

  function PlaySound(s: State, format: string, data: Bytes, options: PlayOptions): State
    requires Partitioned(s)
  {
    if PlayError(format, data, options).Some? then s
    else
      var o := WithDefaultBus(options);
      var (r, i) := Reserve(s);
      var slot := r.slots[i].(active := true, bus := o.bus, volume := o.volume, group := o.group, fade := None);
      Use(r, i, slot, Play(IdAt(r, i), format, data, Gain(o.volume, BusVolume(s, o.bus)), o.pan, o.loop, o.stream))
  }

  /** The slot's group and fade are whatever its last sound left behind. */
  function OpenPcm(s: State, rate: int, channels: int): State
    requires Partitioned(s)
  {
    if rate <= 0 || channels <= 0 then s
    else
      var (r, i) := Reserve(s);
      var slot := r.slots[i].(active := true, bus := PCM_BUS, volume := 1.0, pcmRate := rate, pcmFrames := 0);
      Use(r, i, slot, PcmOpen(IdAt(r, i), rate, channels, BusVolume(s, PCM_BUS)))
  }

  // ---- Calls on a live sound ----

  function WritePcm(s: State, id: SoundId, data: Bytes): State {
    if data == [] || |data| % 2 != 0 || !Live(s, id) then s else Use(s, id.slot, s.slots[id.slot], PcmWrite(id, data))
  }

  function ReportFrames(s: State, id: SoundId, frames: int): State {
    if frames <= 0 || !Live(s, id) || s.slots[id.slot].pcmRate <= 0 then s
    else s.(slots := s.slots[id.slot := s.slots[id.slot].(pcmFrames := s.slots[id.slot].pcmFrames + frames)])
  }

  function SetVolume(s: State, id: SoundId, volume: real): State {
    if !UnitRange(volume) || !Live(s, id) then s
    else
      var slot := s.slots[id.slot].(volume := volume);
      Use(s, id.slot, slot, Volume(id, Gain(volume, BusVolume(s, slot.bus))))
  }

  function SetPan(s: State, id: SoundId, pan: real): State {
    if !PanRange(pan) || !Live(s, id) then s else Use(s, id.slot, s.slots[id.slot], Pan(id, pan))
  }

  function FadeTo(s: State, id: SoundId, volume: real, duration: int): State {
    if duration <= 0 then SetVolume(s, id, volume)
    else if !UnitRange(volume) || !Live(s, id) then s
    else
      var slot := s.slots[id.slot];
      s.(slots := s.slots[id.slot := slot.(fade := Some(Fade(slot.volume, volume, 0, duration)))])
  }

  function StopSound(s: State, id: SoundId): State {
    if Live(s, id) then Retire(s, id.slot) else s
  }

  // ---- Calls that visit every slot, in order ----

  function FadedVolume(fade: Fade): real {
    if fade.elapsed >= fade.duration then fade.to
    else fade.from + Gain(fade.to - fade.from, fade.elapsed as real / fade.duration as real)
  }

  function AdvanceSlot(s: State, i: nat, delta: int): (r: State)
    requires i < |s.slots|
    ensures |r.slots| == |s.slots|
  {
    var slot := s.slots[i];
    if !slot.active || slot.fade.None? then s
    else
      var fade := slot.fade.value.(elapsed := slot.fade.value.elapsed + delta);
      var left := if fade.elapsed >= fade.duration then None else Some(fade);
      var slot' := slot.(volume := FadedVolume(fade), fade := left);
      Use(s, i, slot', Volume(IdAt(s, i), Gain(slot'.volume, BusVolume(s, slot.bus))))
  }

  function AdvanceTo(s: State, n: nat, delta: int): (r: State)
    requires n <= |s.slots|
    ensures |r.slots| == |s.slots|
  {
    if n == 0 then s else AdvanceSlot(AdvanceTo(s, n - 1, delta), n - 1, delta)
  }

  function Advance(s: State, delta: int): State {
    if delta <= 0 then s else AdvanceTo(s, |s.slots|, delta)
  }

  function StopMember(s: State, i: nat, group: string): (r: State)
    requires i < |s.slots|
    ensures |r.slots| == |s.slots|
  {
    if s.slots[i].active && s.slots[i].group == group then Retire(s, i) else s
  }

  function StopMembersTo(s: State, n: nat, group: string): (r: State)
    requires n <= |s.slots|
    ensures |r.slots| == |s.slots|
  {
    if n == 0 then s else StopMember(StopMembersTo(s, n - 1, group), n - 1, group)
  }

  function StopGroup(s: State, group: string): State {
    if group == "" then s else StopMembersTo(s, |s.slots|, group)
  }

  /** Tells one sound on the bus its new gain. */
  function Retune(s: State, i: nat, bus: string): (r: State)
    requires i < |s.slots|
    ensures r.slots == s.slots && r.buses == s.buses
  {
    if s.slots[i].active && s.slots[i].bus == bus then
      Send(s, Volume(IdAt(s, i), Gain(s.slots[i].volume, BusVolume(s, bus))))
    else s
  }

  function RetuneTo(s: State, n: nat, bus: string): (r: State)
    requires n <= |s.slots|
    ensures r.slots == s.slots && r.buses == s.buses
  {
    if n == 0 then s else Retune(RetuneTo(s, n - 1, bus), n - 1, bus)
  }

  function SetBus(s: State, bus: string, volume: real): State {
    if !ValidBus(bus) || !UnitRange(volume) then s
    else RetuneTo(s.(buses := s.buses[bus := volume]), |s.slots|, bus)
  }

  /** The backend accepts `n` commands and, if any are left, refuses the next. */
  function Drain(s: State, n: nat): State
    requires n <= |s.pending|
  {
    s.(applied := s.applied + s.pending[..n], pending := s.pending[n..])
  }

  // ---- Runs ----

  datatype Op =
    | PlayOp(format: string, data: Bytes, options: PlayOptions) | OpenOp(rate: int, channels: int)
    | WriteOp(id: SoundId, data: Bytes) | ReportOp(id: SoundId, frames: int)
    | VolumeOp(id: SoundId, volume: real) | PanOp(id: SoundId, pan: real)
    | FadeOp(id: SoundId, volume: real, duration: int)
    | StopOp(id: SoundId) | AdvanceOp(delta: int) | GroupOp(group: string) | BusOp(bus: string, volume: real)
    | DrainOp(accepted: nat)

  function Apply(s: State, op: Op): State
    requires Partitioned(s)
  {
    match op
    case PlayOp(format, data, options) => PlaySound(s, format, data, options)
    case OpenOp(rate, channels) => OpenPcm(s, rate, channels)
    case WriteOp(id, data) => WritePcm(s, id, data)
    case ReportOp(id, frames) => ReportFrames(s, id, frames)
    case VolumeOp(id, volume) => SetVolume(s, id, volume)
    case PanOp(id, pan) => SetPan(s, id, pan)
    case FadeOp(id, volume, duration) => FadeTo(s, id, volume, duration)
    case StopOp(id) => StopSound(s, id)
    case AdvanceOp(delta) => Advance(s, delta)
    case GroupOp(group) => StopGroup(s, group)
    case BusOp(bus, volume) => SetBus(s, bus, volume)
    case DrainOp(accepted) => Drain(s, if accepted <= |s.pending| then accepted else |s.pending|)
  }

  /** Every state a run reaches from a state that satisfies the invariant satisfies it. */
  ghost function Run(s: State, ops: seq<Op>): (r: State)
    requires Inv(s)
    ensures Inv(r)
  {
    if ops == [] then s
    else
      var before := Run(s, ops[..|ops| - 1]);
      OpKeepsInv(before, ops[|ops| - 1]);
      Apply(before, ops[|ops| - 1])
  }

  // ---- Each call keeps the invariant ----

  lemma EmptyIsOk()
    ensures Inv(Empty())
  {
    assert forall i: nat :: SessionOk(Empty(), i);
  }

  lemma UseKeepsInv(s: State, i: nat, slot: Slot, c: Command)
    requires Inv(s) && i < |s.slots| && s.slots[i].active && slot.active && slot.generation == s.slots[i].generation
    requires !Opens(c) && !c.Stop? && c.id == IdAt(s, i) && SlotRange(slot) && CommandRange(c)
    requires if c.Volume? then c.volume == Gain(slot.volume, BusVolume(s, slot.bus))
             else slot.volume == s.slots[i].volume && slot.bus == s.slots[i].bus
    ensures Inv(Use(s, i, slot, c))
  {
    hide Core, GainsOk, RangesOk;
    UseKeepsCore(s, i, slot, c);
    UseKeepsGains(s, i, slot, c);
    UseKeepsRanges(s, i, slot, c);
  }

  lemma RetireKeepsInv(s: State, i: nat)
    requires Inv(s) && i < |s.slots| && s.slots[i].active
    ensures Inv(Retire(s, i))
  {
    RetireKeepsCore(s, i);
    hide Core;
    var slot := s.slots[i].(active := false, generation := NextGeneration(s.slots[i].generation));
    var freed := s.(free := s.free + [i]);
    assert GainsOk(freed) by { assert forall k :: 0 <= k < |s.slots| ==> GainOk(s, k) == GainOk(freed, k); }
    UseKeepsGains(freed, i, slot, Stop(IdAt(s, i)));
    UseKeepsRanges(freed, i, slot, Stop(IdAt(s, i)));
  }

  lemma OccupyKeepsInv(s: State, slot: Slot, c: Command)
    requires Inv(s)
    requires var (r, i) := Reserve(s);
             slot.active && slot.generation == r.slots[i].generation && Opens(c) && c.id == IdAt(r, i)
    requires c.volume == Gain(slot.volume, BusVolume(s, slot.bus)) && SlotRange(slot) && CommandRange(c)
    ensures var (r, i) := Reserve(s);
            Inv(Use(r, i, slot, c))
  {
    var (r, i) := Reserve(s);
    OccupyKeepsCore(s, slot, c);
    hide Core;
    forall k | 0 <= k < |r.slots| ensures GainOk(r, k) {
      assert k < |s.slots| ==> GainOk(s, k);
    }
    UseKeepsGains(r, i, slot, c);
    UseKeepsRanges(r, i, slot, c);
  }

  lemma ReserveIsInRange(s: State)
    requires Inv(s)
    ensures var (r, i) := Reserve(s);
            (r.slots[i] == FreshSlot() || (i < |s.slots| && r.slots[i] == s.slots[i])) && SlotRange(r.slots[i])
  {
    if s.free != [] {
      assert s.free[|s.free| - 1] in s.free;
    }
  }

  lemma BusRange(s: State, bus: string)
    requires RangesOk(s)
    ensures UnitRange(BusVolume(s, bus))
  {
  }

  lemma PlayKeepsInv(s: State, format: string, data: Bytes, options: PlayOptions)
    requires Inv(s)
    ensures Inv(PlaySound(s, format, data, options))
  {
    ReserveIsInRange(s);
    if PlayError(format, data, options).None? {
      var o := WithDefaultBus(options);
      BusRange(s, o.bus);
      GainRange(o.volume, BusVolume(s, o.bus));
      hide Inv, Gain;
      var (r, i) := Reserve(s);
      var slot := r.slots[i].(active := true, bus := o.bus, volume := o.volume, group := o.group, fade := None);
      OccupyKeepsInv(s, slot,
                     Play(IdAt(r, i), format, data, Gain(o.volume, BusVolume(s, o.bus)), o.pan, o.loop, o.stream));
    }
  }

  lemma OpenKeepsInv(s: State, rate: int, channels: int)
    requires Inv(s)
    ensures Inv(OpenPcm(s, rate, channels))
  {
    ReserveIsInRange(s);
    if rate > 0 && channels > 0 {
      BusRange(s, PCM_BUS);
      hide Inv;
      var (r, i) := Reserve(s);
      var slot := r.slots[i].(active := true, bus := PCM_BUS, volume := 1.0, pcmRate := rate, pcmFrames := 0);
      OccupyKeepsInv(s, slot, PcmOpen(IdAt(r, i), rate, channels, BusVolume(s, PCM_BUS)));
    }
  }

  lemma CallKeepsInv(s: State, id: SoundId, data: Bytes, volume: real, pan: real)
    requires Inv(s)
    ensures Inv(WritePcm(s, id, data)) && Inv(SetVolume(s, id, volume)) && Inv(SetPan(s, id, pan))
    ensures Inv(StopSound(s, id))
  {
    if Live(s, id) {
      var slot := s.slots[id.slot];
      assert SlotRange(slot);
      BusRange(s, slot.bus);
      hide Inv, Gain;
      RetireKeepsInv(s, id.slot);
      UseKeepsInv(s, id.slot, slot, PcmWrite(id, data));
      if UnitRange(volume) {
        GainRange(volume, BusVolume(s, slot.bus));
        UseKeepsInv(s, id.slot, slot.(volume := volume), Volume(id, Gain(volume, BusVolume(s, slot.bus))));
      }
      if PanRange(pan) {
        UseKeepsInv(s, id.slot, slot, Pan(id, pan));
      }
    }
  }

  /** Changing what no command reports: frames and fades. */
  lemma TouchKeepsInv(s: State, i: nat, slot: Slot)
    requires Inv(s) && i < |s.slots| && SlotRange(slot)
    requires slot.active == s.slots[i].active && slot.generation == s.slots[i].generation
    requires slot.volume == s.slots[i].volume && slot.bus == s.slots[i].bus
    ensures Inv(s.(slots := s.slots[i := slot]))
  {
    var u := s.(slots := s.slots[i := slot]);
    forall k: nat ensures SessionOk(u, k) {
      assert SessionOk(s, k);
    }
    forall k | 0 <= k < |u.slots| ensures GainOk(u, k) {
      assert GainOk(s, k);
    }
  }

  lemma Scaled(distance: real, k: real)
    requires UnitRange(k)
    ensures distance >= 0.0 ==> 0.0 <= Gain(distance, k) <= distance
    ensures distance <= 0.0 ==> distance <= Gain(distance, k) <= 0.0
  {
    if distance >= 0.0 {
      assert distance * (1.0 - k) >= 0.0;
    } else {
      assert distance * (1.0 - k) <= 0.0;
    }
  }

  lemma Ratio(part: int, whole: Duration)
    requires 0 <= part < whole
    ensures UnitRange(part as real / whole as real)
  {
    var q := part as real / whole as real;
    assert q * whole as real == part as real;
  }

  predicate Between(from: real, volume: real, to: real) {
    from <= volume <= to || to <= volume <= from
  }

  /** A fade never leaves the stretch between where it began and where it ends. */
  lemma FadedVolumeIsBetween(fade: Fade)
    requires fade.elapsed >= 0
    ensures Between(fade.from, FadedVolume(fade), fade.to)
  {
    if fade.elapsed < fade.duration {
      Ratio(fade.elapsed, fade.duration);
      hide Gain;
      Scaled(fade.to - fade.from, fade.elapsed as real / fade.duration as real);
    }
  }

  /** Advancing time moves a fading sound to a volume between the ends of its fade, and tells the backend just that. */
  lemma FadeStaysBetween(s: State, i: nat, delta: int)
    requires Inv(s) && i < |s.slots| && s.slots[i].active && s.slots[i].fade.Some? && delta > 0
    ensures var r, fade := AdvanceSlot(s, i, delta), s.slots[i].fade.value;
            && Between(fade.from, r.slots[i].volume, fade.to)
            && r.queued == s.queued + [Volume(IdAt(s, i), Gain(r.slots[i].volume, BusVolume(s, s.slots[i].bus)))]
            && (fade.elapsed + delta >= fade.duration ==> r.slots[i].volume == fade.to && r.slots[i].fade == None)
            && (fade.elapsed + delta < fade.duration ==>
                  r.slots[i].fade == Some(fade.(elapsed := fade.elapsed + delta)))
  {
    var fade := s.slots[i].fade.value;
    assert SlotRange(s.slots[i]);
    hide FadedVolume, Gain, Inv;
    FadedVolumeIsBetween(fade.(elapsed := fade.elapsed + delta));
    FadeEnds(fade.(elapsed := fade.elapsed + delta));
  }

  lemma FadeEnds(fade: Fade)
    ensures fade.elapsed >= fade.duration ==> FadedVolume(fade) == fade.to
  {
  }

  lemma AdvanceSlotKeepsInv(s: State, i: nat, delta: int)
    requires Inv(s) && i < |s.slots| && delta > 0
    ensures Inv(AdvanceSlot(s, i, delta))
  {
    var slot := s.slots[i];
    if slot.active && slot.fade.Some? {
      assert SlotRange(slot);
      BusRange(s, slot.bus);
      var fade := slot.fade.value.(elapsed := slot.fade.value.elapsed + delta);
      FadedVolumeIsBetween(fade);
      hide Inv, Gain, FadedVolume;
      GainRange(FadedVolume(fade), BusVolume(s, slot.bus));
      var left := if fade.elapsed >= fade.duration then None else Some(fade);
      var slot' := slot.(volume := FadedVolume(fade), fade := left);
      UseKeepsInv(s, i, slot', Volume(IdAt(s, i), Gain(slot'.volume, BusVolume(s, slot.bus))));
    }
  }

  lemma {:induction false} AdvanceKeepsInv(s: State, n: nat, delta: int)
    requires Inv(s) && n <= |s.slots| && delta > 0
    ensures Inv(AdvanceTo(s, n, delta))
  {
    hide Inv, AdvanceSlot;
    if n > 0 {
      AdvanceKeepsInv(s, n - 1, delta);
      AdvanceSlotKeepsInv(AdvanceTo(s, n - 1, delta), n - 1, delta);
    }
  }

  lemma {:induction false} StopMembersKeepInv(s: State, n: nat, group: string)
    requires Inv(s) && n <= |s.slots|
    ensures Inv(StopMembersTo(s, n, group))
  {
    hide Inv, Retire;
    if n > 0 {
      StopMembersKeepInv(s, n - 1, group);
      var t := StopMembersTo(s, n - 1, group);
      if t.slots[n - 1].active {
        RetireKeepsInv(t, n - 1);
      }
    }
  }

  /** Halfway through a bus change the sounds not yet told still play at the old gain. */
  predicate GainsPartly(s: State, n: nat, bus: string) {
    forall k :: 0 <= k < |s.slots| && (k < n || s.slots[k].bus != bus) ==> GainOk(s, k)
  }

  lemma RetuneKeeps(s: State, n: nat, bus: string)
    requires Core(s) && RangesOk(s) && n < |s.slots| && GainsPartly(s, n, bus)
    ensures var r := Retune(s, n, bus);
            Core(r) && RangesOk(r) && GainsPartly(r, n + 1, bus)
  {
    if s.slots[n].active && s.slots[n].bus == bus {
      assert s.slots[n := s.slots[n]] == s.slots;
      assert SlotRange(s.slots[n]);
      BusRange(s, bus);
      GainRange(s.slots[n].volume, BusVolume(s, bus));
      var c := Volume(IdAt(s, n), Gain(s.slots[n].volume, BusVolume(s, bus)));
      hide Gain, GainOk;
      UseKeepsCore(s, n, s.slots[n], c);
      UseKeepsRanges(s, n, s.slots[n], c);
      UseSetsGain(s, n, s.slots[n], c);
      var r := Use(s, n, s.slots[n], c);
      forall k | 0 <= k < |s.slots| && k != n && (k < n || s.slots[k].bus != bus) ensures GainOk(r, k) {
        UseKeepsOtherGains(s, n, s.slots[n], c, k);
      }
    }
  }

  lemma {:induction false} RetuneToKeeps(s: State, n: nat, bus: string)
    requires Core(s) && RangesOk(s) && n <= |s.slots| && GainsPartly(s, 0, bus)
    ensures var r := RetuneTo(s, n, bus);
            Core(r) && RangesOk(r) && GainsPartly(r, n, bus)
  {
    hide Core, RangesOk, GainsPartly, Retune, GainOk, SlotRange;
    if n > 0 {
      RetuneToKeeps(s, n - 1, bus);
      RetuneKeeps(RetuneTo(s, n - 1, bus), n - 1, bus);
    }
  }

  lemma BusKeepsInv(s: State, bus: string, volume: real)
    requires Inv(s)
    ensures Inv(SetBus(s, bus, volume))
  {
    if ValidBus(bus) && UnitRange(volume) {
      var t := s.(buses := s.buses[bus := volume]);
      forall k: nat ensures SessionOk(t, k) {
        assert SessionOk(s, k);
      }
      forall k | 0 <= k < |s.slots| && s.slots[k].bus != bus ensures GainOk(t, k) {
        assert GainOk(s, k);
      }
      hide SessionsOk, GainOk, SessionOk;
      RetuneToKeeps(t, |s.slots|, bus);
    }
  }

  lemma DrainKeepsInv(s: State, n: nat)
    requires Inv(s) && n <= |s.pending|
    ensures Inv(Drain(s, n))
  {
    var d := Drain(s, n);
    assert d.applied + d.pending == s.applied + s.pending;
    forall k: nat ensures SessionOk(d, k) {
      assert SessionOk(s, k);
    }
    forall k | 0 <= k < |s.slots| ensures GainOk(d, k) {
      assert GainOk(s, k);
    }
  }

  lemma QuietKeepsInv(s: State, id: SoundId, frames: int, volume: real, duration: int)
    requires Inv(s)
    ensures Inv(ReportFrames(s, id, frames)) && Inv(FadeTo(s, id, volume, duration))
  {
    hide Inv, SlotRange, SetVolume;
    CallKeepsInv(s, id, [], volume, 0.0);
    if Live(s, id) {
      var slot := s.slots[id.slot];
      LiveSlotRange(s, id.slot, frames, volume, duration);
      TouchKeepsInv(s, id.slot, slot.(pcmFrames := slot.pcmFrames + frames));
      if duration > 0 && UnitRange(volume) {
        TouchKeepsInv(s, id.slot, slot.(fade := Some(Fade(slot.volume, volume, 0, duration))));
      }
    }
  }

  lemma LiveSlotRange(s: State, i: nat, frames: int, volume: real, duration: int)
    requires Inv(s) && i < |s.slots|
    ensures var slot := s.slots[i];
            && SlotRange(slot.(pcmFrames := slot.pcmFrames + frames))
            && (UnitRange(volume) && duration > 0 ==>
                  SlotRange(slot.(fade := Some(Fade(slot.volume, volume, 0, duration)))))
  {
    assert SlotRange(s.slots[i]);
  }

  lemma OpKeepsInv(s: State, op: Op)
    requires Inv(s)
    ensures Inv(Apply(s, op))
  {
    hide Core, GainsOk, RangesOk;
    match op
    case PlayOp(format, data, options) => PlayKeepsInv(s, format, data, options);
    case OpenOp(rate, channels) => OpenKeepsInv(s, rate, channels);
    case WriteOp(id, data) => CallKeepsInv(s, id, data, 0.0, 0.0);
    case ReportOp(id, frames) => QuietKeepsInv(s, id, frames, 0.0, 0);
    case VolumeOp(id, volume) => CallKeepsInv(s, id, [], volume, 0.0);
    case PanOp(id, pan) => CallKeepsInv(s, id, [], 0.0, pan);
    case FadeOp(id, volume, duration) => QuietKeepsInv(s, id, 0, volume, duration);
    case StopOp(id) => CallKeepsInv(s, id, [], 0.0, 0.0);
    case AdvanceOp(delta) => if delta > 0 { AdvanceKeepsInv(s, |s.slots|, delta); }
    case GroupOp(group) => StopMembersKeepInv(s, |s.slots|, group);
    case BusOp(bus, volume) => BusKeepsInv(s, bus, volume);
    case DrainOp(accepted) => DrainKeepsInv(s, if accepted <= |s.pending| then accepted else |s.pending|);
  }
}
