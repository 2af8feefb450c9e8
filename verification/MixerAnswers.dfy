/** What the backend is told, in terms of what the caller asked for. */
module MixerAnswers {
  import opened Wrappers
  import opened Sounds
  import opened MixerRuns
  import opened MixerHistory
  import opened MixerStreams

  // ---- Fades ----

  lemma SlotQueues(s: State, k: nat, delta: int)
    requires k < |s.slots|
    ensures var r := AdvanceSlot(s, k, delta);
            && s.queued <= r.queued
            && (s.slots[k].active && s.slots[k].fade.Some? ==>
                  r.queued == s.queued + [Volume(IdAt(s, k), Gain(r.slots[k].volume, BusVolume(s, s.slots[k].bus)))])
  {
  }

  lemma {:induction false} AdvanceQueues(s: State, n: nat, delta: int, k: nat)
    requires n <= |s.slots| && k < n && s.slots[k].active && s.slots[k].fade.Some?
    ensures var r := AdvanceTo(s, n, delta);
            && s.queued <= r.queued
            && Volume(IdAt(s, k), Gain(r.slots[k].volume, BusVolume(s, s.slots[k].bus))) in r.queued[|s.queued|..]
  {
    hide AdvanceSlot, Gain;
    var before, r := AdvanceTo(s, n - 1, delta), AdvanceTo(s, n, delta);
    assert r == AdvanceSlot(before, n - 1, delta);
    LoopsExtend(s, n - 1, delta, "");
    LoopsKeepBuses(s, n - 1, delta, "");
    AdvanceAt(s, n - 1, delta, k);
    AdvanceAt(s, n, delta, k);
    SlotQueues(before, n - 1, delta);
    hide AdvanceTo;
    var c := Volume(IdAt(s, k), Gain(r.slots[k].volume, BusVolume(s, s.slots[k].bus)));
    if k < n - 1 {
      AdvanceQueues(s, n - 1, delta, k);
      StillQueued(s.queued, before.queued, r.queued, c);
    } else {
      assert before.slots[k] == s.slots[k];
      assert r.queued[|s.queued|..] == before.queued[|s.queued|..] + [c];
    }
  }

  lemma StillQueued(a: seq<Command>, b: seq<Command>, c: seq<Command>, x: Command)
    requires a <= b <= c && x in b[|a|..]
    ensures x in c[|a|..]
  {
    assert c == b + c[|b|..];
    assert c[|a|..] == b[|a|..] + c[|b|..];
  }

  lemma {:induction false} LoopsKeepBuses(s: State, n: nat, delta: int, text: string)
    requires n <= |s.slots|
    ensures AdvanceTo(s, n, delta).buses == s.buses && StopMembersTo(s, n, text).buses == s.buses
  {
    if n > 0 {
      LoopsKeepBuses(s, n - 1, delta, text);
    }
  }

  /** `x` is as far on the way from `v0` to `v` as `delta` is of `d`. */
  predicate OnTheWay(x: real, v0: real, v: real, delta: int, d: int) {
    (x - v0) * d as real == (v - v0) * delta as real
  }

  lemma Ramp(v0: real, v: real, delta: int, d: Duration)
    requires 0 < delta < d
    ensures OnTheWay(FadedVolume(Fade(v0, v, delta, d)), v0, v, delta, d)
  {
    var k := delta as real / d as real;
    assert k * d as real == delta as real;
    assert Gain(v - v0, k) * d as real == (v - v0) * (k * d as real);
  }

  /** Asking for a fade changes no volume and tells the backend nothing. */
  lemma FadeIsStored(s: State, id: SoundId, v: real, d: int)
    requires Live(s, id) && 0.0 <= v <= 1.0 && d > 0
    ensures
      var faded, slot := FadeTo(s, id, v, d), s.slots[id.slot];
      && faded.queued == s.queued && faded.buses == s.buses && |faded.slots| == |s.slots| && Live(faded, id)
      && (forall k :: 0 <= k < |s.slots| ==> faded.slots[k].volume == s.slots[k].volume)
      && faded.slots[id.slot] == slot.(fade := Some(Fade(slot.volume, v, 0, d)))
  {
  }

  /** What advancing makes of a fade that has just begun. */
  lemma FadeSteps(s: State, i: nat, delta: int)
    requires i < |s.slots| && s.slots[i].active && delta > 0
    requires s.slots[i].fade.Some? && s.slots[i].fade.value.elapsed == 0
    ensures
      var slot, fade := AdvanceSlot(s, i, delta).slots[i], s.slots[i].fade.value;
      && (delta < fade.duration ==>
            OnTheWay(slot.volume, fade.from, fade.to, delta, fade.duration) && slot.fade.Some?)
      && (delta >= fade.duration ==> slot.volume == fade.to && slot.fade.None?)
  {
    hide FadedVolume, Gain, OnTheWay;
    var fade := s.slots[i].fade.value.(elapsed := delta);
    if delta < fade.duration {
      Ramp(fade.from, fade.to, delta, fade.duration);
    } else {
      FadeEnds(fade);
    }
  }

  /** A fade runs evenly from the volume a sound has to the one asked for, in the time asked for, and the backend is
      told. Asking for it changes and tells nothing by itself. */
  lemma FadeGoesWhereTold(s: State, id: SoundId, v: real, d: int, delta: int)
    requires Inv(s) && Live(s, id) && 0.0 <= v <= 1.0 && d > 0 && delta > 0
    ensures
      var faded := FadeTo(s, id, v, d);
      && faded.queued == s.queued && |faded.slots| == |s.slots|
      && (forall k :: 0 <= k < |s.slots| ==> faded.slots[k].volume == s.slots[k].volume)
      && var r := Advance(faded, delta);
      && |r.slots| == |s.slots| && s.queued <= r.queued
      && var x, v0, bus := r.slots[id.slot].volume, s.slots[id.slot].volume, BusVolume(s, s.slots[id.slot].bus);
      && (delta < d ==> OnTheWay(x, v0, v, delta, d) && r.slots[id.slot].fade.Some?)
      && (delta >= d ==> x == v && r.slots[id.slot].fade.None?)
      && Gain(x, bus) == x * bus && Volume(id, Gain(x, bus)) in r.queued[|s.queued|..]
  {
    hide Inv, AdvanceTo, AdvanceSlot, FadeTo, FadedVolume, Gain, OnTheWay;
    var i := id.slot;
    var faded := FadeTo(s, id, v, d);
    FadeIsStored(s, id, v, d);
    AdvanceAt(faded, |s.slots|, delta, i);
    AdvanceQueues(faded, |s.slots|, delta, i);
    FadeSteps(faded, i, delta);
    GainIsProduct(Advance(faded, delta).slots[i].volume, BusVolume(s, s.slots[i].bus));
  }

  lemma GainIsProduct(volume: real, bus: real)
    ensures Gain(volume, bus) == volume * bus
  {
  }

  // ---- Requests ----

  /** Which sounds are played at all. */
  lemma PlayIsAccepted(format: string, data: Bytes, options: PlayOptions)
    ensures PlayError(format, data, options).None? <==>
            && format != "" && data != []
            && options.bus in ["", "music", "ui", "sfx", "ambience", "speech", "cinematic"]
            && 0.0 <= options.volume <= 1.0 && -1.0 <= options.pan <= 1.0
  {
  }

  /** The backend is told to play exactly what was asked for, on the bus asked for or the default one, under a handle
      that is live from then on. */
  lemma PlayTellsBackend(s: State, format: string, data: Bytes, options: PlayOptions)
    requires Inv(s) && PlayError(format, data, options).None?
    ensures
      var r := PlaySound(s, format, data, options);
      var bus := if options.bus == "" then "sfx" else options.bus;
      && |r.queued| == |s.queued| + 1 && r.queued[..|s.queued|] == s.queued
      && var c := r.queued[|s.queued|];
      && c.Play? && Live(r, c.id) && !Live(s, c.id)
      && c.format == format && c.data == data && c.pan == options.pan && c.loop == options.loop
      && c.stream == options.stream && c.volume == options.volume * BusVolume(s, bus)
      && r.slots[c.id.slot].bus == bus && r.slots[c.id.slot].volume == options.volume
      && r.slots[c.id.slot].group == options.group && r.slots[c.id.slot].fade.None?
  {
    ReserveTakes(s);
    var (q, i) := Reserve(s);
    GainIsProduct(options.volume, BusVolume(s, WithDefaultBus(options).bus));
    if i in s.free {
      assert !s.slots[i].active;
    }
    hide SessionsOk, GainsOk, RangesOk, Gain;
  }

  /** The backend is told to open exactly the stream asked for, at its bus's volume. */
  lemma OpenTellsBackend(s: State, rate: int, channels: int)
    requires Inv(s) && rate > 0 && channels > 0
    ensures
      var r := OpenPcm(s, rate, channels);
      && |r.queued| == |s.queued| + 1 && r.queued[..|s.queued|] == s.queued
      && var c := r.queued[|s.queued|];
      && c.PcmOpen? && Live(r, c.id) && !Live(s, c.id) && c.rate == rate && c.channels == channels
      && c.volume == BusVolume(s, "cinematic")
      && r.slots[c.id.slot].bus == "cinematic" && r.slots[c.id.slot].volume == 1.0
      && r.slots[c.id.slot].pcmRate == rate && r.slots[c.id.slot].pcmFrames == 0
  {
    ReserveTakes(s);
    var (q, i) := Reserve(s);
    if i in s.free {
      assert !s.slots[i].active;
    }
    hide SessionsOk, GainsOk, RangesOk;
  }

  /** Calls on a live sound tell the backend exactly what was asked for; calls on any other handle tell it nothing. */
  lemma CallsTellBackend(s: State, id: SoundId, data: Bytes, volume: real, pan: real)
    ensures Live(s, id) && data != [] && |data| % 2 == 0 ==>
              WritePcm(s, id, data).queued == s.queued + [PcmWrite(id, data)]
    ensures Live(s, id) && 0.0 <= volume <= 1.0 ==>
              && SetVolume(s, id, volume).queued == s.queued + [Volume(id, volume * BusVolume(s, s.slots[id.slot].bus))]
              && SetVolume(s, id, volume).slots[id.slot].volume == volume
    ensures Live(s, id) && -1.0 <= pan <= 1.0 ==> SetPan(s, id, pan).queued == s.queued + [Pan(id, pan)]
    ensures Live(s, id) ==> StopSound(s, id).queued == s.queued + [Stop(id)] && !Live(StopSound(s, id), id)
    ensures forall d :: d <= 0 ==> FadeTo(s, id, volume, d) == SetVolume(s, id, volume)
    ensures !Live(s, id) ==>
              && WritePcm(s, id, data) == s && SetVolume(s, id, volume) == s
              && SetPan(s, id, pan) == s && StopSound(s, id) == s
  {
    if Live(s, id) {
      GainIsProduct(volume, BusVolume(s, s.slots[id.slot].bus));
    }
  }

  // ---- Gains over runs ----

  /** The volume a bus was last set to, or full. */
  function LastBusVolume(ops: seq<Op>, bus: string): real {
    if ops == [] then 1.0
    else
      var op := ops[|ops| - 1];
      if op.BusOp? && op.bus == bus && bus in ["music", "ui", "sfx", "ambience", "speech", "cinematic"]
         && 0.0 <= op.volume <= 1.0
      then op.volume
      else LastBusVolume(ops[..|ops| - 1], bus)
  }

  lemma OpSetsBuses(s: State, op: Op, bus: string)
    requires Partitioned(s)
    ensures BusVolume(Apply(s, op), bus) ==
            if op.BusOp? && op.bus == bus && ValidBus(bus) && UnitRange(op.volume) then op.volume else BusVolume(s, bus)
  {
    var delta, group := if op.AdvanceOp? then op.delta else 0, if op.GroupOp? then op.group else "";
    LoopsKeepBuses(s, |s.slots|, delta, group);
    hide AdvanceTo, StopMembersTo, AdvanceSlot, Distinct, Partitioned, Gain, PlayError, SetVolume;
    CallsKeepBuses(s, op);
  }

  lemma CallsKeepBuses(s: State, op: Op)
    requires Partitioned(s)
    ensures op.PlayOp? || op.OpenOp? || op.VolumeOp? || op.FadeOp? ==> Apply(s, op).buses == s.buses
  {
  }

  lemma {:induction false} BusesAreAsSet(ops: seq<Op>, bus: string)
    ensures BusVolume(Reached(ops), bus) == LastBusVolume(ops, bus)
  {
    EmptyIsOk();
    if ops != [] {
      hide Inv, Apply;
      var before, op := ops[..|ops| - 1], ops[|ops| - 1];
      BusesAreAsSet(before, bus);
      IsPartitioned(Reached(before));
      OpSetsBuses(Reached(before), op, bus);
    }
  }

  lemma GainsOfInv(s: State, i: nat)
    requires Inv(s) && i < |s.slots|
    ensures GainOk(s, i)
  {
  }

  /** Over every run, the gain the backend was last told for a sound is the sound's own volume times the volume its bus
      was last set to, or its own volume if the bus never was. */
  lemma BackendGains(ops: seq<Op>, i: nat)
    requires i < |Reached(ops).slots| && Reached(ops).slots[i].active
    ensures var s := Reached(ops);
            && LastGain(s.queued, i).Some?
            && LastGain(s.queued, i).value == s.slots[i].volume * LastBusVolume(ops, s.slots[i].bus)
  {
    hide Inv, Reached, Gain, BusVolume, LastBusVolume;
    var s := Reached(ops);
    BusesAreAsSet(ops, s.slots[i].bus);
    GainsOfInv(s, i);
    GainIsProduct(s.slots[i].volume, LastBusVolume(ops, s.slots[i].bus));
  }
}
