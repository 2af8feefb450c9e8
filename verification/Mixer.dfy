/** The mixer as it is built: slots, free list and queue updated in place. Each method does to the state what the
    function of the same name does. */
module AudioMixer {
  import opened Wrappers
  import opened Sounds
  import opened MixerRuns

  class Mixer {
    var slots: seq<Slot>
    var free: seq<nat>
    var pending: seq<Command>
    var buses: map<string, real>
    ghost var queued: seq<Command>
    ghost var applied: seq<Command>

    ghost function View(): State
      reads this
    {
      State(slots, free, pending, buses, queued, applied)
    }

    ghost predicate Valid()
      reads this
    {
      Inv(View())
    }

    constructor ()
      ensures Valid() && View() == Empty()
    {
      slots, free, pending, buses, queued, applied := [], [], [], map[], [], [];
      EmptyIsOk();
    }

    // ---- Slots ----

    method Queue(c: Command)
      modifies this`pending, this`queued
      ensures View() == Send(old(View()), c)
    {
      pending := pending + [c];
      queued := queued + [c];
    }

    method ReserveSlot() returns (index: nat)
      requires Partitioned(View())
      modifies this`slots, this`free
      ensures (View(), index) == Reserve(old(View()))
    {
      if |free| == 0 {
        index := |slots|;
        slots := slots + [FreshSlot()];
        return;
      }
      var lastFree := |free| - 1;
      index := free[lastFree];
      free := free[..lastFree];
    }

    method RetireSlot(index: nat)
      requires index < |slots|
      modifies this`slots, this`free, this`pending, this`queued
      ensures View() == Retire(old(View()), index)
    {
      var entry := slots[index];
      var id := SoundId(index, entry.generation);
      slots := slots[index := entry.(active := false, generation := NextGeneration(entry.generation))];
      free := free + [index];
      Queue(Stop(id));
    }

    method ValidateSound(id: SoundId) returns (error: Option<AudioError>)
      ensures error == SoundError(View(), id)
      ensures error.None? <==> Live(View(), id)
    {
      if id.slot >= |slots| {
        return Some(BadSlot);
      }
      var entry := slots[id.slot];
      if !entry.active || entry.generation != id.generation {
        return Some(StaleSound);
      }
      error := None;
    }

    // ---- Opening ----

    method PlayWithOptions(format: string, data: Bytes, options: PlayOptions) returns (r: Result<SoundId, AudioError>)
      requires Valid()
      modifies this
      ensures Valid() && View() == PlaySound(old(View()), format, data, options)
      ensures r == match PlayError(format, data, options)
                   case Some(error) => Err(error)
                   case None => Ok(var (s, i) := Reserve(old(View())); IdAt(s, i))
    {
      PlayKeepsInv(View(), format, data, options);
      if format == "" || |data| == 0 {
        return Err(EmptySound);
      }
      var validated := WithDefaultBus(options);
      if !ValidBus(validated.bus) {
        return Err(UnknownBus);
      }
      if !UnitRange(validated.volume) {
        return Err(BadVolume);
      }
      if !PanRange(validated.pan) {
        return Err(BadPan);
      }
      hide Inv;
      var index := ReserveSlot();
      var entry := slots[index].(active := true, bus := validated.bus, volume := validated.volume,
                                 group := validated.group, fade := None);
      slots := slots[index := entry];
      var id := SoundId(index, entry.generation);
      Queue(Play(id, format, data, Gain(validated.volume, BusGain(validated.bus)), validated.pan, validated.loop,
                 validated.stream));
      r := Ok(id);
    }

    function BusGain(bus: string): (volume: real)
      reads this`buses
      ensures volume == if bus in buses then buses[bus] else 1.0
    {
      if bus in buses then buses[bus] else 1.0
    }

    method OpenPCMStream(rate: int, channels: int) returns (r: Result<SoundId, AudioError>)
      requires Valid()
      modifies this
      ensures Valid() && View() == OpenPcm(old(View()), rate, channels)
      ensures r == if rate <= 0 || channels <= 0 then Err(BadStream)
                   else Ok(var (s, i) := Reserve(old(View())); IdAt(s, i))
    {
      OpenKeepsInv(View(), rate, channels);
      if rate <= 0 || channels <= 0 {
        return Err(BadStream);
      }
      hide Inv;
      var index := ReserveSlot();
      var entry := slots[index].(active := true, bus := PCM_BUS, volume := 1.0, pcmRate := rate, pcmFrames := 0);
      slots := slots[index := entry];
      var id := SoundId(index, entry.generation);
      Queue(PcmOpen(id, rate, channels, BusGain(PCM_BUS)));
      r := Ok(id);
    }

    // ---- A live sound ----

    method WritePCM(id: SoundId, pcm: Bytes) returns (error: Option<AudioError>)
      requires Valid()
      modifies this
      ensures Valid() && View() == WritePcm(old(View()), id, pcm)
      ensures error == if |pcm| == 0 || |pcm| % 2 != 0 then Some(BadSamples) else SoundError(old(View()), id)
    {
      CallKeepsInv(View(), id, pcm, 0.0, 0.0);
      hide Inv;
      if |pcm| == 0 || |pcm| % 2 != 0 {
        return Some(BadSamples);
      }
      error := ValidateSound(id);
      if error.Some? {
        return;
      }
      assert slots == slots[id.slot := slots[id.slot]];
      Queue(PcmWrite(id, pcm));
    }

    method ReportPCMFrames(id: SoundId, frames: int) returns (error: Option<AudioError>)
      requires Valid()
      modifies this
      ensures Valid() && View() == ReportFrames(old(View()), id, frames)
      ensures error == if frames <= 0 then Some(BadFrames)
                       else if !Live(old(View()), id) then SoundError(old(View()), id)
                       else if old(slots)[id.slot].pcmRate <= 0 then Some(NotPcm) else None
    {
      QuietKeepsInv(View(), id, frames, 0.0, 0);
      hide Inv;
      if frames <= 0 {
        return Some(BadFrames);
      }
      error := ValidateSound(id);
      if error.Some? {
        return;
      }
      var entry := slots[id.slot];
      if entry.pcmRate <= 0 {
        return Some(NotPcm);
      }
      slots := slots[id.slot := entry.(pcmFrames := entry.pcmFrames + frames)];
    }

    method SetSoundVolume(id: SoundId, volume: real) returns (error: Option<AudioError>)
      requires Valid()
      modifies this
      ensures Valid() && View() == SetVolume(old(View()), id, volume)
      ensures error == if !UnitRange(volume) then Some(BadVolume) else SoundError(old(View()), id)
    {
      CallKeepsInv(View(), id, [], volume, 0.0);
      hide Inv;
      if !UnitRange(volume) {
        return Some(BadVolume);
      }
      error := ValidateSound(id);
      if error.Some? {
        return;
      }
      var entry := slots[id.slot].(volume := volume);
      slots := slots[id.slot := entry];
      Queue(Volume(id, Gain(volume, BusGain(entry.bus))));
    }

    method SetSoundPan(id: SoundId, pan: real) returns (error: Option<AudioError>)
      requires Valid()
      modifies this
      ensures Valid() && View() == SetPan(old(View()), id, pan)
      ensures error == if !PanRange(pan) then Some(BadPan) else SoundError(old(View()), id)
    {
      CallKeepsInv(View(), id, [], 0.0, pan);
      hide Inv;
      if !PanRange(pan) {
        return Some(BadPan);
      }
      error := ValidateSound(id);
      if error.Some? {
        return;
      }
      assert slots == slots[id.slot := slots[id.slot]];
      Queue(Pan(id, pan));
    }

    method FadeSound(id: SoundId, volume: real, duration: int) returns (error: Option<AudioError>)
      requires Valid()
      modifies this
      ensures Valid() && View() == FadeTo(old(View()), id, volume, duration)
      ensures error == if !UnitRange(volume) then Some(BadVolume) else SoundError(old(View()), id)
    {
      QuietKeepsInv(View(), id, 0, volume, duration);
      hide Inv;
      if !UnitRange(volume) {
        return Some(BadVolume);
      }
      if duration <= 0 {
        error := SetSoundVolume(id, volume);
        return;
      }
      error := ValidateSound(id);
      if error.Some? {
        return;
      }
      var entry := slots[id.slot];
      slots := slots[id.slot := entry.(fade := Some(Fade(entry.volume, volume, 0, duration)))];
    }

    method StopOne(id: SoundId) returns (error: Option<AudioError>)
      requires Valid()
      modifies this
      ensures Valid() && View() == StopSound(old(View()), id) && error == SoundError(old(View()), id)
    {
      CallKeepsInv(View(), id, [], 0.0, 0.0);
      hide Inv;
      error := ValidateSound(id);
      if error.Some? {
        return;
      }
      RetireSlot(id.slot);
    }

    method Release(id: SoundId)
      requires Valid()
      modifies this
      ensures Valid() && View() == StopSound(old(View()), id)
    {
      var _ := StopOne(id);
    }

    method IsActive(id: SoundId) returns (live: bool)
      ensures live <==> Live(View(), id)
    {
      var error := ValidateSound(id);
      live := error.None?;
    }

    // ---- Every slot ----

    method AdvanceTime(delta: int)
      requires Valid()
      modifies this
      ensures Valid() && View() == Advance(old(View()), delta)
    {
      if delta <= 0 {
        return;
      }
      AdvanceKeepsInv(View(), |slots|, delta);
      hide Inv;
      var index := 0;
      while index < |slots|
        invariant 0 <= index <= |slots| == |old(slots)|
        invariant View() == AdvanceTo(old(View()), index, delta)
      {
        var entry := slots[index];
        if entry.active && entry.fade.Some? {
          var fade := entry.fade.value.(elapsed := entry.fade.value.elapsed + delta);
          var volume := FadedVolume(fade);
          var left := if fade.elapsed >= fade.duration then None else Some(fade);
          slots := slots[index := entry.(volume := volume, fade := left)];
          Queue(Volume(SoundId(index, entry.generation), Gain(volume, BusGain(entry.bus))));
        }
        index := index + 1;
      }
    }

    method StopAll(group: string) returns (error: Option<AudioError>)
      requires Valid()
      modifies this
      ensures Valid() && View() == StopGroup(old(View()), group)
      ensures error == if group == "" then Some(NoGroup) else None
    {
      if group == "" {
        return Some(NoGroup);
      }
      StopMembersKeepInv(View(), |slots|, group);
      hide Inv;
      for index := 0 to |slots|
        invariant |slots| == |old(slots)|
        invariant View() == StopMembersTo(old(View()), index, group)
      {
        var entry := slots[index];
        if entry.active && entry.group == group {
          RetireSlot(index);
        }
      }
      error := None;
    }

    method SetBusVolume(bus: string, volume: real) returns (error: Option<AudioError>)
      requires Valid()
      modifies this
      ensures Valid() && View() == SetBus(old(View()), bus, volume)
      ensures error == if !ValidBus(bus) then Some(UnknownBus) else if !UnitRange(volume) then Some(BadVolume) else None
    {
      BusKeepsInv(View(), bus, volume);
      hide Inv;
      if !ValidBus(bus) {
        return Some(UnknownBus);
      }
      if !UnitRange(volume) {
        return Some(BadVolume);
      }
      buses := buses[bus := volume];
      ghost var tuned := View();
      for index := 0 to |slots|
        invariant slots == tuned.slots && buses == tuned.buses
        invariant View() == RetuneTo(tuned, index, bus)
      {
        var entry := slots[index];
        if entry.active && entry.bus == bus {
          Queue(Volume(SoundId(index, entry.generation), Gain(entry.volume, volume)));
        }
      }
      error := None;
    }

    /** Applies commands in order until the backend refuses one; `accepts(k)` is its answer to the k-th. */
    method DrainTo(backend: Option<nat -> bool>) returns (error: Option<AudioError>)
      requires Valid()
      modifies this
      ensures Valid()
      ensures backend.None? ==> error == Some(NoBackend) && View() == old(View())
      ensures error.None? ==> View() == Drain(old(View()), |old(pending)|) && pending == []
      ensures error == Some(BackendFailed) ==>
                (exists n: nat ::
                   n < |old(pending)| && !backend.value(n) && (forall k: nat :: k < n ==> backend.value(k)) &&
                   View() == Drain(old(View()), n))
      ensures backend.Some? ==> (error.None? <==> forall k: nat :: k < |old(pending)| ==> backend.value(k))
      ensures error.None? || error == Some(NoBackend) || error == Some(BackendFailed)
    {
      if backend.None? {
        return Some(NoBackend);
      }
      ghost var was := View();
      for index := 0 to |pending|
        invariant pending == was.pending && slots == was.slots && free == was.free && buses == was.buses
        invariant queued == was.queued && applied == was.applied + was.pending[..index]
        invariant forall k: nat :: k < index ==> backend.value(k)
      {
        if !backend.value(index) {
          pending := pending[index..];
          DrainKeepsInv(was, index);
          assert View() == Drain(was, index);
          return Some(BackendFailed);
        }
        applied := applied + [pending[index]];
      }
      DrainKeepsInv(was, |was.pending|);
      pending := [];
      assert View() == Drain(was, |was.pending|);
      error := None;
    }
  }
}
