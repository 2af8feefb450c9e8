/** Which sounds count reported frames: those of streams, and those played in a slot that once held one. */
module MixerStreams {
  import opened Wrappers
  import opened Sounds
  import opened MixerRuns
  import opened MixerHistory

  /** A stream was once opened in the slot. */
  predicate Streamed(commands: seq<Command>, slot: nat) {
    exists p :: 0 <= p < |commands| && commands[p].PcmOpen? && commands[p].id.slot == slot
  }

  /** What the slot's current or last sound was opened as. */
  function LastOpening(commands: seq<Command>, slot: nat): Option<Command> {
    if commands == [] then None
    else
      var c := commands[|commands| - 1];
      if c.id.slot == slot && Opens(c) then Some(c) else LastOpening(commands[..|commands| - 1], slot)
  }

  predicate StreamsNow(commands: seq<Command>, slot: nat) {
    LastOpening(commands, slot).Some? && LastOpening(commands, slot).value.PcmOpen?
  }

  /** A slot has a sample rate exactly when it has ever held a stream. */
  predicate RateOk(s: State, i: nat)
    requires i < |s.slots|
  {
    s.slots[i].pcmRate > 0 <==> Streamed(s.queued, i)
  }

  predicate RatesOk(s: State) {
    && (forall i :: 0 <= i < |s.slots| ==> RateOk(s, i))
    && (forall c :: c in s.queued ==> c.id.slot < |s.slots|)
  }

  // ---- Each call keeps the rates ----

  lemma StreamedStep(commands: seq<Command>, c: Command, slot: nat)
    ensures Streamed(commands + [c], slot) <==> Streamed(commands, slot) || (c.PcmOpen? && c.id.slot == slot)
  {
    var grown := commands + [c];
    assert grown[|commands|] == c;
    assert forall p :: 0 <= p < |commands| ==> grown[p] == commands[p];
  }

  lemma UseKeepsRates(s: State, i: nat, slot: Slot, c: Command)
    requires RatesOk(s) && i < |s.slots| && c.id.slot == i
    requires if c.PcmOpen? then slot.pcmRate > 0 else slot.pcmRate == s.slots[i].pcmRate
    ensures RatesOk(Use(s, i, slot, c))
  {
    var u := Use(s, i, slot, c);
    hide Streamed;
    forall k | 0 <= k < |u.slots| ensures RateOk(u, k) {
      assert RateOk(s, k);
      StreamedStep(s.queued, c, k);
    }
  }

  lemma ReserveKeepsRates(s: State)
    requires RatesOk(s) && Partitioned(s)
    ensures RatesOk(Reserve(s).0)
  {
    var (q, i) := Reserve(s);
    forall k | 0 <= k < |q.slots| ensures RateOk(q, k) {
      assert k < |s.slots| ==> RateOk(s, k);
    }
  }

  /** Changing what is not a rate. */
  lemma SameRates(s: State, u: State)
    requires RatesOk(s) && u.queued == s.queued && |u.slots| == |s.slots|
    requires forall k :: 0 <= k < |s.slots| ==> u.slots[k].pcmRate == s.slots[k].pcmRate
    ensures RatesOk(u)
  {
    forall k | 0 <= k < |u.slots| ensures RateOk(u, k) {
      assert RateOk(s, k);
    }
  }

  lemma RetireKeepsRates(s: State, i: nat)
    requires RatesOk(s) && i < |s.slots|
    ensures RatesOk(Retire(s, i))
  {
    var slot := s.slots[i].(active := false, generation := NextGeneration(s.slots[i].generation));
    SameRates(s, s.(free := s.free + [i]));
    UseKeepsRates(s.(free := s.free + [i]), i, slot, Stop(IdAt(s, i)));
  }

  lemma AdvanceSlotKeepsRates(s: State, i: nat, delta: int)
    requires RatesOk(s) && i < |s.slots|
    ensures RatesOk(AdvanceSlot(s, i, delta))
  {
    var slot := s.slots[i];
    if slot.active && slot.fade.Some? {
      hide RatesOk;
      var fade := slot.fade.value.(elapsed := slot.fade.value.elapsed + delta);
      var left := if fade.elapsed >= fade.duration then None else Some(fade);
      var slot' := slot.(volume := FadedVolume(fade), fade := left);
      UseKeepsRates(s, i, slot', Volume(IdAt(s, i), Gain(slot'.volume, BusVolume(s, slot.bus))));
    }
  }

  lemma RetuneKeepsRates(s: State, i: nat, bus: string)
    requires RatesOk(s) && i < |s.slots|
    ensures RatesOk(Retune(s, i, bus))
  {
    hide RatesOk;
    assert s.slots[i := s.slots[i]] == s.slots;
    UseKeepsRates(s, i, s.slots[i], Volume(IdAt(s, i), Gain(s.slots[i].volume, BusVolume(s, bus))));
  }

  lemma {:induction false} LoopsKeepRates(s: State, n: nat, delta: int, text: string)
    requires RatesOk(s) && n <= |s.slots|
    ensures RatesOk(AdvanceTo(s, n, delta)) && RatesOk(StopMembersTo(s, n, text)) && RatesOk(RetuneTo(s, n, text))
  {
    hide RatesOk, AdvanceSlot, Retire, Retune;
    if n > 0 {
      LoopsKeepRates(s, n - 1, delta, text);
      AdvanceSlotKeepsRates(AdvanceTo(s, n - 1, delta), n - 1, delta);
      RetireKeepsRates(StopMembersTo(s, n - 1, text), n - 1);
      RetuneKeepsRates(RetuneTo(s, n - 1, text), n - 1, text);
    }
  }

  lemma OpeningKeepsRates(s: State, op: Op)
    requires RatesOk(s) && Partitioned(s) && (op.PlayOp? || op.OpenOp?)
    ensures RatesOk(Apply(s, op))
  {
    ReserveKeepsRates(s);
    hide RatesOk, RateOk, PlayError;
    var (q, i) := Reserve(s);
    match op
    case PlayOp(format, data, options) =>
      var o := WithDefaultBus(options);
      var slot := q.slots[i].(active := true, bus := o.bus, volume := o.volume, group := o.group, fade := None);
      UseKeepsRates(q, i, slot,
                    Play(IdAt(q, i), format, data, Gain(o.volume, BusVolume(s, o.bus)), o.pan, o.loop, o.stream));
    case OpenOp(rate, channels) =>
      if rate > 0 && channels > 0 {
        var slot := q.slots[i].(active := true, bus := PCM_BUS, volume := 1.0, pcmRate := rate, pcmFrames := 0);
        UseKeepsRates(q, i, slot, PcmOpen(IdAt(q, i), rate, channels, BusVolume(s, PCM_BUS)));
      }
  }

  lemma LiveCallKeepsRates(s: State, op: Op)
    requires RatesOk(s) && Partitioned(s)
    requires op.WriteOp? || op.VolumeOp? || op.PanOp? || op.StopOp? || op.ReportOp? || op.FadeOp?
    ensures RatesOk(Apply(s, op))
  {
    hide RatesOk, RateOk, Partitioned;
    if Live(s, op.id) {
      var i, slot := op.id.slot, s.slots[op.id.slot];
      match op
      case WriteOp(id, data) => UseKeepsRates(s, i, slot, PcmWrite(id, data));
      case VolumeOp(id, volume) =>
        UseKeepsRates(s, i, slot.(volume := volume), Volume(id, Gain(volume, BusVolume(s, slot.bus))));
      case PanOp(id, pan) => UseKeepsRates(s, i, slot, Pan(id, pan));
      case StopOp(id) => RetireKeepsRates(s, i);
      case ReportOp(id, frames) =>
        SameRates(s, s.(slots := s.slots[i := slot.(pcmFrames := slot.pcmFrames + frames)]));
      case FadeOp(id, volume, duration) =>
        UseKeepsRates(s, i, slot.(volume := volume), Volume(id, Gain(volume, BusVolume(s, slot.bus))));
        if duration > 0 {
          SameRates(s, s.(slots := s.slots[i := slot.(fade := Some(Fade(slot.volume, volume, 0, duration)))]));
        }
    }
  }

  lemma OpKeepsRates(s: State, op: Op)
    requires RatesOk(s) && Partitioned(s)
    ensures RatesOk(Apply(s, op))
  {
    if op.PlayOp? || op.OpenOp? {
      OpeningKeepsRates(s, op);
    } else if op.AdvanceOp? {
      LoopsKeepRates(s, |s.slots|, op.delta, "");
    } else if op.GroupOp? {
      LoopsKeepRates(s, |s.slots|, 0, op.group);
    } else if op.BusOp? {
      var t := s.(buses := s.buses[op.bus := op.volume]);
      SameRates(s, t);
      LoopsKeepRates(t, |s.slots|, 0, op.bus);
    } else if op.DrainOp? {
      SameRates(s, Apply(s, op));
    } else {
      LiveCallKeepsRates(s, op);
    }
  }

  /** The states that calls on a new mixer lead to. */
  ghost function Reached(ops: seq<Op>): (s: State)
    ensures Inv(s)
  {
    EmptyIsOk();
    Run(Empty(), ops)
  }

  lemma {:induction false} ReachedRates(ops: seq<Op>)
    ensures RatesOk(Reached(ops))
  {
    EmptyIsOk();
    if ops != [] {
      hide Inv, RatesOk, Apply;
      ReachedRates(ops[..|ops| - 1]);
      var before := Reached(ops[..|ops| - 1]);
      assert Partitioned(before) by { IsPartitioned(before); }
      OpKeepsRates(before, ops[|ops| - 1]);
    }
  }

  lemma IsPartitioned(s: State)
    requires Inv(s)
    ensures Partitioned(s)
  {
  }

  // ---- Who counts frames ----

  /** In every run a slot has a sample rate exactly when it has ever held a stream: playing another sound in it does not
      take the rate away. */
  lemma RateMeansStreamed(ops: seq<Op>, i: nat)
    requires i < |Reached(ops).slots|
    ensures Reached(ops).slots[i].pcmRate > 0 <==>
            exists p :: 0 <= p < |Reached(ops).queued| && Reached(ops).queued[p].PcmOpen?
                        && Reached(ops).queued[p].id.slot == i
  {
    ReachedRates(ops);
    assert RateOk(Reached(ops), i);
  }

  lemma {:induction false} StreamsNowStreamed(commands: seq<Command>, slot: nat)
    requires StreamsNow(commands, slot)
    ensures Streamed(commands, slot)
  {
    var c := commands[|commands| - 1];
    if !(c.id.slot == slot && Opens(c)) {
      StreamsNowStreamed(commands[..|commands| - 1], slot);
      StreamedStep(commands[..|commands| - 1], c, slot);
      assert commands == commands[..|commands| - 1] + [c];
    }
  }

  /** Exactly which reports are counted, and exactly when that is only streams: a live handle counts frames if its slot
      ever held a stream, which is as promised unless the slot held one before and plays another sound now. */
  lemma FramesCounted(ops: seq<Op>, id: SoundId, frames: int)
    ensures var s := Reached(ops);
            && (ReportFrames(s, id, frames) != s <==> frames > 0 && Live(s, id) && Streamed(s.queued, id.slot))
            && (Live(s, id) && frames > 0 ==>
                  ((ReportFrames(s, id, frames) != s <==> StreamsNow(s.queued, id.slot)) <==>
                   !(Streamed(s.queued, id.slot) && !StreamsNow(s.queued, id.slot))))
  {
    var s := Reached(ops);
    ReachedRates(ops);
    if Live(s, id) {
      assert RateOk(s, id.slot);
      if StreamsNow(s.queued, id.slot) {
        StreamsNowStreamed(s.queued, id.slot);
      }
      hide Reached, RatesOk, Streamed, StreamsNow;
      if frames > 0 && s.slots[id.slot].pcmRate > 0 {
        assert ReportFrames(s, id, frames).slots[id.slot].pcmFrames == s.slots[id.slot].pcmFrames + frames;
      }
    }
  }

  /** That case arises: a sound played in whichever slot once held a stream counts frames as if it were one. */
  lemma PlayedSoundCountsFrames(s: State, format: string, data: Bytes, options: PlayOptions, frames: int)
    requires Inv(s) && PlayError(format, data, options).None? && frames > 0
    requires Reserve(s).0.slots[Reserve(s).1].pcmRate > 0
    ensures var (q, i) := Reserve(s);
            var r := PlaySound(s, format, data, options);
            && Live(r, IdAt(q, i)) && !StreamsNow(r.queued, i)
            && ReportFrames(r, IdAt(q, i), frames) != r
            && ReportFrames(r, IdAt(q, i), frames).slots[i].pcmFrames == q.slots[i].pcmFrames + frames
  {
    var (q, i) := Reserve(s);
    var r := PlaySound(s, format, data, options);
    assert r.queued[..|r.queued| - 1] == s.queued;
    assert LastOpening(r.queued, i) == Some(r.queued[|r.queued| - 1]);
  }

  lemma ReachedStep(ops: seq<Op>, op: Op)
    ensures Partitioned(Reached(ops)) && Reached(ops + [op]) == Apply(Reached(ops), op)
  {
    assert (ops + [op])[..|ops|] == ops;
  }

  lemma StreamThenStop(rate: int, channels: int)
    requires rate > 0 && channels > 0
    ensures var s := Reached([OpenOp(rate, channels)] + [StopOp(SoundId(0, 1))]);
            s.free == [0] && |s.slots| == 1 && s.slots[0].generation == 2 && s.slots[0].pcmRate == rate
  {
    hide Inv, Reached;
    StreamOpened(rate, channels);
    ReachedStep([OpenOp(rate, channels)], StopOp(SoundId(0, 1)));
  }

  lemma StreamOpened(rate: int, channels: int)
    requires rate > 0 && channels > 0
    ensures var s := Reached([OpenOp(rate, channels)]);
            && s.free == [] && |s.slots| == 1 && s.slots[0].active
            && s.slots[0].generation == 1 && s.slots[0].pcmRate == rate
  {
    EmptyIsOk();
    assert Reached([]) == Empty();
    hide Inv, Reached, Partitioned;
    assert [] + [OpenOp(rate, channels)] == [OpenOp(rate, channels)];
    ReachedStep([], OpenOp(rate, channels));
  }

  /** A stream that is opened, stopped and followed by a sound leads there. */
  lemma StreamThenSoundCountsFrames(format: string, data: Bytes, options: PlayOptions, rate: int, channels: int,
                                    frames: int)
    requires PlayError(format, data, options).None? && rate > 0 && channels > 0 && frames > 0
    ensures var ops := [OpenOp(rate, channels)] + [StopOp(SoundId(0, 1))] + [PlayOp(format, data, options)];
            var s := Reached(ops);
            Live(s, SoundId(0, 2)) && !StreamsNow(s.queued, 0) && ReportFrames(s, SoundId(0, 2), frames) != s
  {
    var stopped := [OpenOp(rate, channels)] + [StopOp(SoundId(0, 1))];
    StreamThenStop(rate, channels);
    ReachedStep(stopped, PlayOp(format, data, options));
    hide Inv, Reached, ReportFrames, PlayError, StreamsNow;
    PlayedSoundCountsFrames(Reached(stopped), format, data, options, frames);
  }
}
