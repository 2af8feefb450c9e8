/** What the mixer promises a backend and the holders of handles over a whole run. */
module MixerHistory {
  import opened Wrappers
  import opened Sounds
  import opened MixerRuns

  // ---- The grammar of a slot's commands ----

  predicate Plain(c: Command) {
    !Opens(c) && !c.Stop?
  }

  /** The commands on a slot after position `q` belong to the session opened there, and none of them ends it. */
  predicate SessionFrom(commands: seq<Command>, slot: nat, q: nat) {
    && q < |commands| && commands[q].id.slot == slot && Opens(commands[q])
    && forall r :: q < r < |commands| && commands[r].id.slot == slot ==>
         Plain(commands[r]) && commands[r].id == commands[q].id
  }

  lemma TrackPrefix(commands: seq<Command>, slot: nat, n: nat)
    requires n <= |commands| && Track(commands, slot).Session?
    ensures Track(commands[..n], slot).Session?
    ensures Track(commands[..n], slot).done <= Track(commands, slot).done
    decreases |commands|
  {
    if n < |commands| {
      var front := commands[..|commands| - 1];
      assert front[..n] == commands[..n];
      TrackPrefix(front, slot, n);
    } else {
      assert commands[..n] == commands;
    }
  }

  /** A slot with an open session has one opening command to which everything since belongs. */
  lemma {:induction false} OpenSessionHasStart(commands: seq<Command>, slot: nat) returns (q: nat)
    requires Track(commands, slot).Session? && Track(commands, slot).open
    ensures SessionFrom(commands, slot, q)
    ensures commands[q].id.generation == Generation(Track(commands, slot).done)
    decreases |commands|
  {
    var n := |commands| - 1;
    var c := commands[n];
    if c.id.slot == slot && Opens(c) {
      q := n;
    } else {
      q := OpenSessionHasStart(commands[..n], slot);
    }
  }

  /** Every write, volume, pan and stop the backend sees belongs to a sound it was told to open, under the same
      handle, and which it has not been told to stop since. */
  lemma CommandsFollowTheirOpening(s: State, p: nat)
    requires Inv(s) && p < |s.queued| && !Opens(s.queued[p])
    ensures exists q: nat :: SessionFrom(s.queued[..p], s.queued[p].id.slot, q) && s.queued[q].id == s.queued[p].id
  {
    var c := s.queued[p];
    var slot := c.id.slot;
    assert SessionOk(s, slot);
    TrackPrefix(s.queued, slot, p + 1);
    assert s.queued[..p + 1] == s.queued[..p] + [c];
    SendSteps(s.queued[..p], c, slot);
    var q := OpenSessionHasStart(s.queued[..p], slot);
    assert SessionFrom(s.queued[..p], slot, q);
  }

  /** A slot with no open session has been stopped since anything else was sent about it. */
  lemma {:induction false} ClosedSessionWasStopped(commands: seq<Command>, slot: nat, p: nat) returns (r: nat)
    requires Track(commands, slot).Session? && !Track(commands, slot).open
    requires p < |commands| && commands[p].id.slot == slot
    ensures p <= r < |commands| && commands[r].Stop? && commands[r].id.slot == slot
    decreases |commands|
  {
    var n := |commands| - 1;
    if commands[n].id.slot == slot {
      r := n;
    } else {
      r := ClosedSessionWasStopped(commands[..n], slot, p);
    }
  }

  /** Sessions of one slot never overlap: between two openings there is a stop. */
  lemma OpeningsAreSeparated(s: State, p: nat, p': nat)
    requires Inv(s) && p < p' < |s.queued|
    requires Opens(s.queued[p]) && Opens(s.queued[p']) && s.queued[p].id.slot == s.queued[p'].id.slot
    ensures exists r :: p < r < p' && s.queued[r].Stop? && s.queued[r].id.slot == s.queued[p].id.slot
  {
    var slot := s.queued[p].id.slot;
    assert SessionOk(s, slot);
    TrackPrefix(s.queued, slot, p' + 1);
    assert s.queued[..p' + 1] == s.queued[..p'] + [s.queued[p']];
    SendSteps(s.queued[..p'], s.queued[p'], slot);
    var r := ClosedSessionWasStopped(s.queued[..p'], slot, p);
    assert s.queued[r].Stop?;
  }

  // ---- Growth of the streams ----

  predicate Extends(s: State, r: State) {
    s.queued <= r.queued && s.applied <= r.applied
  }

  lemma {:induction false} LoopsExtend(s: State, n: nat, delta: int, text: string)
    requires n <= |s.slots|
    ensures Extends(s, AdvanceTo(s, n, delta)) && Extends(s, StopMembersTo(s, n, text))
    ensures Extends(s, RetuneTo(s, n, text))
  {
    if n > 0 {
      LoopsExtend(s, n - 1, delta, text);
    }
  }

  lemma OpExtends(s: State, op: Op)
    requires Partitioned(s)
    ensures Extends(s, Apply(s, op))
  {
    hide AdvanceTo, StopMembersTo, RetuneTo, Distinct, ValidBus, AdvanceSlot;
    LoopsExtend(s, |s.slots|, match op case AdvanceOp(d) => d case _ => 0, match op case GroupOp(g) => g case _ => "");
    if op.BusOp? {
      var t := s.(buses := s.buses[op.bus := op.volume]);
      LoopsExtend(t, |s.slots|, 0, op.bus);
    }
  }

  /** Commands are never dropped, reordered or applied twice: what has been queued and applied only grows, and the
      applied commands followed by the pending ones are always the queued ones. */
  lemma {:induction false} NothingIsLostOrRepeated(s: State, ops: seq<Op>)
    requires Inv(s)
    ensures var r := Run(s, ops);
            Extends(s, r) && r.applied + r.pending == r.queued
  {
    if ops != [] {
      NothingIsLostOrRepeated(s, ops[..|ops| - 1]);
      OpExtends(Run(s, ops[..|ops| - 1]), ops[|ops| - 1]);
    }
  }

  /** A drain applies exactly the next commands the backend accepts, in the order they were queued, and keeps the rest;
      one that is never refused leaves nothing. */
  lemma DrainDelivers(s: State, n: nat)
    requires Delivered(s) && n <= |s.pending|
    ensures var r := Drain(s, n);
            && r.queued == s.queued && |r.applied| == |s.applied| + n
            && r.applied == s.queued[..|s.applied| + n] && r.pending == s.queued[|s.applied| + n..]
            && (n == |s.pending| ==> r.pending == [] && r.applied == s.queued)
            && r.slots == s.slots && r.free == s.free && r.buses == s.buses
  {
  }

  // ---- Handles ----

  /** How many sounds a slot has finished playing. */
  function Finished(s: State, slot: nat): nat {
    match Track(s.queued, slot) case Session(done, _) => done case Broken => 0
  }

  lemma FinishedGrows(s: State, ops: seq<Op>, slot: nat)
    requires Inv(s)
    ensures Finished(s, slot) <= Finished(Run(s, ops), slot)
  {
    var r := Run(s, ops);
    NothingIsLostOrRepeated(s, ops);
    assert SessionOk(s, slot) && SessionOk(r, slot);
    TrackPrefix(r.queued, slot, |s.queued|);
    assert r.queued[..|s.queued|] == s.queued;
  }

  ghost function AfterStop(s: State, id: SoundId): (r: State)
    requires Inv(s)
    ensures Inv(r)
  {
    CallKeepsInv(s, id, [], 0.0, 0.0);
    StopSound(s, id)
  }

  /** Once stopped, a handle is dead until its slot has been through every other generation. */
  lemma StoppedHandleStaysDead(s: State, id: SoundId, ops: seq<Op>)
    requires Inv(s) && Live(s, id) && Live(Run(AfterStop(s, id), ops), id)
    ensures Finished(Run(AfterStop(s, id), ops), id.slot) >= Finished(s, id.slot) + GENERATIONS - 1
  {
    var stopped := AfterStop(s, id);
    var r := Run(stopped, ops);
    assert SessionOk(s, id.slot) && SessionOk(stopped, id.slot) && SessionOk(r, id.slot);
    SendSteps(s.queued, Stop(id), id.slot);
    assert Finished(stopped, id.slot) == Finished(s, id.slot) + 1;
    FinishedGrows(stopped, ops, id.slot);
    GenerationRepeats(Finished(s, id.slot), Finished(r, id.slot));
  }

  /** The slot of the sound stopped last is the next one used, under the next generation. */
  lemma LastStoppedIsNextUsed(s: State, id: SoundId, format: string, data: Bytes, options: PlayOptions)
    requires Inv(s) && Live(s, id) && PlayError(format, data, options).None?
    ensures var r := PlaySound(AfterStop(s, id), format, data, options);
            && Live(r, SoundId(id.slot, NextGeneration(id.generation))) && !Live(r, id)
            && r.free == s.free && |r.slots| == |s.slots|
  {
    assert SessionOk(s, id.slot);
    GenerationAdvances(Finished(s, id.slot));
    assert NextGeneration(id.generation) != id.generation;
  }

  // ---- Groups ----

  lemma {:induction false} StopMembersStops(s: State, n: nat, group: string, k: nat)
    requires n <= |s.slots| && k < |s.slots|
    ensures var r := StopMembersTo(s, n, group);
            if k < n && s.slots[k].active && s.slots[k].group == group
            then !r.slots[k].active && Stop(IdAt(s, k)) in r.queued
            else r.slots[k] == s.slots[k]
  {
    if n > 0 {
      StopMembersStops(s, n - 1, group, k);
      var t := StopMembersTo(s, n - 1, group);
      LoopsExtend(s, n - 1, 0, group);
    }
  }

  /** Stopping a group ends every sound in it and touches no other. */
  lemma StopGroupIsExact(s: State, group: string, id: SoundId)
    requires Inv(s) && group != "" && Live(s, id)
    ensures var r := StopGroup(s, group);
            && (Live(r, id) <==> s.slots[id.slot].group != group)
            && (Live(r, id) ==> r.slots[id.slot] == s.slots[id.slot])
            && (!Live(r, id) ==> Stop(id) in r.queued)
  {
    StopMembersStops(s, |s.slots|, group, id.slot);
  }

  // ---- What reuse does not clear ----

  lemma {:induction false} AdvanceAt(s: State, n: nat, delta: int, k: nat)
    requires n <= |s.slots| && k < |s.slots|
    ensures AdvanceTo(s, n, delta).slots[k] == if k < n then AdvanceSlot(s, k, delta).slots[k] else s.slots[k]
  {
    if n > 0 {
      AdvanceAt(s, n - 1, delta, k);
      AdvanceAt(s, n - 1, delta, n - 1);
    }
  }

  lemma AdvanceTwice(s: State, t: State, i: nat, a: int, b: int)
    requires i < |s.slots| && i < |t.slots| && a > 0 && b > 0
    requires t.slots[i] == AdvanceSlot(s, i, a).slots[i]
    requires s.slots[i].active && s.slots[i].fade.Some? ==> s.slots[i].fade.value.elapsed >= 0
    ensures AdvanceSlot(t, i, b).slots[i] == AdvanceSlot(s, i, a + b).slots[i]
  {
  }

  /** Fades depend only on how much time has passed, not on how it was divided. */
  lemma AdvanceIsAdditive(s: State, a: int, b: int)
    requires Inv(s) && a > 0 && b > 0
    ensures Advance(Advance(s, a), b).slots == Advance(s, a + b).slots
  {
    var once := Advance(s, a);
    var twice, whole := Advance(once, b), Advance(s, a + b);
    forall k | 0 <= k < |s.slots| ensures twice.slots[k] == whole.slots[k] {
      AdvanceAt(s, |s.slots|, a, k);
      AdvanceAt(once, |s.slots|, b, k);
      AdvanceAt(s, |s.slots|, a + b, k);
      assert SlotRange(s.slots[k]);
      hide Inv, AdvanceTo, AdvanceSlot;
      AdvanceTwice(s, once, k, a, b);
    }
  }

  /** Whichever slot a stream is opened in, it inherits the group and the unfinished fade the slot was left with, and
      advancing time turns it to where the old sound was fading. */
  lemma StreamInheritsFade(s: State, rate: int, channels: int, delta: int)
    requires Inv(s) && rate > 0 && channels > 0
    ensures var (q, i) := Reserve(s);
            var left, r := q.slots[i], OpenPcm(s, rate, channels);
            && i < |r.slots| && Live(r, IdAt(q, i)) && r.slots[i].volume == 1.0
            && r.slots[i].group == left.group && r.slots[i].fade == left.fade
            && (if i in s.free then i < |s.slots| && left == s.slots[i] else left == FreshSlot())
            && |Advance(r, delta).slots| == |r.slots|
            && (left.fade.Some? && delta >= left.fade.value.duration ==>
                  Advance(r, delta).slots[i].volume == left.fade.value.to)
  {
    var (q, i) := Reserve(s);
    ReserveTakes(s);
    var r := OpenPcm(s, rate, channels);
    assert r.slots[i].fade == q.slots[i].fade;
    hide Inv, OpenPcm, Partitioned;
    AdvanceAt(r, |r.slots|, delta, i);
  }

  lemma ReserveTakes(s: State)
    requires Inv(s)
    ensures var (q, i) := Reserve(s);
            && SlotRange(q.slots[i])
            && (if i in s.free then i < |s.slots| && q.slots[i] == s.slots[i] else q.slots[i] == FreshSlot())
  {
    if s.free != [] {
      assert s.free[|s.free| - 1] in s.free;
    }
  }
}
