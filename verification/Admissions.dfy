/** Exactly which requests are admitted, in terms of when earlier ones were: over every run, a request is refused just
    when some stretch of admitted requests up to now has already used what that stretch of time allows. */
module Admissions {
  import opened Wrappers
  import opened Membership
  import opened Protocol
  import opened ProtocolInvariants
  import opened ProtocolLedger
  import opened ProtocolRuns
  import opened RateLimits
  import opened ProtocolAnswers

  // ---- History ----

  function Later(a: real, b: real): real {
    if b < a then a else b
  }

  /** The running maximum of the times at which lineage `l` joined and was admitted requests of one kind. */
  function Clock(host: Allocation, run: seq<Action>, l: Lineage, refresh: bool): Option<real> {
    if run == [] then None
    else
      var before, a := run[..|run| - 1], run[|run| - 1];
      var clock := Clock(host, before, l, refresh);
      if a.RegisterJoin? && a.c == l then Some(a.now)
      else if clock.Some? && Charges(After(host, before), a, l, refresh) then Some(Later(clock.value, a.now))
      else clock
  }

  /** When each request admitted so far was admitted, on that clock. */
  function Times(host: Allocation, run: seq<Action>, l: Lineage, refresh: bool): seq<real> {
    if run == [] then []
    else
      var before, a := run[..|run| - 1], run[|run| - 1];
      var clock := Clock(host, before, l, refresh);
      if clock.Some? && Charges(After(host, before), a, l, refresh)
      then Times(host, before, l, refresh) + [Later(clock.value, a.now)]
      else Times(host, before, l, refresh)
  }

  /** How many requests a stretch of time allows. */
  function Allowance(refresh: bool, elapsed: real): real {
    if refresh then 4.0 + 2.0 * elapsed else 64.0 + 32.0 * elapsed
  }

  /** What the stretch from the k-th admitted request on has left at a time. */
  function Left(times: seq<real>, k: nat, at: real, refresh: bool): real
    requires k < |times|
  {
    Allowance(refresh, at - times[k]) - (|times| - k) as real
  }

  // ---- The bucket holds what the tightest stretch has left ----

  ghost predicate Tightest(tokens: real, times: seq<real>, at: real, refresh: bool) {
    && tokens <= Allowance(refresh, 0.0)
    && (forall k :: 0 <= k < |times| ==> tokens <= Left(times, k, at, refresh))
    && (tokens == Allowance(refresh, 0.0) || exists k :: 0 <= k < |times| && tokens == Left(times, k, at, refresh))
  }

  lemma LeftGrows(times: seq<real>, k: nat, at: real, at': real, refresh: bool)
    requires k < |times|
    ensures Left(times, k, at', refresh) == Left(times, k, at, refresh) + Gain(at' - at, Rate(refresh))
  {
    if refresh {
      assert Gain(at' - at, 2.0) == 2.0 * (at' - at);
    } else {
      assert Gain(at' - at, 32.0) == 32.0 * (at' - at);
    }
  }

  lemma LeftAfterOneMore(times: seq<real>, k: nat, at: real, refresh: bool)
    requires k <= |times|
    ensures Left(times + [at], k, at, refresh) ==
            (if k < |times| then Left(times, k, at, refresh) else Allowance(refresh, 0.0)) - 1.0
  {
  }

  lemma RefilledIsTightest(bucket: TokenBucket, times: seq<real>, time: real, refresh: bool)
    requires Fits(bucket, refresh) && bucket.updated <= time && Tightest(bucket.tokens, times, bucket.updated, refresh)
    ensures Tightest(Refilled(bucket, time), times, time, refresh)
  {
    var gain := Gain(time - bucket.updated, Rate(refresh));
    GainAtRate(time - bucket.updated, refresh);
    hide Gain, Left;
    forall k | 0 <= k < |times|
      ensures Left(times, k, time, refresh) == Left(times, k, bucket.updated, refresh) + gain
    {
      LeftGrows(times, k, bucket.updated, time, refresh);
    }
    assert Allowance(refresh, 0.0) == Burst(refresh);
  }

  lemma TakenIsTightest(tokens: real, times: seq<real>, at: real, refresh: bool)
    requires Tightest(tokens, times, at, refresh)
    ensures Tightest(tokens - 1.0, times + [at], at, refresh)
  {
    hide Left, Allowance;
    var grown := times + [at];
    forall k | 0 <= k < |grown|
      ensures Left(grown, k, at, refresh) ==
              (if k < |times| then Left(times, k, at, refresh) else Allowance(refresh, 0.0)) - 1.0
    {
      LeftAfterOneMore(times, k, at, refresh);
    }
    if tokens == Allowance(refresh, 0.0) {
      assert tokens - 1.0 == Left(grown, |times|, at, refresh);
    } else {
      var k :| 0 <= k < |times| && tokens == Left(times, k, at, refresh);
      assert tokens - 1.0 == Left(grown, k, at, refresh);
    }
    assert Left(grown, |times|, at, refresh) == Allowance(refresh, 0.0) - 1.0;
  }

  lemma TakeIsTightest(bucket: TokenBucket, times: seq<real>, now: real, refresh: bool)
    requires Fits(bucket, refresh) && Tightest(bucket.tokens, times, bucket.updated, refresh)
    ensures var (taken, admitted) := Take(bucket, now);
            && taken.updated == Later(bucket.updated, now)
            && (admitted ==> Tightest(taken.tokens, times + [taken.updated], taken.updated, refresh))
  {
    var time := Moment(bucket, now);
    RefilledIsTightest(bucket, times, time, refresh);
    hide Tightest, Refilled;
    TakenIsTightest(Refilled(bucket, time), times, time, refresh);
  }

  // ---- Over runs ----

  lemma ExactStep(sys: System, host: Allocation, a: Action, c: Credential, refresh: bool)
    requires NamesOk(sys.server, sys.names) && CallsOk(sys.server, sys.names, sys.calls) && Enabled(sys, a)
    requires c in NextServer(sys.server, host, a).connections && (a.RegisterJoin? ==> c != a.c)
    ensures
      var names' := NextNames(sys.names, sys.server, host, a);
      var before := Before(sys, a, c);
      && before in sys.server.connections && before in sys.names.lineage
      && c in names'.lineage && names'.lineage[c] == sys.names.lineage[before]
      && BucketOf(NextServer(sys.server, host, a).connections[c], refresh) ==
         if Charges(sys, a, names'.lineage[c], refresh) then Take(BucketAt(sys, before, refresh), a.now).0
         else BucketAt(sys, before, refresh)
  {
    LiveBefore(sys, host, a, c);
    KeysKnown(sys, a);
    BucketStep(sys, host, a, c, refresh);
    var before := Before(sys, a, c);
    if a.Spend? && Admits(sys.server, a.c, refresh, a.now) && a.c in sys.names.lineage
       && sys.names.lineage[a.c] == sys.names.lineage[before] {
      assert a.c == before;
    }
    hide Take, CallsOk, RootsOk, Enabled, NextServer, NextNames;
  }

  /** The bucket of a live membership is accounted for by its history. */
  ghost predicate BucketExplained(host: Allocation, run: seq<Action>, c: Credential, refresh: bool)
    requires c in After(host, run).server.connections && c in After(host, run).names.lineage
  {
    var sys := After(host, run);
    var l, bucket := sys.names.lineage[c], BucketAt(sys, c, refresh);
    && Clock(host, run, l, refresh) == Some(bucket.updated)
    && Tightest(bucket.tokens, Times(host, run, l, refresh), bucket.updated, refresh)
    && (forall k :: 0 <= k < |Times(host, run, l, refresh)| ==> Times(host, run, l, refresh)[k] <= bucket.updated)
  }

  lemma {:induction false} NoTimesBeforeJoin(host: Allocation, run: seq<Action>, l: Lineage, refresh: bool)
    requires IsRun(host, run) && l !in After(host, run).names.lineage
    ensures Times(host, run, l, refresh) == []
  {
    hide After, Inv, NamesOk, CallsOk, RotationsOk, ReplaysOk, LeasesOk, BudgetsOk, Enabled, Admits;
    if run != [] {
      var before, a := run[..|run| - 1], run[|run| - 1];
      if l in After(host, before).names.lineage {
        LineageGrows(host, run, l);
      }
      NoTimesBeforeJoin(host, before, l, refresh);
      RunKeepsInv(host, before);
      Parts(After(host, before));
      if Charges(After(host, before), a, l, refresh) {
        RootKnown(After(host, before), a.c);
      }
    }
  }

  lemma JoinIsExplained(host: Allocation, run: seq<Action>, refresh: bool)
    requires IsRun(host, run) && run != [] && run[|run| - 1].RegisterJoin?
    ensures var c := run[|run| - 1].c;
            && c in After(host, run).server.connections && c in After(host, run).names.lineage
            && After(host, run).names.lineage[c] == c && BucketExplained(host, run, c, refresh)
  {
    var before, a := run[..|run| - 1], run[|run| - 1];
    NoTimesBeforeJoin(host, before, a.c, refresh);
    hide Charges;
  }

  lemma StepIsExplained(host: Allocation, run: seq<Action>, c: Credential, refresh: bool)
    requires IsRun(host, run) && run != [] && c in After(host, run).server.connections
    requires run[|run| - 1].RegisterJoin? ==> c != run[|run| - 1].c
    requires var before := run[..|run| - 1];
             var d := Before(After(host, before), run[|run| - 1], c);
             d in After(host, before).server.connections && d in After(host, before).names.lineage &&
             BucketExplained(host, before, d, refresh)
    ensures c in After(host, run).names.lineage && BucketExplained(host, run, c, refresh)
  {
    hide Inv, NamesOk, CallsOk, RotationsOk, ReplaysOk, LeasesOk, BudgetsOk, Enabled, Charges, Take, Tightest,
         NextServer, NextNames, NextCalls, NextLeases, NextLedger, IsRun;
    var before, a := run[..|run| - 1], run[|run| - 1];
    var sys := After(host, before);
    var d := Before(sys, a, c);
    IsRunPrefix(host, run);
    RunKeepsInv(host, before);
    Parts(sys);
    ExactStep(sys, host, a, c, refresh);
    FitsNow(sys, d, refresh);
    var l := After(host, run).names.lineage[c];
    RootKnown(sys, d);
    JoinedOnce(host, run, l);
    if Charges(sys, a, l, refresh) {
      ChargedIsAdmitted(sys, a, l, refresh, d);
      TakeIsTightest(BucketAt(sys, d, refresh), Times(host, before, l, refresh), a.now, refresh);
    }
  }

  lemma IsRunPrefix(host: Allocation, run: seq<Action>)
    requires IsRun(host, run) && run != []
    ensures IsRun(host, run[..|run| - 1]) && Enabled(After(host, run[..|run| - 1]), run[|run| - 1])
  {
  }

  /** A lineage that lives already does not join again. */
  lemma JoinedOnce(host: Allocation, run: seq<Action>, l: Lineage)
    requires IsRun(host, run) && run != [] && l in After(host, run[..|run| - 1]).names.lineage
    ensures run[|run| - 1].RegisterJoin? ==> run[|run| - 1].c != l
  {
    hide After;
  }

  lemma ChargedIsAdmitted(sys: System, a: Action, l: Lineage, refresh: bool, c: Credential)
    requires Charges(sys, a, l, refresh) && NamesOk(sys.server, sys.names)
    requires c in sys.server.connections && c in sys.names.lineage && sys.names.lineage[c] == l
    ensures a.Spend? && a.c == c && Take(BucketAt(sys, c, refresh), a.now).1
  {
    hide Take, RootsOk;
  }

  lemma {:induction false} BucketIsExplained(host: Allocation, run: seq<Action>, c: Credential, refresh: bool)
    requires IsRun(host, run) && c in After(host, run).server.connections
    ensures c in After(host, run).names.lineage && BucketExplained(host, run, c, refresh)
  {
    hide Inv, NamesOk, CallsOk, RotationsOk, ReplaysOk, LeasesOk, BudgetsOk, Enabled, NextServer, NextNames, NextCalls,
         NextLeases, NextLedger, BucketExplained;
    if run[|run| - 1].RegisterJoin? && run[|run| - 1].c == c {
      JoinIsExplained(host, run, refresh);
    } else {
      var before, a := run[..|run| - 1], run[|run| - 1];
      RunKeepsInv(host, before);
      Parts(After(host, before));
      LiveBefore(After(host, before), host, a, c);
      BucketIsExplained(host, before, Before(After(host, before), a, c), refresh);
      StepIsExplained(host, run, c, refresh);
    }
  }

  // ---- When a request is admitted ----

  /** Admitting one more request now would take the stretch from some admitted request on over what it allows. */
  ghost predicate WouldExceed(times: seq<real>, at: real, refresh: bool) {
    exists k :: 0 <= k < |times| && (|times| - k) as real + 1.0 > Allowance(refresh, at - times[k])
  }

  lemma AdmitsUnlessExceeded(tokens: real, times: seq<real>, at: real, refresh: bool)
    requires Tightest(tokens, times, at, refresh)
    ensures tokens < 1.0 <==> WouldExceed(times, at, refresh)
  {
    forall k | 0 <= k < |times|
      ensures Left(times, k, at, refresh) < 1.0 <==> (|times| - k) as real + 1.0 > Allowance(refresh, at - times[k])
    {
    }
    hide Left;
    assert Allowance(refresh, 0.0) >= 1.0;
  }

  /** In every run, whatever disconnects, reconnects and rotations there were, a connected member's request is refused
      for its rate exactly when it would exceed what some stretch of its lineage's history allows, and is admitted
      otherwise. */
  lemma RefusedExactlyWhenExceeding(host: Allocation, run: seq<Action>, c: Credential, refresh: bool, now: real)
    requires IsRun(host, run) && ConnectedAs(After(host, run).server, c)
    ensures
      var sys := After(host, run);
      c in sys.names.lineage && Clock(host, run, sys.names.lineage[c], refresh).Some? &&
      var l := sys.names.lineage[c];
      var at := Later(Clock(host, run, l, refresh).value, now);
      var answer := Debit(sys.server, c, refresh, now).1;
      && (answer == Err(RateLimit) <==> WouldExceed(Times(host, run, l, refresh), at, refresh))
      && (answer == Err(RateLimit) || answer.Ok?)
  {
    hide After, IsRun, Inv, NamesOk, CallsOk, RotationsOk, ReplaysOk, LeasesOk, BudgetsOk, Tightest, WouldExceed,
         Refilled;
    var sys := After(host, run);
    RunKeepsInv(host, run);
    Parts(sys);
    NamedAndKnown(host, run, c);
    BucketIsExplained(host, run, c, refresh);
    FitsNow(sys, c, refresh);
    var l, bucket := sys.names.lineage[c], BucketAt(sys, c, refresh);
    var time := Moment(bucket, now);
    RefilledIsTightest(bucket, Times(host, run, l, refresh), time, refresh);
    AdmitsUnlessExceeded(Refilled(bucket, time), Times(host, run, l, refresh), time, refresh);
  }

  /** A member that has been admitted less than a burst is admitted at any time: 64 commands and 4 refreshes at one
      instant. */
  lemma BurstIsAdmitted(host: Allocation, run: seq<Action>, c: Credential, refresh: bool, now: real)
    requires IsRun(host, run) && ConnectedAs(After(host, run).server, c)
    requires c in After(host, run).names.lineage
    requires |Times(host, run, After(host, run).names.lineage[c], refresh)| < if refresh then 4 else 64
    ensures Debit(After(host, run).server, c, refresh, now).1.Ok?
  {
    hide After, IsRun, Times, Clock;
    RefusedExactlyWhenExceeding(host, run, c, refresh, now);
    BucketIsExplained(host, run, c, refresh);
    hide Tightest, Debit;
    var l := After(host, run).names.lineage[c];
    var times, at := Times(host, run, l, refresh), Later(Clock(host, run, l, refresh).value, now);
    forall k | 0 <= k < |times| ensures (|times| - k) as real + 1.0 <= Allowance(refresh, at - times[k]) {
      assert at - times[k] >= 0.0;
    }
  }

  /** One request's worth of time after the last admission, a member is admitted again. */
  lemma WaitingIsAdmitted(host: Allocation, run: seq<Action>, c: Credential, refresh: bool, now: real)
    requires IsRun(host, run) && ConnectedAs(After(host, run).server, c)
    requires c in After(host, run).names.lineage
    requires Clock(host, run, After(host, run).names.lineage[c], refresh).Some?
    requires var last := Clock(host, run, After(host, run).names.lineage[c], refresh).value;
             (now - last) * (if refresh then 2.0 else 32.0) >= 1.0
    ensures Debit(After(host, run).server, c, refresh, now).1.Ok?
  {
    hide After, IsRun, Times, Clock, Inv, NamesOk, CallsOk, RotationsOk, ReplaysOk, LeasesOk, BudgetsOk, Tightest;
    var sys := After(host, run);
    RunKeepsInv(host, run);
    Parts(sys);
    NamedAndKnown(host, run, c);
    BucketIsExplained(host, run, c, refresh);
    FitsNow(sys, c, refresh);
    var bucket := BucketAt(sys, c, refresh);
    GainAtRate(now - bucket.updated, refresh);
  }
}
