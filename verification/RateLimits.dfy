/** Rate limits over runs: however a membership disconnects, reconnects and changes credentials, the requests admitted
    for its lineage stay within one token bucket. */
module RateLimits {
  import opened Wrappers
  import opened Membership
  import opened Protocol
  import opened ProtocolInvariants
  import opened ProtocolLedger
  import opened ProtocolRuns

  function Burst(refresh: bool): real {
    if refresh then REFRESH_BURST else COMMAND_BURST
  }

  function Rate(refresh: bool): real {
    if refresh then REFRESH_RATE else COMMAND_RATE
  }

  /** True when the step is a request that is admitted for lineage `l`. */
  predicate Charges(sys: System, a: Action, l: Lineage, refresh: bool) {
    && a.Spend?
    && a.refresh == refresh
    && Admits(sys.server, a.c, refresh, a.now)
    && a.c in sys.names.lineage
    && sys.names.lineage[a.c] == l
  }

  /** How many requests of one kind the run admitted for lineage `l`. */
  function Admitted(host: Allocation, run: seq<Action>, l: Lineage, refresh: bool): nat {
    if run == [] then 0
    else
      var before := run[..|run| - 1];
      Admitted(host, before, l, refresh)
      + if Charges(After(host, before), run[|run| - 1], l, refresh) then 1 else 0
  }

  /** The credential a live lineage is under. */
  ghost function CredentialOf(s: State, names: Names, l: Lineage): (c: Credential)
    requires l in Live(s, names)
    ensures c in s.connections && c in names.lineage && names.lineage[c] == l
  {
    var c :| c in s.connections && c in names.lineage && names.lineage[c] == l;
    c
  }

  /** The bucket of lineage `l`: the one it has, or had when it was last live. */
  ghost function BucketAfter(host: Allocation, run: seq<Action>, l: Lineage, refresh: bool): Option<TokenBucket> {
    var sys := After(host, run);
    if l in Live(sys.server, sys.names) then
      Some(BucketOf(sys.server.connections[CredentialOf(sys.server, sys.names, l)], refresh))
    else if run == [] then None
    else BucketAfter(host, run[..|run| - 1], l, refresh)
  }

  // ---- One step ----

  /** The bucket of a live credential. */
  function BucketAt(sys: System, c: Credential, refresh: bool): TokenBucket
    requires c in sys.server.connections
  {
    BucketOf(sys.server.connections[c], refresh)
  }

  /** A bucket that is at most full and refills at the fixed rate. */
  predicate Fits(bucket: TokenBucket, refresh: bool) {
    && bucket.capacity == Burst(refresh) && bucket.rate == Rate(refresh)
    && 0.0 <= bucket.tokens <= Burst(refresh)
  }

  /** What one step may do to a bucket, when it admitted `charged` requests: the tokens left and the requests
      admitted are paid for by the tokens there were and the time that passed. */
  predicate Pays(before: TokenBucket, charged: nat, after: TokenBucket, refresh: bool) {
    && before.updated <= after.updated
    && after.tokens + charged as real <= before.tokens + (after.updated - before.updated) * Rate(refresh)
  }

  lemma GainAtRate(elapsed: real, refresh: bool)
    requires elapsed >= 0.0
    ensures Gain(elapsed, Rate(refresh)) == elapsed * Rate(refresh) && Gain(elapsed, Rate(refresh)) >= 0.0
  {
    if refresh {
      assert Gain(elapsed, 2.0) == elapsed * 2.0;
    } else {
      assert Gain(elapsed, 32.0) == elapsed * 32.0;
    }
  }

  /** Refilling adds no more than the time passed allows, and never overfills. */
  lemma RefillBounds(bucket: TokenBucket, time: real, refresh: bool)
    requires Fits(bucket, refresh) && bucket.updated <= time
    ensures 0.0 <= Refilled(bucket, time) <= Burst(refresh)
    ensures Refilled(bucket, time) <= bucket.tokens + (time - bucket.updated) * Rate(refresh)
  {
    GainAtRate(time - bucket.updated, refresh);
    hide Gain;
  }

  /** An attempt pays for what it admits, never overfills the bucket, and never turns its clock back. */
  lemma TakePays(bucket: TokenBucket, now: real, refresh: bool)
    requires Fits(bucket, refresh)
    ensures
      var (taken, admitted) := Take(bucket, now);
      && Fits(taken, refresh)
      && Pays(bucket, if admitted then 1 else 0, taken, refresh)
      && taken.updated == Moment(bucket, now)
  {
    RefillBounds(bucket, Moment(bucket, now), refresh);
    hide Refilled;
  }

  /** The credential under which the membership at `c` was known before the step. */
  function Before(sys: System, a: Action, c: Credential): Credential {
    if a.RotateCredential? && c == a.minted then a.request.credential else c
  }

  lemma BucketStep(sys: System, host: Allocation, a: Action, c: Credential, refresh: bool)
    requires c in NextServer(sys.server, host, a).connections
    requires a.RegisterJoin? ==> c != a.c
    requires a.RotateCredential? ==> a.minted !in sys.server.connections
    ensures Before(sys, a, c) in sys.server.connections
    ensures BucketOf(NextServer(sys.server, host, a).connections[c], refresh) ==
            if a.Spend? && a.c == c && a.refresh == refresh && Admits(sys.server, c, refresh, a.now)
            then Take(BucketAt(sys, c, refresh), a.now).0
            else BucketAt(sys, Before(sys, a, c), refresh)
  {
  }

  lemma FitsNow(sys: System, c: Credential, refresh: bool)
    requires BudgetsOk(sys.server) && c in sys.server.connections
    ensures Fits(BucketAt(sys, c, refresh), refresh)
  {
    assert FullRate(sys.server.connections[c]);
  }

  /** A lineage that lives after a step lived before it, under the credential the step renamed, if any. */
  lemma LiveBefore(sys: System, host: Allocation, a: Action, c: Credential)
    requires NamesOk(sys.server, sys.names) && CallsOk(sys.server, sys.names, sys.calls) && Enabled(sys, a)
    requires c in NextServer(sys.server, host, a).connections && (a.RegisterJoin? ==> c != a.c)
    ensures
      var names' := NextNames(sys.names, sys.server, host, a);
      && c in names'.lineage
      && Before(sys, a, c) in sys.server.connections && Before(sys, a, c) in sys.names.lineage
      && names'.lineage[c] == sys.names.lineage[Before(sys, a, c)]
  {
    KeysKnown(sys, a);
    BucketStep(sys, host, a, c, false);
    LineageStep(sys, host, a);
    ServerKeys(sys.server, host, a);
    assert sys.server.connections.Keys <= sys.names.lineage.Keys;
    hide NamesOk, CallsOk, Enabled, NextServer, NextNames, Rotate;
  }

  lemma PaidByStep(sys: System, host: Allocation, a: Action, l: Lineage, refresh: bool)
    requires NamesOk(sys.server, sys.names) && CallsOk(sys.server, sys.names, sys.calls) && Enabled(sys, a)
    requires BudgetsOk(sys.server) && l in sys.names.lineage
    requires l in Live(NextServer(sys.server, host, a), NextNames(sys.names, sys.server, host, a))
    ensures l in Live(sys.server, sys.names)
    ensures
      var s', names' := NextServer(sys.server, host, a), NextNames(sys.names, sys.server, host, a);
      var before := BucketAt(sys, CredentialOf(sys.server, sys.names, l), refresh);
      var after := BucketOf(s'.connections[CredentialOf(s', names', l)], refresh);
      && Pays(before, if Charges(sys, a, l, refresh) then 1 else 0, after, refresh)
      && after.updated == if Charges(sys, a, l, refresh) && before.updated <= a.now then a.now else before.updated
  {
    var s', names' := NextServer(sys.server, host, a), NextNames(sys.names, sys.server, host, a);
    var c' := CredentialOf(s', names', l);
    assert a.RegisterJoin? ==> c' != a.c by {
      KeysKnown(sys, a);
      LineageStep(sys, host, a);
      hide NamesOk, CallsOk, Enabled, NextServer, NextNames;
    }
    LiveBefore(sys, host, a, c');
    var c := Before(sys, a, c');
    KeysKnown(sys, a);
    BucketStep(sys, host, a, c', refresh);
    LiveMember(sys.server, sys.names, c);
    assert c == CredentialOf(sys.server, sys.names, l);
    FitsNow(sys, c, refresh);
    if Charges(sys, a, l, refresh) {
      assert a.c == c;
      TakePays(BucketAt(sys, c, refresh), a.now, refresh);
    }
    hide NamesOk, CallsOk, Enabled, NextServer, NextNames, BudgetsOk, Admits, Take, Live;
  }

  /** A lineage that is charged is still live after the step. */
  lemma ChargedIsLive(sys: System, host: Allocation, a: Action, l: Lineage, refresh: bool)
    requires NamesOk(sys.server, sys.names) && CallsOk(sys.server, sys.names, sys.calls) && Enabled(sys, a)
    requires Charges(sys, a, l, refresh)
    ensures l in Live(NextServer(sys.server, host, a), NextNames(sys.names, sys.server, host, a))
  {
    LiveStep(sys, host, a);
    LiveMember(sys.server, sys.names, a.c);
    hide NamesOk, CallsOk, Enabled, NextServer, NextNames, Take, Live;
  }

  // ---- Runs ----

  /** A lineage with a bucket has joined, and its bucket is within bounds. */
  lemma {:induction false} BucketFits(host: Allocation, run: seq<Action>, l: Lineage, refresh: bool)
    requires IsRun(host, run) && BucketAfter(host, run, l, refresh).Some?
    ensures l in After(host, run).names.lineage && Fits(BucketAfter(host, run, l, refresh).value, refresh)
  {
    hide Enabled, Inv, After, NamesOk, CallsOk, RotationsOk, ReplaysOk, LeasesOk, BudgetsOk;
    var sys := After(host, run);
    RunKeepsInv(host, run);
    Parts(sys);
    if l in Live(sys.server, sys.names) {
      var c := CredentialOf(sys.server, sys.names, l);
      FitsNow(sys, c, refresh);
      RootKnown(sys, c);
    } else if run != [] {
      BucketFits(host, run[..|run| - 1], l, refresh);
      LineageGrows(host, run, l);
    }
  }

  lemma RootKnown(sys: System, c: Credential)
    requires NamesOk(sys.server, sys.names) && c in sys.names.lineage
    ensures sys.names.lineage[c] in sys.names.lineage
  {
  }

  lemma LineageGrows(host: Allocation, run: seq<Action>, l: Lineage)
    requires IsRun(host, run) && run != [] && l in After(host, run[..|run| - 1]).names.lineage
    ensures l in After(host, run).names.lineage
  {
    var sys := After(host, run[..|run| - 1]);
    hide Enabled, Inv, NamesOk, CallsOk, NextServer, NextNames, NextCalls, NextLeases, NextLedger;
    RunKeepsInv(host, run[..|run| - 1]);
    Parts(sys);
    LineageStep(sys, host, run[|run| - 1]);
  }

  /** The last step of a run charges the lineage as its bucket allows, and moves the bucket's clock accordingly. */
  lemma LastStep(host: Allocation, run: seq<Action>, l: Lineage, refresh: bool)
    requires IsRun(host, run) && run != [] && BucketAfter(host, run[..|run| - 1], l, refresh).Some?
    ensures BucketAfter(host, run, l, refresh).Some?
    ensures
      var charged := Charges(After(host, run[..|run| - 1]), run[|run| - 1], l, refresh);
      var before := BucketAfter(host, run[..|run| - 1], l, refresh).value;
      var after := BucketAfter(host, run, l, refresh).value;
      && Pays(before, if charged then 1 else 0, after, refresh)
      && after.updated == if charged && before.updated <= run[|run| - 1].now then run[|run| - 1].now else before.updated
  {
    hide Enabled, Inv, NamesOk, CallsOk, RotationsOk, ReplaysOk, LeasesOk, BudgetsOk, NextServer, NextNames, NextCalls,
         NextLeases, NextLedger, Live, Charges;
    var before, a := run[..|run| - 1], run[|run| - 1];
    var sys := After(host, before);
    BucketFits(host, before, l, refresh);
    RunKeepsInv(host, before);
    Parts(sys);
    if l in Live(NextServer(sys.server, host, a), NextNames(sys.names, sys.server, host, a)) {
      PaidByStep(sys, host, a, l, refresh);
    } else if Charges(sys, a, l, refresh) {
      ChargedIsLive(sys, host, a, l, refresh);
    }
  }

  lemma PaidByLastStep(host: Allocation, run: seq<Action>, l: Lineage, refresh: bool)
    requires IsRun(host, run) && run != [] && BucketAfter(host, run[..|run| - 1], l, refresh).Some?
    ensures BucketAfter(host, run, l, refresh).Some?
    ensures Admitted(host, run[..|run| - 1], l, refresh) <= Admitted(host, run, l, refresh)
    ensures Pays(BucketAfter(host, run[..|run| - 1], l, refresh).value,
                 Admitted(host, run, l, refresh) - Admitted(host, run[..|run| - 1], l, refresh),
                 BucketAfter(host, run, l, refresh).value, refresh)
  {
    hide After, BucketAfter, Charges, IsRun, Pays;
    LastStep(host, run, l, refresh);
  }

  /** From any point of a run on, tokens left plus requests admitted are paid for by the tokens there were and the
      advance of the bucket's own clock. */
  lemma {:induction false} PaidSince(host: Allocation, run: seq<Action>, i: nat, l: Lineage, refresh: bool)
    requires IsRun(host, run) && i <= |run| && BucketAfter(host, run[..i], l, refresh).Some?
    ensures BucketAfter(host, run, l, refresh).Some?
    ensures Admitted(host, run[..i], l, refresh) <= Admitted(host, run, l, refresh)
    ensures Pays(BucketAfter(host, run[..i], l, refresh).value,
                 Admitted(host, run, l, refresh) - Admitted(host, run[..i], l, refresh),
                 BucketAfter(host, run, l, refresh).value, refresh)
  {
    hide After, BucketAfter, Admitted, Enabled;
    if i == |run| {
      assert run[..i] == run;
    } else {
      var before := run[..|run| - 1];
      assert before[..i] == run[..i];
      PaidSince(host, before, i, l, refresh);
      PaidByLastStep(host, run, l, refresh);
    }
  }

  /** Between any two points of any run, the requests admitted for a lineage number at most one burst plus the refill
      over the time its bucket's clock advanced: 64 commands plus 32 a second, 4 refreshes plus 2 a second. */
  lemma RateIsBounded(host: Allocation, run: seq<Action>, i: nat, l: Lineage, refresh: bool)
    requires IsRun(host, run) && i <= |run| && BucketAfter(host, run[..i], l, refresh).Some?
    ensures BucketAfter(host, run, l, refresh).Some?
    ensures
      var elapsed := BucketAfter(host, run, l, refresh).value.updated
                     - BucketAfter(host, run[..i], l, refresh).value.updated;
      && elapsed >= 0.0
      && (Admitted(host, run, l, refresh) - Admitted(host, run[..i], l, refresh)) as real
         <= Burst(refresh) + elapsed * Rate(refresh)
  {
    hide After, BucketAfter, Admitted, Enabled, IsRun;
    PaidSince(host, run, i, l, refresh);
    PrefixIsRun(host, run, i);
    BucketFits(host, run[..i], l, refresh);
    BucketFits(host, run, l, refresh);
  }

  /** The bucket's clock is a running maximum: a request admitted at `now` moves it to `now` unless that is in its
      past, and nothing else moves it. */
  lemma ClockIsRunningMaximum(host: Allocation, run: seq<Action>, l: Lineage, refresh: bool)
    requires IsRun(host, run) && run != [] && BucketAfter(host, run[..|run| - 1], l, refresh).Some?
    ensures BucketAfter(host, run, l, refresh).Some?
    ensures
      var before := BucketAfter(host, run[..|run| - 1], l, refresh).value;
      var a := run[|run| - 1];
      BucketAfter(host, run, l, refresh).value.updated ==
        if Charges(After(host, run[..|run| - 1]), a, l, refresh) && before.updated <= a.now then a.now
        else before.updated
  {
    hide After, BucketAfter, Charges, IsRun;
    LastStep(host, run, l, refresh);
  }
}
