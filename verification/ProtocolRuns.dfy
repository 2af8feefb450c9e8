/** What holds over whole runs of the membership protocol, whatever the interleaving. */
module ProtocolRuns {
  import opened Wrappers
  import opened Membership
  import opened Protocol
  import opened ProtocolInvariants
  import opened ProtocolLedger

  /** The system after the steps of `run`, in order. */
  function After(host: Allocation, run: seq<Action>): System {
    if run == [] then INITIAL
    else Step(After(host, run[..|run| - 1]), host, run[|run| - 1])
  }

  /** True when every step of `run` could be taken where it was taken. */
  predicate IsRun(host: Allocation, run: seq<Action>) {
    run == [] ||
    (IsRun(host, run[..|run| - 1]) && Enabled(After(host, run[..|run| - 1]), run[|run| - 1]))
  }

  /** The system before step `i` of `run`. */
  function At(host: Allocation, run: seq<Action>, i: nat): System
    requires i <= |run|
  {
    After(host, run[..i])
  }

  lemma StepKeepsInv(sys: System, host: Allocation, a: Action)
    requires Inv(sys) && Enabled(sys, a)
    ensures Inv(Step(sys, host, a))
  {
    hide NamesOk, CallsOk, RotationsOk, ReplaysOk, LeasesOk, WatchesOk, BudgetsOk, LedgerOk, Balanced, NoticesOk,
         IdentitiesOk, NextServer, NextCalls, NextNames, NextLeases, NextLedger, Enabled;
    CredentialsKept(sys, host, a);
    CallsKept(sys, host, a);
    LeasesKept(sys, host, a);
    WatchesKept(sys, host, a);
    BudgetsKept(sys.server, host, a);
    LedgerKept(sys, host, a);
    BalanceKept(sys, host, a);
    NotifyIsOwed(sys, a);
    NoticesKept(sys.ledger, sys.names, sys.server, a);
    IdentitiesKept(sys, host, a);
  }

  lemma NotifyIsOwed(sys: System, a: Action)
    requires Enabled(sys, a)
    ensures a.Notify? ==> a.departure in sys.ledger.owed
  {
  }

  lemma InitialCredentialsOk()
    ensures NamesOk(EMPTY, INITIAL.names) && CallsOk(EMPTY, INITIAL.names, INITIAL.calls)
    ensures RotationsOk(EMPTY, INITIAL.names) && ReplaysOk(EMPTY, INITIAL.names)
  {
  }

  lemma InitialTrafficOk()
    ensures LeasesOk(EMPTY, INITIAL.names, INITIAL.leases) && WatchesOk(EMPTY, INITIAL.names) && BudgetsOk(EMPTY)
  {
  }

  lemma InitialLedgerOk()
    ensures LedgerOk(Live(EMPTY, INITIAL.names), INITIAL.names, INITIAL.ledger)
    ensures Balanced(EMPTY, INITIAL.ledger) && NoticesOk(INITIAL.ledger)
    ensures IdentitiesOk(EMPTY, INITIAL.names, INITIAL.ledger)
  {
    assert Live(EMPTY, INITIAL.names) == {};
    assert EMPTY.connections.Keys == {};
  }

  lemma InitialIsOk()
    ensures Inv(INITIAL)
  {
    hide NamesOk, CallsOk, RotationsOk, ReplaysOk, LeasesOk, WatchesOk, BudgetsOk, LedgerOk, Balanced, NoticesOk,
         IdentitiesOk, Live;
    InitialCredentialsOk();
    InitialTrafficOk();
    InitialLedgerOk();
  }

  lemma {:induction false} RunKeepsInv(host: Allocation, run: seq<Action>)
    requires IsRun(host, run)
    ensures Inv(After(host, run))
  {
    hide Inv, Step, Enabled;
    if run == [] {
      InitialIsOk();
    } else {
      RunKeepsInv(host, run[..|run| - 1]);
      StepKeepsInv(After(host, run[..|run| - 1]), host, run[|run| - 1]);
    }
  }

  lemma {:induction false} PrefixIsRun(host: Allocation, run: seq<Action>, i: nat)
    requires IsRun(host, run) && i <= |run|
    ensures IsRun(host, run[..i])
  {
    hide Step, Enabled;
    if i == |run| {
      assert run[..i] == run;
    } else {
      PrefixIsRun(host, run[..|run| - 1], i);
      assert run[..|run| - 1][..i] == run[..i];
    }
  }

  /** Step `i` of a run: it was enabled, from a system with the invariants, and led to the next system. */
  lemma StepAt(host: Allocation, run: seq<Action>, i: nat)
    requires IsRun(host, run) && i < |run|
    ensures Enabled(At(host, run, i), run[i]) && At(host, run, i + 1) == Step(At(host, run, i), host, run[i])
    ensures Inv(At(host, run, i)) && Inv(At(host, run, i + 1))
  {
    hide Step, Enabled, Inv;
    PrefixIsRun(host, run, i);
    PrefixIsRun(host, run, i + 1);
    RunKeepsInv(host, run[..i]);
    RunKeepsInv(host, run[..i + 1]);
    assert run[..i + 1][..i] == run[..i];
  }

  lemma StartsEmpty(host: Allocation, run: seq<Action>)
    ensures At(host, run, 0) == INITIAL
  {
    assert run[..0] == [];
  }

  lemma Parts(sys: System)
    requires Inv(sys)
    ensures NamesOk(sys.server, sys.names) && CallsOk(sys.server, sys.names, sys.calls)
    ensures RotationsOk(sys.server, sys.names) && ReplaysOk(sys.server, sys.names)
    ensures LeasesOk(sys.server, sys.names, sys.leases) && BudgetsOk(sys.server)
  {
    hide NamesOk, CallsOk, RotationsOk, ReplaysOk, LeasesOk, WatchesOk, BudgetsOk, LedgerOk, Balanced, NoticesOk,
         IdentitiesOk;
  }

  // ---- Rotation and replay ----

  /** Step `i` of the run moved the membership of credential `c` to a new credential. */
  predicate RotatesAt(host: Allocation, run: seq<Action>, i: nat, c: Credential)
    requires i < |run|
  {
    && run[i].RotateCredential?
    && run[i].request.credential == c
    && Rotate(At(host, run, i).server, run[i].request, run[i].minted, run[i].member, run[i].snapshot).1.Rotated?
  }

  lemma GoneStep(sys: System, host: Allocation, a: Action, c: Credential)
    requires NamesOk(sys.server, sys.names) && CallsOk(sys.server, sys.names, sys.calls) && Enabled(sys, a)
    requires c in sys.names.lineage && c !in sys.server.connections
    ensures c in NextNames(sys.names, sys.server, host, a).lineage && c !in NextServer(sys.server, host, a).connections
  {
    ServerKeys(sys.server, host, a);
    LineageStep(sys, host, a);
    KeysKnown(sys, a);
    hide NamesOk, CallsOk, Enabled, NextServer, NextNames;
  }

  /** A credential that stops naming a membership never names one again. */
  lemma {:induction false} GoneForGood(host: Allocation, run: seq<Action>, i: nat, j: nat, c: Credential)
    requires IsRun(host, run) && i <= j <= |run|
    requires c in At(host, run, i).names.lineage && c !in At(host, run, i).server.connections
    ensures c in At(host, run, j).names.lineage && c !in At(host, run, j).server.connections
  {
    hide Inv, NamesOk, CallsOk, RotationsOk, ReplaysOk, LeasesOk, BudgetsOk, At, After, IsRun, Enabled, NextServer,
         NextNames, NextCalls, NextLeases, NextLedger;
    if i < j {
      GoneForGood(host, run, i, j - 1, c);
      StepAt(host, run, j - 1);
      Parts(At(host, run, j - 1));
      GoneStep(At(host, run, j - 1), host, run[j - 1], c);
    }
  }

  lemma RotationRetires(sys: System, host: Allocation, a: Action)
    requires NamesOk(sys.server, sys.names) && Enabled(sys, a) && a.RotateCredential?
    requires Rotate(sys.server, a.request, a.minted, a.member, a.snapshot).1.Rotated?
    ensures a.request.credential in sys.server.connections
    ensures a.request.credential in NextNames(sys.names, sys.server, host, a).lineage
    ensures a.request.credential !in NextServer(sys.server, host, a).connections
  {
    assert sys.server.connections.Keys <= sys.names.lineage.Keys;
    hide NamesOk;
  }

  /** In every interleaving, each credential is rotated at most once. */
  lemma RotatedAtMostOnce(host: Allocation, run: seq<Action>, i: nat, j: nat, c: Credential)
    requires IsRun(host, run) && i < |run| && j < |run|
    requires RotatesAt(host, run, i, c) && RotatesAt(host, run, j, c)
    ensures i == j
  {
    hide NamesOk, CallsOk, RotationsOk, ReplaysOk, LeasesOk, WatchesOk, BudgetsOk, LedgerOk, Balanced, NoticesOk,
         IdentitiesOk, After, IsRun, Enabled, NextServer, NextNames, NextCalls, NextLeases, NextLedger, Rotate;
    if i != j {
      var first, second := if i < j then i else j, if i < j then j else i;
      StepAt(host, run, first);
      StepAt(host, run, second);
      RotationRetires(At(host, run, first), host, run[first]);
      RotationRetires(At(host, run, second), host, run[second]);
      GoneForGood(host, run, first + 1, second, c);
      assert false;
    }
  }

  /** In every interleaving, all successful reconnects with one old credential got the same response, under the
      same nonce. */
  lemma AnswersAgree(host: Allocation, run: seq<Action>, a: Answer, b: Answer)
    requires IsRun(host, run)
    requires a in After(host, run).names.answers && b in After(host, run).names.answers
    requires a.request.credential == b.request.credential
    ensures a.response == b.response && a.request.nonce == b.request.nonce
  {
    hide NamesOk, CallsOk, LeasesOk, WatchesOk, BudgetsOk, LedgerOk, Balanced, NoticesOk, IdentitiesOk, After, IsRun;
    RunKeepsInv(host, run);
    OneRotationEach(After(host, run).server, After(host, run).names, a, b);
  }

  lemma OneRotationEach(s: State, names: Names, a: Answer, b: Answer)
    requires RotationsOk(s, names) && ReplaysOk(s, names)
    requires a in names.answers && b in names.answers && a.request.credential == b.request.credential
    ensures a.response == b.response && a.request.nonce == b.request.nonce
  {
    assert RotationOf(a.request, a.response) in names.rotations;
    assert RotationOf(b.request, b.response) in names.rotations;
  }

  /** In every interleaving, each lineage lives under at most one credential, whose member is who joined. */
  lemma OneMembershipPerLineage(host: Allocation, run: seq<Action>, c: Credential, d: Credential)
    requires IsRun(host, run)
    requires c in After(host, run).server.connections && d in After(host, run).server.connections
    ensures c in After(host, run).names.lineage && d in After(host, run).names.lineage
    ensures After(host, run).names.lineage[c] == After(host, run).names.lineage[d] ==> c == d
    ensures var sys := After(host, run);
            sys.names.lineage[c] in sys.ledger.identity &&
            sys.ledger.identity[sys.names.lineage[c]] == sys.server.connections[c].principal
  {
    hide CallsOk, RotationsOk, ReplaysOk, LeasesOk, WatchesOk, BudgetsOk, LedgerOk, Balanced, NoticesOk, RootsOk,
         After, IsRun;
    RunKeepsInv(host, run);
    assert SamePrincipal(After(host, run).server, After(host, run).names, After(host, run).ledger, c);
  }

  // ---- Leases ----

  predicate SuspendedAt(host: Allocation, run: seq<Action>, k: nat, c: Credential, generation: nat)
    requires k <= |run|
  {
    Expires(At(host, run, k).server, c, generation)
  }

  /** A membership that is disconnected after a step already was, or the step disconnected it. */
  lemma SuspensionStep(sys: System, host: Allocation, a: Action, c: Credential)
    requires LeasesOk(sys.server, sys.names, sys.leases)
    requires c in NextServer(sys.server, host, a).connections
    requires !NextServer(sys.server, host, a).connections[c].connected
    ensures
      var generation := NextServer(sys.server, host, a).connections[c].disconnectGeneration;
      var leases' := NextLeases(sys.leases, sys.server, a);
      && c in leases'.suspendedAt
      && ((a == Disconnect(c) && leases'.suspendedAt[c] == sys.leases.clock)
          || (Expires(sys.server, c, generation) && c in sys.leases.suspendedAt
              && leases'.suspendedAt[c] == sys.leases.suspendedAt[c]))
  {
  }

  lemma {:induction false} ClockAt(host: Allocation, run: seq<Action>)
    ensures After(host, run).leases.clock == |run|
  {
    hide NextServer, NextNames, NextCalls, NextLedger;
    if run != [] {
      ClockAt(host, run[..|run| - 1]);
    }
  }

  /** A disconnected membership has been so ever since the Disconnect on record for it. */
  lemma {:induction false} SuspensionHistory(host: Allocation, run: seq<Action>, n: nat, c: Credential)
    requires IsRun(host, run) && n <= |run|
    requires c in At(host, run, n).server.connections && !At(host, run, n).server.connections[c].connected
    ensures
      var sys := At(host, run, n);
      && c in sys.leases.suspendedAt
      && sys.leases.suspendedAt[c] < n
      && run[sys.leases.suspendedAt[c]] == Disconnect(c)
      && (forall k :: sys.leases.suspendedAt[c] < k <= n ==>
            SuspendedAt(host, run, k, c, sys.server.connections[c].disconnectGeneration))
  {
    hide Inv, NamesOk, CallsOk, RotationsOk, ReplaysOk, LeasesOk, BudgetsOk, After, IsRun, Enabled, NextServer,
         NextNames, NextCalls, NextLeases, NextLedger;
    StartsEmpty(host, run);
    if n > 0 {
      StepAt(host, run, n - 1);
      Parts(At(host, run, n - 1));
      ClockAt(host, run[..n - 1]);
      SuspensionStep(At(host, run, n - 1), host, run[n - 1], c);
      if run[n - 1] != Disconnect(c) || At(host, run, n).leases.suspendedAt[c] != n - 1 {
        SuspensionHistory(host, run, n - 1, c);
      }
    }
  }

  /** A membership that an expiry timer removes has been disconnected, under one generation, ever since the very
      Disconnect that armed the timer. */
  lemma ExpiredLeaseWasUnbroken(host: Allocation, run: seq<Action>, i: nat)
    requires IsRun(host, run) && i < |run| && run[i].FireTimer?
    requires Removed(At(host, run, i).server, run[i]).Some?
    ensures
      var timer := run[i].timer;
      && timer.event < i
      && run[timer.event] == Disconnect(timer.credential)
      && (forall k :: timer.event < k <= i ==> SuspendedAt(host, run, k, timer.credential, timer.generation))
  {
    hide NamesOk, CallsOk, RotationsOk, ReplaysOk, WatchesOk, BudgetsOk, LedgerOk, Balanced, NoticesOk, IdentitiesOk,
         After, IsRun, NextServer, NextNames, NextCalls, NextLeases, NextLedger;
    StepAt(host, run, i);
    SuspensionHistory(host, run, i, run[i].timer.credential);
  }

  /** In every interleaving, a disconnected membership has a pending lease of its current generation, or a caller
      about to arm one; and only connected memberships are watched. */
  lemma EveryLeaseIsPending(host: Allocation, run: seq<Action>, c: Credential)
    requires IsRun(host, run)
    ensures
      var sys := After(host, run);
      && (c in sys.server.connections && !sys.server.connections[c].connected ==>
            exists timer :: timer in sys.leases.arming + sys.leases.timers && timer.credential == c
              && timer.generation == sys.server.connections[c].disconnectGeneration)
      && (c in sys.server.watches ==> c in sys.server.connections && sys.server.connections[c].connected)
  {
    hide NamesOk, CallsOk, RotationsOk, ReplaysOk, BudgetsOk, LedgerOk, Balanced, NoticesOk, IdentitiesOk, After, IsRun;
    RunKeepsInv(host, run);
  }

  // ---- Conservation ----

  /** How many joins the run registered. */
  function Registered(run: seq<Action>): nat {
    if run == [] then 0
    else Registered(run[..|run| - 1]) + if run[|run| - 1].RegisterJoin? then 1 else 0
  }

  /** How many joins the run rolled back. */
  function RolledBack(run: seq<Action>): nat {
    if run == [] then 0
    else RolledBack(run[..|run| - 1]) + if run[|run| - 1].RollbackJoin? then 1 else 0
  }

  /** How many memberships the run removed for good, by Leave or by expiry. */
  function Departed(host: Allocation, run: seq<Action>): nat {
    if run == [] then 0
    else
      var before := run[..|run| - 1];
      Departed(host, before) + if Removed(After(host, before).server, run[|run| - 1]).Some? then 1 else 0
  }

  lemma {:induction false} LedgerCounts(host: Allocation, run: seq<Action>)
    requires IsRun(host, run)
    ensures
      var ledger := After(host, run).ledger;
      && |ledger.joins| == Registered(run)
      && |ledger.rollbacks| == RolledBack(run)
      && |ledger.departures| == Departed(host, run)
  {
    hide CallsOk, RotationsOk, ReplaysOk, LeasesOk, WatchesOk, BudgetsOk, LedgerOk, Balanced, NoticesOk, IdentitiesOk,
         RootsOk, OnePerLineage, Enabled, NextServer, NextNames, NextCalls, NextLeases, NextKeys, Removed;
    if run != [] {
      var before := run[..|run| - 1];
      LedgerCounts(host, before);
      RunKeepsInv(host, before);
      ServerKeys(After(host, before).server, host, run[|run| - 1]);
      DepartureStep(After(host, before), run[|run| - 1]);
    }
  }

  lemma DepartureStep(sys: System, a: Action)
    requires sys.server.connections.Keys <= sys.names.lineage.Keys
    requires Removed(sys.server, a).Some? ==> Removed(sys.server, a).value in sys.server.connections
    ensures
      var ledger' := NextLedger(sys.ledger, sys.names, sys.server, a);
      && |ledger'.joins| == |sys.ledger.joins| + (if a.RegisterJoin? then 1 else 0)
      && |ledger'.rollbacks| == |sys.ledger.rollbacks| + (if a.RollbackJoin? then 1 else 0)
      && |ledger'.departures| == |sys.ledger.departures| + (if Removed(sys.server, a).Some? then 1 else 0)
  {
  }

  /** In every interleaving, registered joins are exactly the rolled back, the live and the departed ones: rotation,
      replay and races neither create nor lose a membership. */
  lemma MembershipsAreConserved(host: Allocation, run: seq<Action>)
    requires IsRun(host, run)
    ensures Registered(run) == RolledBack(run) + |After(host, run).server.connections| + Departed(host, run)
  {
    hide NamesOk, CallsOk, RotationsOk, ReplaysOk, LeasesOk, WatchesOk, BudgetsOk, LedgerOk, NoticesOk, IdentitiesOk,
         After, IsRun, Registered, RolledBack, Departed;
    RunKeepsInv(host, run);
    LedgerCounts(host, run);
    var connections := After(host, run).server.connections;
    assert |connections| == |connections.Keys|;
  }

  /** Whatever happens between registering and rolling back, a join that is rolled back leaves no trace: no client was
      given a credential of its lineage, none of them is live, watched or in the replay table, and nobody is owed or was
      sent a notification of its leaving. */
  lemma RolledBackJoinLeavesNoTrace(host: Allocation, run: seq<Action>, l: Lineage)
    requires IsRun(host, run) && RollbackJoin(l) in run
    ensures
      var sys := After(host, run);
      && (forall c :: c in sys.names.lineage && sys.names.lineage[c] == l ==>
            && c !in sys.names.returned && c !in sys.server.connections
            && c !in sys.server.watches && c !in sys.server.reconnects)
      && !HasDeparted(sys.ledger, l)
      && (forall d :: d in sys.ledger.owed + sys.ledger.notified ==> d.lineage != l)
  {
    hide LeasesOk, BudgetsOk, CallsOk, IdentitiesOk, Balanced, OnePerLineage, After, IsRun;
    RunKeepsInv(host, run);
    RollbackIsRecorded(host, run, l);
    var sys := After(host, run);
    NothingOfLineage(sys, l);
    forall d | d in multiset(sys.ledger.departures) ensures d.lineage != l {
      assert d in sys.ledger.departures;
    }
  }

  lemma {:induction false} RollbackIsRecorded(host: Allocation, run: seq<Action>, l: Lineage)
    requires RollbackJoin(l) in run
    ensures l in After(host, run).ledger.rollbacks
  {
    hide NextServer, NextCalls, NextNames, NextLeases, Removed;
    if run[|run| - 1] != RollbackJoin(l) {
      RollbackIsRecorded(host, run[..|run| - 1], l);
    }
  }

  lemma NothingOfLineage(sys: System, l: Lineage)
    requires NamesOk(sys.server, sys.names) && RotationsOk(sys.server, sys.names) && ReplaysOk(sys.server, sys.names)
    requires WatchesOk(sys.server, sys.names) && LedgerOk(Live(sys.server, sys.names), sys.names, sys.ledger)
    requires l in sys.ledger.rollbacks
    ensures forall c :: c in sys.names.lineage && sys.names.lineage[c] == l ==>
              && c !in sys.names.returned && c !in sys.server.connections
              && c !in sys.server.watches && c !in sys.server.reconnects
  {
    hide OnePerLineage;
    forall c | c in sys.names.lineage && sys.names.lineage[c] == l
      ensures c !in sys.names.returned && c !in sys.server.connections
    {
      assert sys.names.lineage[c] !in Live(sys.server, sys.names);
    }
  }

  /** Each departed lineage was recorded once, as one departure. */
  lemma OneDeparture(departures: seq<Departure>, d: Departure, e: Departure)
    requires forall i, j :: 0 <= i < j < |departures| ==> departures[i].lineage != departures[j].lineage
    requires d in departures && e in departures && d.lineage == e.lineage
    ensures d == e && multiset(departures)[d] == 1
  {
    var i :| 0 <= i < |departures| && departures[i] == d;
    assert departures == departures[..i] + [d] + departures[i + 1..];
    assert d !in departures[..i] && d !in departures[i + 1..];
    var j :| 0 <= j < |departures| && departures[j] == e;
  }

  lemma {:induction false} NoticesStay(host: Allocation, run: seq<Action>, i: nat, j: nat, d: Departure)
    requires IsRun(host, run) && i <= j <= |run|
    ensures At(host, run, i).ledger.notified[d] <= At(host, run, j).ledger.notified[d]
  {
    hide Inv, At, After, IsRun, Enabled, NextServer, NextNames, NextCalls, NextLeases;
    if i < j {
      NoticesStay(host, run, i, j - 1, d);
      StepAt(host, run, j - 1);
    }
  }

  /** No lineage gets two leave notifications. */
  lemma NotifiedAtMostOnce(host: Allocation, run: seq<Action>, i: nat, j: nat)
    requires IsRun(host, run) && i < |run| && j < |run| && run[i].Notify? && run[j].Notify?
    requires run[i].departure.lineage == run[j].departure.lineage
    ensures i == j
  {
    hide Inv, At, After, IsRun, Enabled, NextServer, NextNames, NextCalls, NextLeases, NextLedger;
    if i != j {
      var first, second := if i < j then i else j, if i < j then j else i;
      StepAt(host, run, first);
      StepAt(host, run, second);
      NotifyStep(At(host, run, first), run[first].departure);
      NotifyStep(At(host, run, second), run[second].departure);
      NoticesStay(host, run, first + 1, second, run[first].departure);
      assert false;
    }
  }

  lemma NoSecondNotice(ledger: Ledger, sent: Departure, d: Departure)
    requires NoticesOk(ledger) && sent in ledger.notified && sent.lineage == d.lineage
    requires forall i, j :: 0 <= i < j < |ledger.departures| ==>
               ledger.departures[i].lineage != ledger.departures[j].lineage
    ensures d !in ledger.owed
  {
    assert sent in multiset(ledger.departures);
    if d in multiset(ledger.departures) {
      OneDeparture(ledger.departures, sent, d);
      assert ledger.owed[sent] + ledger.notified[sent] == (ledger.owed + ledger.notified)[sent] == 1;
    } else {
      assert ledger.owed[d] <= (ledger.owed + ledger.notified)[d] == 0;
    }
  }

  lemma NotifyStep(sys: System, d: Departure)
    requires Inv(sys) && Enabled(sys, Notify(d))
    ensures NextLedger(sys.ledger, sys.names, sys.server, Notify(d)).notified[d] > 0
    ensures forall sent :: sent in sys.ledger.notified ==> sent.lineage != d.lineage
  {
    hide NamesOk, CallsOk, RotationsOk, ReplaysOk, LeasesOk, WatchesOk, BudgetsOk, Balanced, IdentitiesOk;
    forall sent | sent in sys.ledger.notified ensures sent.lineage != d.lineage {
      if sent.lineage == d.lineage {
        NoSecondNotice(sys.ledger, sent, d);
      }
    }
  }

  lemma {:induction false} NoticeWasSent(host: Allocation, run: seq<Action>, d: Departure)
    requires IsRun(host, run) && d in After(host, run).ledger.notified
    ensures exists i :: 0 <= i < |run| && run[i] == Notify(d)
  {
    hide Enabled, NextServer, NextNames, NextCalls, NextLeases, Removed;
    if run != [] && run[|run| - 1] != Notify(d) {
      var before := run[..|run| - 1];
      NoticeWasSent(host, before, d);
      var i :| 0 <= i < |before| && before[i] == Notify(d);
      assert run[i] == Notify(d);
    }
  }

  /** Every departed lineage gets its leave notification, or a caller is about to send it. */
  lemma EveryDepartureIsNotified(host: Allocation, run: seq<Action>, l: Lineage)
    requires IsRun(host, run) && HasDeparted(After(host, run).ledger, l)
    ensures || (exists d :: d in After(host, run).ledger.owed && d.lineage == l)
            || (exists i :: 0 <= i < |run| && run[i].Notify? && run[i].departure.lineage == l)
  {
    hide NamesOk, CallsOk, RotationsOk, ReplaysOk, LeasesOk, WatchesOk, BudgetsOk, LedgerOk, Balanced, IdentitiesOk,
         After, IsRun;
    RunKeepsInv(host, run);
    var ledger := After(host, run).ledger;
    var i :| 0 <= i < |ledger.departures| && ledger.departures[i].lineage == l;
    var d := ledger.departures[i];
    assert d in multiset(ledger.departures);
    if d !in ledger.owed {
      NoticeWasSent(host, run, d);
    }
  }

  /** Only a departed lineage is ever notified, and it is gone: it lives under no credential. */
  lemma NotifiedHasDeparted(host: Allocation, run: seq<Action>, i: nat)
    requires IsRun(host, run) && i < |run| && run[i].Notify?
    ensures HasDeparted(At(host, run, i).ledger, run[i].departure.lineage)
    ensures run[i].departure.lineage !in Live(At(host, run, i).server, At(host, run, i).names)
  {
    hide NamesOk, CallsOk, RotationsOk, ReplaysOk, LeasesOk, WatchesOk, BudgetsOk, Balanced, IdentitiesOk,
         At, After, IsRun, NextServer, NextNames, NextCalls, NextLeases, NextLedger, Live;
    StepAt(host, run, i);
    var ledger, d := At(host, run, i).ledger, run[i].departure;
    assert d in ledger.owed + ledger.notified;
    assert d in ledger.departures;
  }
}
