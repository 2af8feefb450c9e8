/** What callers of the endpoint are told, in terms of their requests and of what happened before, over every run. */
module ProtocolAnswers {
  import opened Wrappers
  import opened Membership
  import opened Protocol
  import opened ProtocolInvariants
  import opened ProtocolLedger
  import opened ProtocolRuns
  import opened ProtocolReplays

  // ---- Only the runtime a membership was admitted to ----

  /** The request comes from the hosted runtime. */
  predicate SameRuntime(host: Allocation, request: ReconnectRequest) {
    request.digest == Some(host.identityHash)
  }

  /** The token was handed out by the hosted session for the hosted runtime. */
  predicate OwnToken(host: Allocation, token: Admission) {
    token.sessionId == host.sessionId && token.identityHash == host.identityHash && token.characterId != ""
  }

  ghost predicate RuntimesOk(sys: System, host: Allocation) {
    && (forall f :: f in sys.calls.fetched ==> SameRuntime(host, f.0) && OwnToken(host, f.1.admission))
    && (forall a :: a in sys.names.answers ==> SameRuntime(host, a.request))
  }

  lemma RuntimesKept(sys: System, host: Allocation, a: Action)
    requires RuntimesOk(sys, host) && Enabled(sys, a)
    ensures RuntimesOk(Step(sys, host, a), host)
  {
  }

  lemma {:induction false} RunKeepsRuntimes(host: Allocation, run: seq<Action>)
    requires IsRun(host, run)
    ensures RuntimesOk(After(host, run), host)
  {
    hide Enabled, Step, RuntimesOk;
    if run == [] {
      NoRuntimes(host);
    } else {
      RunKeepsRuntimes(host, run[..|run| - 1]);
      RuntimesKept(After(host, run[..|run| - 1]), host, run[|run| - 1]);
    }
  }

  lemma NoRuntimes(host: Allocation)
    ensures RuntimesOk(INITIAL, host)
  {
  }

  /** In every interleaving, raced rotations and replays included, only requests from the hosted runtime are ever
      answered. */
  lemma AnswersAreForThisRuntime(host: Allocation, run: seq<Action>, a: Answer)
    requires IsRun(host, run) && a in After(host, run).names.answers
    ensures a.request.digest == Some(host.identityHash)
  {
    hide After, IsRun;
    RunKeepsRuntimes(host, run);
  }

  // ---- One request ----

  /** What a Reconnect that nothing interrupts answers for a live credential that has not been rotated. */
  lemma ReconnectAnswers(s: State, host: Allocation, request: ReconnectRequest, minted: Credential, snapshot: Snapshot)
    requires request.credential in s.connections && request.credential != "" && request.credential !in s.reconnects
    ensures
      var member := s.connections[request.credential];
      var (s', answer) := ReconnectAlone(s, host, request, Some(minted), Some(snapshot));
      && (answer.Ok? <==>
            && 32 <= |request.nonce| <= 128 && request.digest == Some(host.identityHash)
            && member.admission.sessionId == host.sessionId && member.admission.identityHash == host.identityHash
            && member.admission.characterId != "")
      && (answer.Ok? ==>
            && answer.value == JoinResponse(minted, member.admission, snapshot)
            && minted in s'.connections && s'.connections[minted] == member.(connected := true))
      && (answer.Err? ==>
            s' == s && answer.error == if 32 <= |request.nonce| <= 128 then Compatibility else Authentication)
  {
  }

  /** And what it answers when there is no membership, no credential or no snapshot to be had. */
  lemma ReconnectRefuses(s: State, host: Allocation, request: ReconnectRequest, minted: Option<Credential>,
                         snapshot: Option<Snapshot>)
    requires request.credential !in s.reconnects && 32 <= |request.nonce| <= 128
    ensures request.credential !in s.connections ==>
              ReconnectAlone(s, host, request, minted, snapshot) == (s, Err(Authentication))
    ensures request.credential in s.connections && request.credential != "" && (minted.None? || snapshot.None?) ==>
              ReconnectAlone(s, host, request, minted, snapshot)
              == (s, Err(if SameRuntime(host, request) && OwnToken(host, s.connections[request.credential].admission)
                         then Unavailable else Compatibility))
  {
  }

  /** A replayed answer for another runtime is no answer at all. */
  lemma ReplayIsForThisRuntime(s: State, host: Allocation, request: ReconnectRequest)
    ensures ReplayLookup(s, request, host).1.Some? <==>
              && request.credential in s.reconnects && s.reconnects[request.credential].nonce == request.nonce
              && s.reconnects[request.credential].response.credential in s.connections
              && SameRuntime(host, request)
              && OwnToken(host, s.connections[s.reconnects[request.credential].response.credential].admission)
    ensures ReplayLookup(s, request, host).1.Some? ==>
              ReplayLookup(s, request, host).1.value == s.reconnects[request.credential].response
    ensures ReplayLookup(s, request, host).1.None? ==> ReplayLookup(s, request, host).0 == s
  {
  }

  /** What a Join that nothing interrupts answers, the first thing amiss counting; a joined member is connected and may
      spend a whole burst. */
  lemma JoinAnswers(s: State, version: nat, principal: Option<Principal>, admission: Option<Admission>,
                    minted: Option<Credential>, now: real, snapshot: Option<Snapshot>)
    ensures
      var (s', answer) := JoinAlone(s, version, principal, admission, minted, now, snapshot);
      && (answer.Ok? <==> version == 2 && principal.Some? && admission.Some? && minted.Some? && snapshot.Some?)
      && (answer.Err? ==>
            answer.error == if version != 2 then Protocol else if principal.None? then Authentication
                            else if admission.None? then Compatibility else Unavailable)
      && (answer.Ok? ==>
            var c := answer.value.credential;
            && c == minted.value && c in s'.connections && s'.connections[c].connected
            && s'.connections[c].principal == principal.value && s'.connections[c].admission == admission.value
            && answer.value.admission == admission.value && answer.value.snapshot == snapshot.value
            && s'.connections[c].commands.tokens == 64.0 && s'.connections[c].refreshes.tokens == 4.0
            && s'.watches == s.watches && s'.reconnects == s.reconnects
            && forall d :: d in s.connections && d != c ==>
                 d in s'.connections && s'.connections[d] == s.connections[d])
  {
  }

  // ---- Disconnecting ----

  /** Until it reconnects, a disconnected member is refused everything but reconnecting. */
  lemma DisconnectedIsSilenced(s: State, c: Credential, refresh: bool, now: real)
    requires c in s.connections && c != "" && s.connections[c].connected
    ensures
      var (s', scheduled) := Suspend(s, c);
      && scheduled.Some? && c !in s'.watches
      && Debit(s', c, refresh, now) == (s', Err(Authentication))
      && StartWatch(s', c) == (s', Some(Authentication))
      && Member(s', c, false) == Err(Authentication) && Member(s', c, true).Ok?
      && Suspend(s', c) == (s', None)
  {
  }

  lemma SuspendStep(sys: System, host: Allocation, c: Credential)
    requires c in sys.server.connections && c != "" && sys.server.connections[c].connected
    ensures
      var timer := Timer(c, sys.server.connections[c].disconnectGeneration + 1, sys.leases.clock);
      var sys' := Step(sys, host, Disconnect(c));
      && timer in sys'.leases.arming && sys'.names == sys.names && sys'.ledger == sys.ledger
      && Expires(sys'.server, c, timer.generation)
      && sys'.server.connections[c].principal == sys.server.connections[c].principal
  {
  }

  lemma ArmStep(sys: System, host: Allocation, timer: Timer)
    ensures
      var sys' := Step(sys, host, ArmTimer(timer));
      && timer in sys'.leases.timers && sys'.server == sys.server
      && sys'.names == sys.names && sys'.ledger == sys.ledger
  {
  }

  lemma FireStep(sys: System, host: Allocation, timer: Timer)
    requires Expires(sys.server, timer.credential, timer.generation) && timer.credential in sys.names.lineage
    ensures
      var sys' := Step(sys, host, FireTimer(timer));
      && timer.credential !in sys'.server.connections && timer.credential !in sys'.server.watches
      && Departure(sys.names.lineage[timer.credential], sys.server.connections[timer.credential].principal)
         in sys'.ledger.owed
  {
  }

  /** From every reachable state, a member who disconnects and does not come back is gone once its timer has fired, and
      its leaving is owed a notification. */
  lemma AbandonedMembershipExpires(host: Allocation, run: seq<Action>, c: Credential)
    requires IsRun(host, run) && c in After(host, run).names.returned
    requires c in After(host, run).server.connections && After(host, run).server.connections[c].connected
    ensures
      var sys := After(host, run);
      var timer := Timer(c, sys.server.connections[c].disconnectGeneration + 1, sys.leases.clock);
      var run' := run + [Disconnect(c)] + [ArmTimer(timer)] + [FireTimer(timer)];
      && IsRun(host, run') && c in sys.names.lineage
      && c !in After(host, run').server.connections
      && Departure(sys.names.lineage[c], sys.server.connections[c].principal) in After(host, run').ledger.owed
  {
    var sys := After(host, run);
    var timer := Timer(c, sys.server.connections[c].disconnectGeneration + 1, sys.leases.clock);
    NamedAndKnown(host, run, c);
    hide After, IsRun, Step, Expires;
    OneMoreStep(host, run, Disconnect(c));
    SuspendStep(sys, host, c);
    var suspended := run + [Disconnect(c)];
    OneMoreStep(host, suspended, ArmTimer(timer));
    ArmStep(After(host, suspended), host, timer);
    var armed := suspended + [ArmTimer(timer)];
    OneMoreStep(host, armed, FireTimer(timer));
    FireStep(After(host, armed), host, timer);
  }

  lemma NamedAndKnown(host: Allocation, run: seq<Action>, c: Credential)
    requires IsRun(host, run) && c in After(host, run).server.connections
    ensures c in After(host, run).names.lineage && c != ""
  {
    hide After, IsRun, CallsOk, RotationsOk, ReplaysOk, LeasesOk, WatchesOk, BudgetsOk, LedgerOk, Balanced, NoticesOk,
         IdentitiesOk, OnePerLineage;
    RunKeepsInv(host, run);
  }

  // ---- The end of the replay window ----

  /** The timers of the replay table are those of recorded rotations, and what a fired one ended is out of the table and
      will not come back. */
  ghost predicate WindowsOk(sys: System) {
    && (forall p :: p in sys.names.replayArming + sys.names.replayTimers ==>
          exists i :: 0 <= i < |sys.names.rotations| && sys.names.rotations[i].from == p.0
                      && sys.names.rotations[i].nonce == p.1)
    && (forall c :: c in sys.names.replaysEnded ==> c !in sys.server.reconnects && c !in sys.server.connections
                                                    && c in sys.names.lineage)
  }

  lemma TimersKept(sys: System, host: Allocation, a: Action)
    requires WindowsOk(sys) && Enabled(sys, a)
    ensures var names' := NextNames(sys.names, sys.server, host, a);
            forall p :: p in names'.replayArming + names'.replayTimers ==>
              exists i :: 0 <= i < |names'.rotations| && names'.rotations[i].from == p.0
                          && names'.rotations[i].nonce == p.1
  {
    var names' := NextNames(sys.names, sys.server, host, a);
    assert sys.names.rotations <= names'.rotations;
    forall p | p in names'.replayArming + names'.replayTimers
      ensures exists i :: 0 <= i < |names'.rotations| && names'.rotations[i].from == p.0
                          && names'.rotations[i].nonce == p.1
    {
      if p in sys.names.replayArming + sys.names.replayTimers {
        var i :| 0 <= i < |sys.names.rotations| && sys.names.rotations[i].from == p.0
          && sys.names.rotations[i].nonce == p.1;
        assert names'.rotations[i] == sys.names.rotations[i];
      } else {
        assert names'.rotations[|sys.names.rotations|].from == p.0;
      }
    }
  }

  lemma EndedKept(sys: System, host: Allocation, a: Action, c: Credential)
    requires Credentials(sys.server, sys.names) && CallsOk(sys.server, sys.names, sys.calls) && Enabled(sys, a)
    requires WindowsOk(sys) && c in NextNames(sys.names, sys.server, host, a).replaysEnded
    ensures c !in NextServer(sys.server, host, a).reconnects && c !in NextServer(sys.server, host, a).connections
    ensures c in NextNames(sys.names, sys.server, host, a).lineage
  {
    if c in sys.names.replaysEnded {
      EndedStays(sys, host, a, c);
    } else {
      EndsNow(sys, host, a, c);
    }
  }

  lemma EndedStays(sys: System, host: Allocation, a: Action, c: Credential)
    requires Credentials(sys.server, sys.names) && CallsOk(sys.server, sys.names, sys.calls) && Enabled(sys, a)
    requires c !in sys.server.reconnects && c !in sys.server.connections && c in sys.names.lineage
    ensures c !in NextServer(sys.server, host, a).reconnects && c !in NextServer(sys.server, host, a).connections
    ensures c in NextNames(sys.names, sys.server, host, a).lineage
  {
    hide NamesOk, CallsOk, RotationsOk, ReplaysOk, Enabled;
    GoneStep(sys, host, a, c);
  }

  lemma EndsNow(sys: System, host: Allocation, a: Action, c: Credential)
    requires Credentials(sys.server, sys.names) && Enabled(sys, a) && WindowsOk(sys)
    requires c in NextNames(sys.names, sys.server, host, a).replaysEnded && c !in sys.names.replaysEnded
    ensures c !in NextServer(sys.server, host, a).reconnects && c !in NextServer(sys.server, host, a).connections
    ensures c in NextNames(sys.names, sys.server, host, a).lineage
  {
    assert a.FireReplayTimer? && a.c == c && (c, a.nonce) in sys.names.replayTimers;
    var i :| 0 <= i < |sys.names.rotations| && sys.names.rotations[i].from == c
      && sys.names.rotations[i].nonce == a.nonce;
    assert sys.names.rotations[i] in sys.names.rotations;
    hide NamesOk;
    if c in sys.server.reconnects {
      var entry := sys.server.reconnects[c];
      assert Rotation(c, entry.response.credential, entry.nonce, entry.response) in sys.names.rotations;
    }
  }

  lemma {:induction false} RunKeepsWindows(host: Allocation, run: seq<Action>)
    requires IsRun(host, run)
    ensures WindowsOk(After(host, run))
  {
    hide Enabled, NextServer, NextCalls, NextNames, NextLeases, NextLedger, Inv, NamesOk, CallsOk, RotationsOk,
         ReplaysOk, LeasesOk, BudgetsOk;
    if run != [] {
      var sys, a := After(host, run[..|run| - 1]), run[|run| - 1];
      RunKeepsWindows(host, run[..|run| - 1]);
      RunKeepsInv(host, run[..|run| - 1]);
      Parts(sys);
      TimersKept(sys, host, a);
      forall c | c in NextNames(sys.names, sys.server, host, a).replaysEnded
        ensures c !in NextServer(sys.server, host, a).reconnects && c !in NextServer(sys.server, host, a).connections
        ensures c in NextNames(sys.names, sys.server, host, a).lineage
      {
        EndedKept(sys, host, a, c);
      }
    }
  }

  lemma {:induction false} FiredHasEnded(host: Allocation, run: seq<Action>, c: Credential, nonce: Nonce)
    requires FireReplayTimer(c, nonce) in run
    ensures c in After(host, run).names.replaysEnded
  {
    hide NextServer, NextCalls, NextLeases, NextLedger;
    if run[|run| - 1] != FireReplayTimer(c, nonce) {
      FiredHasEnded(host, run[..|run| - 1], c, nonce);
    }
  }

  /** Once the timer of its replay entry has fired, an old credential gets no answer again, whole or raced. */
  lemma ReplayWindowEnds(host: Allocation, run: seq<Action>, c: Credential, nonce: Nonce, request: ReconnectRequest,
                         minted: Credential, member: Connection, snapshot: Snapshot)
    requires IsRun(host, run) && FireReplayTimer(c, nonce) in run && request.credential == c
    ensures
      var s := After(host, run).server;
      && ReconnectAlone(s, host, request, Some(minted), Some(snapshot)) == (s, Err(Authentication))
      && Rotate(s, request, minted, member, snapshot) == (s, Rejected)
  {
    hide After, IsRun;
    RunKeepsWindows(host, run);
    FiredHasEnded(host, run, c, nonce);
  }

  // ---- Watches ----

  predicate ConnectedAs(s: State, c: Credential) {
    c in s.connections && s.connections[c].connected
  }

  predicate OpensWatch(s: State, a: Action, c: Credential) {
    a == OpenWatch(c) && StartWatch(s, c).1.None?
  }

  lemma WatchStep(sys: System, host: Allocation, a: Action, c: Credential)
    requires sys.server.connections.Keys <= sys.names.lineage.Keys && Enabled(sys, a)
    requires WatchesOk(sys.server, sys.names)
    requires WatchesOk(NextServer(sys.server, host, a), NextNames(sys.names, sys.server, host, a))
    ensures c in NextServer(sys.server, host, a).watches <==>
            || OpensWatch(sys.server, a, c)
            || (c in sys.server.watches && a != CloseWatch(c) && ConnectedAs(NextServer(sys.server, host, a), c))
  {
    hide Take;
  }

  /** Step `j` neither closed the watch on `c` nor left it disconnected. */
  predicate KeepsWatch(host: Allocation, run: seq<Action>, j: nat, c: Credential)
    requires j < |run|
  {
    run[j] != CloseWatch(c) && ConnectedAs(At(host, run, j + 1).server, c)
  }

  /** Step `i` opened a watch on `c` that nothing has ended since: it was not closed, and the membership stayed
      connected under `c`. */
  predicate WatchedSince(host: Allocation, run: seq<Action>, i: nat, c: Credential)
    requires i < |run|
  {
    && OpensWatch(At(host, run, i).server, run[i], c)
    && forall j :: i < j < |run| ==> KeepsWatch(host, run, j, c)
  }

  ghost predicate Watched(host: Allocation, run: seq<Action>, c: Credential) {
    exists i :: 0 <= i < |run| && WatchedSince(host, run, i, c)
  }

  /** What a step of a shorter run did it does in the longer one. */
  lemma SameStep(host: Allocation, run: seq<Action>, j: nat, c: Credential)
    requires j < |run| - 1
    ensures var before := run[..|run| - 1];
            && before[j] == run[j] && At(host, before, j) == At(host, run, j)
            && (KeepsWatch(host, before, j, c) <==> KeepsWatch(host, run, j, c))
  {
    var before := run[..|run| - 1];
    assert before[..j] == run[..j] && before[..j + 1] == run[..j + 1];
    hide After, ConnectedAs;
  }

  lemma WatchedOneMore(host: Allocation, run: seq<Action>, i: nat, c: Credential)
    requires i < |run| - 1
    ensures WatchedSince(host, run, i, c) <==>
            WatchedSince(host, run[..|run| - 1], i, c) && KeepsWatch(host, run, |run| - 1, c)
  {
    hide After, OpensWatch, KeepsWatch, At;
    var before := run[..|run| - 1];
    SameStep(host, run, i, c);
    forall j | i < j < |before| ensures KeepsWatch(host, before, j, c) <==> KeepsWatch(host, run, j, c) {
      SameStep(host, run, j, c);
    }
  }

  lemma WatchedStep(host: Allocation, run: seq<Action>, c: Credential)
    requires run != []
    ensures
      var before, a := run[..|run| - 1], run[|run| - 1];
      Watched(host, run, c) <==>
        || OpensWatch(After(host, before).server, a, c)
        || (Watched(host, before, c) && a != CloseWatch(c) && ConnectedAs(After(host, run).server, c))
  {
    hide After, OpensWatch, ConnectedAs;
    var before, n := run[..|run| - 1], |run| - 1;
    LastStepIs(host, run, c);
    hide KeepsWatch, At;
    forall i | 0 <= i < n
      ensures WatchedSince(host, run, i, c) <==> WatchedSince(host, before, i, c) && KeepsWatch(host, run, n, c)
    {
      WatchedOneMore(host, run, i, c);
    }
    assert WatchedSince(host, run, n, c) <==> OpensWatch(After(host, before).server, run[n], c);
    hide WatchedSince;
    if Watched(host, before, c) && KeepsWatch(host, run, n, c) {
      var i :| 0 <= i < |before| && WatchedSince(host, before, i, c);
      assert WatchedSince(host, run, i, c);
    }
    if Watched(host, run, c) {
      var i :| 0 <= i < |run| && WatchedSince(host, run, i, c);
      assert i < n ==> WatchedSince(host, before, i, c);
    }
  }

  lemma LastStepIs(host: Allocation, run: seq<Action>, c: Credential)
    requires run != []
    ensures At(host, run, |run| - 1) == After(host, run[..|run| - 1])
    ensures KeepsWatch(host, run, |run| - 1, c) <==>
            run[|run| - 1] != CloseWatch(c) && ConnectedAs(After(host, run).server, c)
  {
    assert run[..|run|] == run;
    hide After, ConnectedAs;
  }

  /** In every run a credential is watched exactly if some accepted call opened a watch that has not been closed and
      whose membership has stayed connected under that credential. */
  lemma {:induction false} WatchHistory(host: Allocation, run: seq<Action>, c: Credential)
    requires IsRun(host, run)
    ensures c in After(host, run).server.watches <==> Watched(host, run, c)
  {
    hide Enabled, Inv, NamesOk, CallsOk, RotationsOk, ReplaysOk, LeasesOk, BudgetsOk, WatchesOk, NextServer, NextNames,
         NextCalls, NextLeases, NextLedger, Watched, OpensWatch, ConnectedAs;
    if run == [] {
      NothingWatched(host, c);
    } else {
      var sys, a := After(host, run[..|run| - 1]), run[|run| - 1];
      WatchHistory(host, run[..|run| - 1], c);
      WatchesOfRun(host, run[..|run| - 1]);
      WatchesOfRun(host, run);
      WatchStep(sys, host, a, c);
      WatchedStep(host, run, c);
    }
  }

  lemma NothingWatched(host: Allocation, c: Credential)
    ensures c !in After(host, []).server.watches && !Watched(host, [], c)
  {
  }

  lemma WatchesOfRun(host: Allocation, run: seq<Action>)
    requires IsRun(host, run)
    ensures WatchesOk(After(host, run).server, After(host, run).names)
    ensures After(host, run).server.connections.Keys <= After(host, run).names.lineage.Keys
  {
    hide After, IsRun, RootsOk, OnePerLineage, CallsOk, RotationsOk, ReplaysOk, LeasesOk, WatchesOk, BudgetsOk,
         LedgerOk, Balanced, NoticesOk, IdentitiesOk;
    RunKeepsInv(host, run);
  }

  /** So a connected member is given a watch exactly when it has none, and a second one is refused until the first is
      closed or the member goes. */
  lemma WatchIsGivenOnce(host: Allocation, run: seq<Action>, c: Credential)
    requires IsRun(host, run) && ConnectedAs(After(host, run).server, c)
    ensures StartWatch(After(host, run).server, c).1 ==
            if Watched(host, run, c) then Some(RateLimit) else None
  {
    NamedAndKnown(host, run, c);
    WatchHistory(host, run, c);
    hide After, IsRun, Watched;
  }
}
