/** What a replayed reconnect is worth: when its answer still names the membership, over every run. */
module ProtocolReplays {
  import opened Wrappers
  import opened Membership
  import opened Protocol
  import opened ProtocolInvariants
  import opened ProtocolLedger
  import opened ProtocolRuns
  import opened ClientRecovery

  /** In every run, a returned credential names a live membership, or was rotated, or its lineage has departed. */
  lemma {:induction false} RunIsAccounted(host: Allocation, run: seq<Action>)
    requires IsRun(host, run)
    ensures Accounted(After(host, run))
  {
    hide Inv, Accounted, NamesOk, CallsOk, RotationsOk, ReplaysOk, LeasesOk, BudgetsOk, Step, Enabled;
    if run == [] {
      NothingToAccount();
    } else {
      var before := run[..|run| - 1];
      RunIsAccounted(host, before);
      RunKeepsInv(host, before);
      Parts(After(host, before));
      AccountedKept(After(host, before), host, run[|run| - 1]);
    }
  }

  lemma NothingToAccount()
    ensures Accounted(INITIAL)
  {
  }

  /** A rotated credential names nothing, and neither does one of a departed lineage. */
  lemma GoneIsNotLive(s: State, names: Names, ledger: Ledger, c: Credential)
    requires NamesOk(s, names) && RotationsOk(s, names) && LedgerOk(Live(s, names), names, ledger)
    requires c in s.connections && c in names.lineage
    ensures !ClientRecovery.Rotated(names, c) && !HasDeparted(ledger, names.lineage[c])
  {
    LiveMember(s, names, c);
  }

  /** The answer that the loser of a rotation race gets names a live membership exactly when the credential in it has
      not been rotated on and its lineage has not departed. When it does not, the same request made afresh is refused.
      */
  lemma ReplayedAnswerIsLive(host: Allocation, run: seq<Action>, request: ReconnectRequest, minted: Credential,
                             member: Connection, snapshot: Snapshot)
    requires IsRun(host, run)
    requires Rotate(After(host, run).server, request, minted, member, snapshot).1.Replayed?
    ensures
      var sys := After(host, run);
      var c := Rotate(sys.server, request, minted, member, snapshot).1.response.credential;
      && c in sys.names.lineage
      && (c in sys.server.connections <==>
            !ClientRecovery.Rotated(sys.names, c) && !HasDeparted(sys.ledger, sys.names.lineage[c]))
      && (c !in sys.server.connections ==> forall fresh', snapshot' ::
            ReconnectAlone(sys.server, host, request, fresh', snapshot') == (sys.server, Err(Authentication)))
  {
    var sys := After(host, run);
    RunKeepsInv(host, run);
    RunIsAccounted(host, run);
    var c := sys.server.reconnects[request.credential].response.credential;
    hide After, IsRun, CallsOk, LeasesOk, WatchesOk, BudgetsOk, Balanced, NoticesOk, IdentitiesOk, LedgerOk,
         HasDeparted;
    assert Rotation(request.credential, c, request.nonce, sys.server.reconnects[request.credential].response)
        in sys.names.rotations;
    if c in sys.server.connections {
      GoneIsNotLive(sys.server, sys.names, sys.ledger, c);
    }
  }

  // ---- Uninterrupted requests as runs ----

  lemma OneMoreStep(host: Allocation, run: seq<Action>, a: Action)
    requires IsRun(host, run) && Enabled(After(host, run), a)
    ensures IsRun(host, run + [a]) && After(host, run + [a]) == Step(After(host, run), host, a)
  {
    assert (run + [a])[..|run + [a]| - 1] == run;
  }

  /** The steps of a Reconnect that nothing interrupts. */
  function ReconnectSteps(s: State, host: Allocation, request: ReconnectRequest, minted: Option<Credential>,
                          snapshot: Option<Snapshot>): seq<Action>
  {
    if !NonceInRange(request.nonce) then []
    else if ReplayHit(s, request, host) then [CheckReplay(request)]
    else
      var member := Member(s, request.credential, true);
      if member.Err? || !Accepts(host, member.value.admission, request.digest) || minted.None? || snapshot.None? then
        [CheckReplay(request)] + [FetchMember(request)]
      else
        [CheckReplay(request)] + [FetchMember(request)]
          + [RotateCredential(request, minted.value, member.value, snapshot.value)]
  }

  predicate Mintable(names: Names, minted: Option<Credential>) {
    minted.Some? ==> minted.value != "" && minted.value !in names.lineage
  }

  /** A request that goes on to fetch its membership. */
  predicate Fetches(s: State, host: Allocation, request: ReconnectRequest) {
    && NonceInRange(request.nonce) && !ReplayHit(s, request, host)
    && Member(s, request.credential, true).Ok?
    && Accepts(host, Member(s, request.credential, true).value.admission, request.digest)
  }

  /** What one uninterrupted Reconnect makes of a system. */
  ghost predicate Reconnects(sys: System, host: Allocation, request: ReconnectRequest, minted: Option<Credential>,
                             snapshot: Option<Snapshot>, sys': System)
  {
    var (server, response) := ReconnectAlone(sys.server, host, request, minted, snapshot);
    var member := Member(sys.server, request.credential, true);
    && sys'.server == server
    && (response.Ok? ==> Answer(request, response.value) in sys'.names.answers)
    && (response.Ok? ==> response.value.credential in sys'.names.returned)
    && (response.Err? ==> sys'.names == sys.names)
    && sys'.names.lineage.Keys <= sys.names.lineage.Keys + (if minted.Some? then {minted.value} else {})
    && sys.names.returned <= sys'.names.returned
    && sys.calls.fetched <= sys'.calls.fetched
    && (Fetches(sys.server, host, request) ==> (request, member.value) in sys'.calls.fetched)
  }

  lemma FetchPhase(sys: System, host: Allocation, request: ReconnectRequest)
    requires !ReplayHit(sys.server, request, host)
    ensures
      var checked := Step(sys, host, CheckReplay(request));
      var fetched := Step(checked, host, FetchMember(request));
      var member := Member(sys.server, request.credential, true);
      && Enabled(checked, FetchMember(request))
      && fetched.server == sys.server && fetched.names == sys.names && sys.calls.fetched <= fetched.calls.fetched
      && (member.Ok? && Accepts(host, member.value.admission, request.digest) ==>
            (request, member.value) in fetched.calls.fetched)
  {
  }

  lemma RotatePhase(sys: System, host: Allocation, request: ReconnectRequest, minted: Credential, member: Connection,
                    snapshot: Snapshot)
    requires request.credential in sys.server.connections && member == sys.server.connections[request.credential]
    ensures
      var response := JoinResponse(minted, member.admission, snapshot);
      var sys' := Step(sys, host, RotateCredential(request, minted, member, snapshot));
      && sys'.server == Rotate(sys.server, request, minted, member, snapshot).0
      && Rotate(sys.server, request, minted, member, snapshot).1.Rotated?
      && Rotate(sys.server, request, minted, member, snapshot).1.response == response
      && Answer(request, response) in sys'.names.answers && minted in sys'.names.returned
      && sys'.names.lineage.Keys == sys.names.lineage.Keys + {minted}
      && sys.names.returned <= sys'.names.returned && sys'.calls == sys.calls
  {
  }

  /** Reconnect with no other call in between is a run of its phases: the same tables and the same response. */
  lemma ReconnectIsRun(host: Allocation, run: seq<Action>, request: ReconnectRequest, minted: Option<Credential>,
                       snapshot: Option<Snapshot>)
    requires IsRun(host, run) && request.credential in After(host, run).names.returned
    requires Mintable(After(host, run).names, minted)
    ensures
      var steps := ReconnectSteps(After(host, run).server, host, request, minted, snapshot);
      && IsRun(host, run + steps)
      && Reconnects(After(host, run), host, request, minted, snapshot, After(host, run + steps))
  {
    hide After, IsRun, ReplayHit, Accepts, Reconnects, Enabled, Step;
    var sys := After(host, run);
    if !NonceInRange(request.nonce) {
      assert run + [] == run;
      RefusedOutright(sys, host, request, minted, snapshot);
    } else if ReplayHit(sys.server, request, host) {
      HitRun(host, run, request, minted, snapshot);
    } else if Fetches(sys.server, host, request) && minted.Some? && snapshot.Some? {
      RotateRun(host, run, request, minted.value, snapshot.value);
    } else {
      MissRun(host, run, request, minted, snapshot);
    }
  }

  lemma RefusedOutright(sys: System, host: Allocation, request: ReconnectRequest, minted: Option<Credential>,
                        snapshot: Option<Snapshot>)
    requires !NonceInRange(request.nonce)
    ensures Reconnects(sys, host, request, minted, snapshot, sys)
  {
  }

  lemma HitRun(host: Allocation, run: seq<Action>, request: ReconnectRequest, minted: Option<Credential>,
               snapshot: Option<Snapshot>)
    requires IsRun(host, run) && request.credential in After(host, run).names.returned && NonceInRange(request.nonce)
    requires ReplayHit(After(host, run).server, request, host)
    ensures IsRun(host, run + [CheckReplay(request)])
    ensures Reconnects(After(host, run), host, request, minted, snapshot, After(host, run + [CheckReplay(request)]))
  {
    hide After, IsRun, Step, ReplayHit;
    OneMoreStep(host, run, CheckReplay(request));
    HitPhase(After(host, run), host, request);
  }

  /** The first two phases, as a run. */
  lemma FetchRun(host: Allocation, run: seq<Action>, request: ReconnectRequest)
    requires IsRun(host, run) && request.credential in After(host, run).names.returned && NonceInRange(request.nonce)
    requires !ReplayHit(After(host, run).server, request, host)
    ensures
      var fetched := run + [CheckReplay(request)] + [FetchMember(request)];
      var sys, sys' := After(host, run), After(host, fetched);
      && IsRun(host, fetched) && sys'.server == sys.server && sys'.names == sys.names
      && sys.calls.fetched <= sys'.calls.fetched
      && (Fetches(sys.server, host, request) ==>
            (request, Member(sys.server, request.credential, true).value) in sys'.calls.fetched)
  {
    FetchPhase(After(host, run), host, request);
    OneMoreStep(host, run, CheckReplay(request));
    hide After, IsRun, Step, ReplayHit, Accepts, Enabled;
    OneMoreStep(host, run + [CheckReplay(request)], FetchMember(request));
  }

  lemma MissRun(host: Allocation, run: seq<Action>, request: ReconnectRequest, minted: Option<Credential>,
                snapshot: Option<Snapshot>)
    requires IsRun(host, run) && request.credential in After(host, run).names.returned && NonceInRange(request.nonce)
    requires !ReplayHit(After(host, run).server, request, host)
    requires !(Fetches(After(host, run).server, host, request) && minted.Some? && snapshot.Some?)
    ensures
      var steps := [CheckReplay(request)] + [FetchMember(request)];
      && IsRun(host, run + steps)
      && Reconnects(After(host, run), host, request, minted, snapshot, After(host, run + steps))
  {
    FetchRun(host, run, request);
    hide After, IsRun, ReplayHit, Accepts;
    assert run + ([CheckReplay(request)] + [FetchMember(request)])
        == run + [CheckReplay(request)] + [FetchMember(request)];
  }

  lemma RotateRun(host: Allocation, run: seq<Action>, request: ReconnectRequest, minted: Credential, snapshot: Snapshot)
    requires IsRun(host, run) && request.credential in After(host, run).names.returned
    requires Fetches(After(host, run).server, host, request) && Mintable(After(host, run).names, Some(minted))
    ensures
      var member := Member(After(host, run).server, request.credential, true).value;
      var steps := [CheckReplay(request)] + [FetchMember(request)]
                   + [RotateCredential(request, minted, member, snapshot)];
      && IsRun(host, run + steps)
      && Reconnects(After(host, run), host, request, Some(minted), Some(snapshot), After(host, run + steps))
  {
    hide After, IsRun, ReplayHit, Accepts, Step, Rotate, Reconnects, Enabled;
    var sys := After(host, run);
    var member := Member(sys.server, request.credential, true).value;
    var fetched := run + [CheckReplay(request)] + [FetchMember(request)];
    var rotation := RotateCredential(request, minted, member, snapshot);
    FetchRun(host, run, request);
    RotationEnabled(After(host, fetched), request, minted, member, snapshot);
    RotatePhase(After(host, fetched), host, request, minted, member, snapshot);
    OneMoreStep(host, fetched, rotation);
    RotationReconnects(sys, After(host, fetched), host, request, minted, snapshot);
    assert run + ([CheckReplay(request)] + [FetchMember(request)] + [rotation]) == fetched + [rotation];
  }

  lemma RotationEnabled(sys: System, request: ReconnectRequest, minted: Credential, member: Connection,
                        snapshot: Snapshot)
    requires (request, member) in sys.calls.fetched && minted != "" && minted !in sys.names.lineage
    ensures Enabled(sys, RotateCredential(request, minted, member, snapshot))
  {
  }

  lemma RotationReconnects(sys: System, fetched: System, host: Allocation, request: ReconnectRequest,
                           minted: Credential,
                           snapshot: Snapshot)
    requires Fetches(sys.server, host, request)
    requires fetched.server == sys.server && fetched.names == sys.names && sys.calls.fetched <= fetched.calls.fetched
    requires (request, Member(sys.server, request.credential, true).value) in fetched.calls.fetched
    ensures var member := Member(sys.server, request.credential, true).value;
            Reconnects(sys, host, request, Some(minted), Some(snapshot),
                       Step(fetched, host, RotateCredential(request, minted, member, snapshot)))
  {
    hide ReplayHit, Accepts, Step, Rotate;
    RotatePhase(fetched, host, request, minted, Member(sys.server, request.credential, true).value, snapshot);
  }

  lemma HitPhase(sys: System, host: Allocation, request: ReconnectRequest)
    requires ReplayHit(sys.server, request, host)
    ensures
      var response := sys.server.reconnects[request.credential].response;
      var sys' := Step(sys, host, CheckReplay(request));
      && sys'.server == ReplayLookup(sys.server, request, host).0
      && Answer(request, response) in sys'.names.answers && response.credential in sys'.names.returned
      && sys'.names.lineage == sys.names.lineage && sys.names.returned <= sys'.names.returned
      && sys'.calls == sys.calls
  {
  }

  /** The steps of a Join that gets as far as registering. */
  function JoinSteps(c: Credential, principal: Principal, admission: Admission, now: real, projected: bool)
    : seq<Action>
  {
    [RegisterJoin(c, principal, admission, now)] + (if projected then [ReturnJoin(c)] else [RollbackJoin(c)])
  }

  /** Join with no other call in between is a run of its phases: the same tables, and a returned credential exactly when
      it succeeds. */
  lemma JoinIsRun(host: Allocation, run: seq<Action>, c: Credential, principal: Principal, admission: Admission,
                  now: real,
                  snapshot: Option<Snapshot>)
    requires IsRun(host, run) && Mintable(After(host, run).names, Some(c))
    requires c !in After(host, run).names.returned
    ensures
      var sys, sys' := After(host, run), After(host, run + JoinSteps(c, principal, admission, now, snapshot.Some?));
      var (server, response) :=
        JoinAlone(sys.server, PROTOCOL_VERSION, Some(principal), Some(admission), Some(c), now, snapshot);
      && IsRun(host, run + JoinSteps(c, principal, admission, now, snapshot.Some?))
      && sys'.server == server && (response.Ok? <==> c in sys'.names.returned)
      && sys'.names.lineage.Keys == sys.names.lineage.Keys + {c}
      && sys'.calls.fetched == sys.calls.fetched
  {
    hide After, IsRun;
    var register := RegisterJoin(c, principal, admission, now);
    var ending := if snapshot.Some? then ReturnJoin(c) else RollbackJoin(c);
    OneMoreStep(host, run, register);
    OneMoreStep(host, run + [register], ending);
    assert run + ([register] + [ending]) == run + [register] + [ending];
  }

  // ---- A stale answer ----

  /** A caller checks and fetches; a second caller rotates the credential it asked for, and a third rotates the one the
      second was given. */
  ghost function Race(host: Allocation, a: Credential, b: Credential, c: Credential, nonce: Nonce, principal: Principal,
                      snapshot: Snapshot, now: real): (run: seq<Action>)
  {
    var admission := Admission(host.sessionId, host.identityHash, "hero");
    var first := ReconnectRequest(a, Some(host.identityHash), nonce);
    var second := ReconnectRequest(b, Some(host.identityHash), nonce);
    var joined := [] + JoinSteps(a, principal, admission, now, true);
    var waiting := joined + ReconnectSteps(After(host, joined).server, host, first, None, None);
    var rotated := waiting + ReconnectSteps(After(host, waiting).server, host, first, Some(b), Some(snapshot));
    rotated + ReconnectSteps(After(host, rotated).server, host, second, Some(c), Some(snapshot))
  }

  lemma RaceIs(host: Allocation, a: Credential, b: Credential, c: Credential, nonce: Nonce, principal: Principal,
               snapshot: Snapshot, now: real)
    ensures
      var admission := Admission(host.sessionId, host.identityHash, "hero");
      var first := ReconnectRequest(a, Some(host.identityHash), nonce);
      var second := ReconnectRequest(b, Some(host.identityHash), nonce);
      var joined := [] + JoinSteps(a, principal, admission, now, true);
      var waiting := joined + ReconnectSteps(After(host, joined).server, host, first, None, None);
      var rotated := waiting + ReconnectSteps(After(host, waiting).server, host, first, Some(b), Some(snapshot));
      Race(host, a, b, c, nonce, principal, snapshot, now)
      == rotated + ReconnectSteps(After(host, rotated).server, host, second, Some(c), Some(snapshot))
  {
    hide After, JoinSteps, ReconnectSteps;
  }

  /** The tables in that race: after the join, after the first rotation, after the second. */
  function RaceTables(a: Credential, b: Credential, c: Credential, member: Connection, nonce: Nonce, snapshot: Snapshot)
    : (State, State, State)
  {
    var first, second := JoinResponse(b, member.admission, snapshot), JoinResponse(c, member.admission, snapshot);
    (State(map[a := member], {}, map[]),
     State(map[b := member], {}, map[a := Replay(nonce, first)]),
     State(map[c := member], {}, map[a := Replay(nonce, first), b := Replay(nonce, second)]))
  }

  lemma RaceGoes(host: Allocation, a: Credential, b: Credential, c: Credential, d: Credential, nonce: Nonce,
                 principal: Principal, snapshot: Snapshot, now: real)
    requires a != "" && b != "" && b != a && c != a && c != b && NonceInRange(nonce)
    ensures
      var admission := Admission(host.sessionId, host.identityHash, "hero");
      var member := NewConnection(principal, admission, now);
      var (s0, s1, s2) := RaceTables(a, b, c, member, nonce, snapshot);
      var first := ReconnectRequest(a, Some(host.identityHash), nonce);
      var second := ReconnectRequest(b, Some(host.identityHash), nonce);
      && JoinAlone(EMPTY, PROTOCOL_VERSION, Some(principal), Some(admission), Some(a), now, Some(snapshot))
         == (s0, Ok(JoinResponse(a, admission, snapshot)))
      && Fetches(s0, host, first) && Member(s0, a, true).value == member
      && ReconnectAlone(s0, host, first, None, None) == (s0, Err(Unavailable))
      && ReconnectAlone(s0, host, first, Some(b), Some(snapshot)) == (s1, Ok(JoinResponse(b, admission, snapshot)))
      && ReconnectAlone(s1, host, second, Some(c), Some(snapshot)) == (s2, Ok(JoinResponse(c, admission, snapshot)))
      && Rotate(s2, first, d, member, snapshot).1 == Replayed(JoinResponse(b, admission, snapshot))
  {
    var admission := Admission(host.sessionId, host.identityHash, "hero");
    var member := NewConnection(principal, admission, now);
    var (s0, s1, s2) := RaceTables(a, b, c, member, nonce, snapshot);
    var answer, next := JoinResponse(b, admission, snapshot), JoinResponse(c, admission, snapshot);
    var first := ReconnectRequest(a, Some(host.identityHash), nonce);
    var second := ReconnectRequest(b, Some(host.identityHash), nonce);
    assert EMPTY.connections[a := member] == map[a := member];
    assert member.(connected := true) == member && s0.watches - {a} == {} && s1.watches - {b} == {};
    assert (s0.connections - {a})[b := member] == map[b := member];
    assert (s1.connections - {b})[c := member] == map[c := member];
    assert s0.reconnects[a := Replay(nonce, answer)] == map[a := Replay(nonce, answer)];
    assert s2.reconnects == s1.reconnects[b := Replay(nonce, next)];
    assert Rotate(s0, first, b, member, snapshot) == (s1, Rotated(answer, principal));
    assert Rotate(s1, second, c, member, snapshot) == (s2, Rotated(next, principal));
  }

  /** The run of the race so far: its tables, what the first caller holds, and which credentials are used up. */
  ghost predicate Raced(host: Allocation, run: seq<Action>, s: State, waiting: (ReconnectRequest, Connection),
                        last: Credential, used: set<Credential>)
  {
    var sys := After(host, run);
    && IsRun(host, run) && sys.server == s && waiting in sys.calls.fetched
    && last in sys.names.returned && sys.names.lineage.Keys <= used
  }

  lemma RaceStarts(host: Allocation, a: Credential, nonce: Nonce, principal: Principal, admission: Admission,
                   snapshot: Snapshot, now: real)
    requires a != "" && NonceInRange(nonce)
    requires var s0 := State(map[a := NewConnection(principal, admission, now)], {}, map[]);
             var request := ReconnectRequest(a, Some(host.identityHash), nonce);
             && JoinAlone(EMPTY, PROTOCOL_VERSION, Some(principal), Some(admission), Some(a), now, Some(snapshot))
                == (s0, Ok(JoinResponse(a, admission, snapshot)))
             && Fetches(s0, host, request) && Member(s0, a, true).value == NewConnection(principal, admission, now)
             && ReconnectAlone(s0, host, request, None, None).0 == s0
    ensures
      var s0 := State(map[a := NewConnection(principal, admission, now)], {}, map[]);
      var request := ReconnectRequest(a, Some(host.identityHash), nonce);
      var joined := [] + JoinSteps(a, principal, admission, now, true);
      var waiting := joined + ReconnectSteps(After(host, joined).server, host, request, None, None);
      Raced(host, waiting, s0, (request, NewConnection(principal, admission, now)), a, {a})
  {
    assert After(host, []) == INITIAL;
    hide After, IsRun, JoinSteps, ReconnectSteps, ReconnectAlone, JoinAlone, Fetches, Member, NewConnection;
    var joined := [] + JoinSteps(a, principal, admission, now, true);
    JoinIsRun(host, [], a, principal, admission, now, Some(snapshot));
    ReconnectIsRun(host, joined, ReconnectRequest(a, Some(host.identityHash), nonce), None, None);
  }

  lemma RaceStep(host: Allocation, run: seq<Action>, s: State, waiting: (ReconnectRequest, Connection),
                 last: Credential,
                 used: set<Credential>, request: ReconnectRequest, minted: Credential, snapshot: Snapshot)
    requires Raced(host, run, s, waiting, last, used) && request.credential == last && minted != "" && minted !in used
    requires ReconnectAlone(s, host, request, Some(minted), Some(snapshot)).1.Ok?
    requires ReconnectAlone(s, host, request, Some(minted), Some(snapshot)).1.value.credential == minted
    ensures
      Raced(host, run + ReconnectSteps(After(host, run).server, host, request, Some(minted), Some(snapshot)),
            ReconnectAlone(s, host, request, Some(minted), Some(snapshot)).0, waiting, minted, used + {minted})
  {
    hide After, IsRun, ReconnectSteps, ReconnectAlone;
    ReconnectIsRun(host, run, request, Some(minted), Some(snapshot));
  }

  lemma RaceEnds(host: Allocation, run: seq<Action>, s: State, waiting: (ReconnectRequest, Connection),
                 last: Credential,
                 used: set<Credential>, minted: Credential, snapshot: Snapshot)
    requires Raced(host, run, s, waiting, last, used) && minted != "" && minted !in used
    ensures IsRun(host, run) && After(host, run).server == s
    ensures Enabled(After(host, run), RotateCredential(waiting.0, minted, waiting.1, snapshot))
  {
    hide After, IsRun;
  }

  /** Two more callers go through, one after the other. */
  lemma RaceGoesOn(host: Allocation, run: seq<Action>, s: State, waiting: (ReconnectRequest, Connection),
                   last: Credential,
                   used: set<Credential>, first: ReconnectRequest, second: ReconnectRequest, b: Credential,
                   c: Credential,
                   d: Credential, snapshot: Snapshot)
    requires Raced(host, run, s, waiting, last, used) && first.credential == last && second.credential == b
    requires b != "" && c != "" && d != "" && b !in used && c !in used && d !in used && c != b && d != b && d != c
    requires var (once, response) := ReconnectAlone(s, host, first, Some(b), Some(snapshot));
             && response.Ok? && response.value.credential == b
             && ReconnectAlone(once, host, second, Some(c), Some(snapshot)).1.Ok?
             && ReconnectAlone(once, host, second, Some(c), Some(snapshot)).1.value.credential == c
    ensures
      var rotated := run + ReconnectSteps(After(host, run).server, host, first, Some(b), Some(snapshot));
      var run' := rotated + ReconnectSteps(After(host, rotated).server, host, second, Some(c), Some(snapshot));
      var once := ReconnectAlone(s, host, first, Some(b), Some(snapshot)).0;
      && IsRun(host, run')
      && After(host, run').server == ReconnectAlone(once, host, second, Some(c), Some(snapshot)).0
      && Enabled(After(host, run'), RotateCredential(waiting.0, d, waiting.1, snapshot))
  {
    var once := ReconnectAlone(s, host, first, Some(b), Some(snapshot)).0;
    var twice := ReconnectAlone(once, host, second, Some(c), Some(snapshot)).0;
    hide *;
    RaceStep(host, run, s, waiting, last, used, first, b, snapshot);
    var rotated := run + ReconnectSteps(After(host, run).server, host, first, Some(b), Some(snapshot));
    RaceStep(host, rotated, once, waiting, b, used + {b}, second, c, snapshot);
    var run' := rotated + ReconnectSteps(After(host, rotated).server, host, second, Some(c), Some(snapshot));
    RaceEnds(host, run', twice, waiting, c, used + {b} + {c}, d, snapshot);
  }

  /** Such a run exists, and at its end the first caller is answered with a credential that names nothing. */
  lemma StaleAnswerIsReachable(host: Allocation, a: Credential, b: Credential, c: Credential, d: Credential,
                               nonce: Nonce,
                               principal: Principal, snapshot: Snapshot, now: real)
    requires a != "" && b != "" && c != "" && d != "" && b != a && c != a && c != b && d != a && d != b && d != c
    requires NonceInRange(nonce)
    ensures
      var run := Race(host, a, b, c, nonce, principal, snapshot, now);
      var admission := Admission(host.sessionId, host.identityHash, "hero");
      var request := ReconnectRequest(a, Some(host.identityHash), nonce);
      var member := NewConnection(principal, admission, now);
      && IsRun(host, run)
      && Enabled(After(host, run), RotateCredential(request, d, member, snapshot))
      && Rotate(After(host, run).server, request, d, member, snapshot).1
         == Replayed(JoinResponse(b, admission, snapshot))
      && b !in After(host, run).server.connections
  {
    var admission := Admission(host.sessionId, host.identityHash, "hero");
    var member := NewConnection(principal, admission, now);
    var first := ReconnectRequest(a, Some(host.identityHash), nonce);
    var second := ReconnectRequest(b, Some(host.identityHash), nonce);
    var (s0, s1, s2) := RaceTables(a, b, c, member, nonce, snapshot);
    RaceGoes(host, a, b, c, d, nonce, principal, snapshot, now);
    assert b !in s2.connections;
    hide *;
    RaceStarts(host, a, nonce, principal, admission, snapshot, now);
    var joined := [] + JoinSteps(a, principal, admission, now, true);
    var waiting := joined + ReconnectSteps(After(host, joined).server, host, first, None, None);
    RaceGoesOn(host, waiting, s0, (first, member), a, {a}, first, second, b, c, d, snapshot);
    RaceIs(host, a, b, c, nonce, principal, snapshot, now);
  }
}
