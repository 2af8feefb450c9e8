/** The membership protocol as a step system: the critical sections of Membership, taken one at a time in any order
    by any number of concurrent callers and timers, together with a history of what happened.

    A credential handed out by Join names a lineage, and every credential it is later rotated to belongs to the same
    lineage. Clients may present any credential that a call has returned; minted credentials have never been used. A
    membership fetched by Reconnect stays available to a later rotation forever, so a slow caller may rotate at any
    later point.

    The system is a product of the server state and four books, each with its own transition function. */
module Protocol {
  import opened Wrappers
  import opened Membership

  type Lineage = Credential

  datatype Action =
    | RegisterJoin(c: Credential, principal: Principal, admission: Admission, now: real)
    | ReturnJoin(c: Credential)
    | RollbackJoin(c: Credential)
    | Disconnect(c: Credential)
    | ArmTimer(timer: Timer)
    | FireTimer(timer: Timer)
    | Leave(c: Credential)
    | Notify(departure: Departure)
    | CheckReplay(request: ReconnectRequest)
    | FetchMember(request: ReconnectRequest)
    | RotateCredential(request: ReconnectRequest, minted: Credential, member: Connection, snapshot: Snapshot)
    | ArmReplayTimer(c: Credential, nonce: Nonce)
    | FireReplayTimer(c: Credential, nonce: Nonce)
    | Spend(c: Credential, refresh: bool, now: real)
    | OpenWatch(c: Credential)
    | CloseWatch(c: Credential)

  // ---- Server ----

  function NextServer(s: State, host: Allocation, a: Action): State {
    match a
    case RegisterJoin(c, principal, admission, now) => Register(s, c, principal, admission, now)
    case RollbackJoin(c) => Rollback(s, c)
    case Disconnect(c) => Suspend(s, c).0
    case FireTimer(timer) => Expire(s, timer.credential, timer.generation).0
    case Leave(c) => Revoke(s, c).0
    case CheckReplay(request) => ReplayLookup(s, request, host).0
    case RotateCredential(request, minted, member, snapshot) => Rotate(s, request, minted, member, snapshot).0
    case FireReplayTimer(c, nonce) => ExpireReplay(s, c, nonce)
    case Spend(c, refresh, now) => Debit(s, c, refresh, now).0
    case OpenWatch(c) => StartWatch(s, c).0
    case CloseWatch(c) => StopWatch(s, c)
    case _ => s
  }

  /** The membership a step removes for good: by Leave, or by a lease that ran out. */
  function Removed(s: State, a: Action): Option<Credential> {
    match a
    case FireTimer(timer) => if Expires(s, timer.credential, timer.generation) then Some(timer.credential) else None
    case Leave(c) => if c in s.connections && c != "" then Some(c) else None
    case _ => None
  }

  // ---- Calls: what each caller of Join and Reconnect has done so far ----

  datatype Calls = Calls(
    joining: set<Credential>,
    missed: set<ReconnectRequest>,
    fetched: set<(ReconnectRequest, Connection)>)

  function NextCalls(calls: Calls, s: State, host: Allocation, a: Action): Calls {
    match a
    case RegisterJoin(c, _, _, _) => calls.(joining := calls.joining + {c})
    case ReturnJoin(c) => calls.(joining := calls.joining - {c})
    case RollbackJoin(c) => calls.(joining := calls.joining - {c})
    case CheckReplay(request) =>
      if ReplayHit(s, request, host) then calls else calls.(missed := calls.missed + {request})
    case FetchMember(request) =>
      var member := Member(s, request.credential, true);
      if member.Ok? && Accepts(host, member.value.admission, request.digest) then
        calls.(fetched := calls.fetched + {(request, member.value)})
      else calls
    case _ => calls
  }

  // ---- Names: credentials, their lineages, and the rotations that connect them ----

  datatype Rotation = Rotation(from: Credential, to: Credential, nonce: Nonce, response: JoinResponse)

  datatype Answer = Answer(request: ReconnectRequest, response: JoinResponse)

  datatype Names = Names(
    lineage: map<Credential, Lineage>,
    returned: set<Credential>,
    rotations: seq<Rotation>,
    answers: seq<Answer>,
    replayArming: set<(Credential, Nonce)>,
    replayTimers: set<(Credential, Nonce)>,
    replaysEnded: set<Credential>)

  function Answered(names: Names, request: ReconnectRequest, response: JoinResponse): Names {
    names.(answers := names.answers + [Answer(request, response)],
           returned := names.returned + {response.credential})
  }

  function NextNames(names: Names, s: State, host: Allocation, a: Action): Names {
    match a
    case RegisterJoin(c, _, _, _) => names.(lineage := names.lineage[c := c])
    case ReturnJoin(c) => names.(returned := names.returned + {c})
    case CheckReplay(request) =>
      if ReplayHit(s, request, host) then Answered(names, request, s.reconnects[request.credential].response)
      else names
    case RotateCredential(request, minted, member, snapshot) =>
      (match Rotate(s, request, minted, member, snapshot).1
       case Rotated(response, _) =>
         var from := request.credential;
         var line := if from in names.lineage then names.lineage[from] else from;
         Answered(
           names.(lineage := names.lineage[minted := line],
                  rotations := names.rotations + [Rotation(from, minted, request.nonce, response)],
                  replayArming := names.replayArming + {(from, request.nonce)}),
           request, response)
       case Replayed(response) => Answered(names, request, response)
       case Rejected => names)
    case ArmReplayTimer(c, nonce) =>
      names.(replayArming := names.replayArming - {(c, nonce)}, replayTimers := names.replayTimers + {(c, nonce)})
    case FireReplayTimer(c, nonce) =>
      names.(replayTimers := names.replayTimers - {(c, nonce)}, replaysEnded := names.replaysEnded + {c})
    case _ => names
  }

  // ---- Leases: disconnect timers, armed some time after the suspension they belong to ----

  /** A pending disconnect lease: the suspension of `credential` recorded at position `event` of the run. */
  datatype Timer = Timer(credential: Credential, generation: nat, event: nat)

  datatype Leases = Leases(clock: nat, arming: set<Timer>, timers: set<Timer>, suspendedAt: map<Credential, nat>)

  function NextLeases(leases: Leases, s: State, a: Action): Leases {
    var ticked := leases.(clock := leases.clock + 1);
    match a
    case Disconnect(c) =>
      var generation := Suspend(s, c).1;
      if generation.None? then ticked
      else
        ticked.(arming := leases.arming + {Timer(c, generation.value, leases.clock)},
                suspendedAt := leases.suspendedAt[c := leases.clock])
    case ArmTimer(timer) => ticked.(arming := leases.arming - {timer}, timers := leases.timers + {timer})
    case FireTimer(timer) => ticked.(timers := leases.timers - {timer})
    case _ => ticked
  }

  // ---- Ledger: joins, rollbacks, departures and the leave notifications owed for them ----

  datatype Departure = Departure(lineage: Lineage, principal: Principal)

  datatype Ledger = Ledger(
    identity: map<Lineage, Principal>,
    joins: seq<Lineage>,
    rollbacks: seq<Lineage>,
    departures: seq<Departure>,
    owed: multiset<Departure>,
    notified: multiset<Departure>)

  function NextLedger(ledger: Ledger, names: Names, s: State, a: Action): Ledger {
    match a
    case RegisterJoin(c, principal, _, _) =>
      ledger.(identity := ledger.identity[c := principal], joins := ledger.joins + [c])
    case RollbackJoin(c) => ledger.(rollbacks := ledger.rollbacks + [c])
    case Notify(departure) =>
      ledger.(owed := ledger.owed - multiset{departure}, notified := ledger.notified + multiset{departure})
    case _ =>
      var gone := Removed(s, a);
      if gone.None? || gone.value !in s.connections || gone.value !in names.lineage then ledger
      else
        var departure := Departure(names.lineage[gone.value], s.connections[gone.value].principal);
        ledger.(departures := ledger.departures + [departure], owed := ledger.owed + multiset{departure})
  }

  // ---- The system ----

  datatype System = System(server: State, calls: Calls, names: Names, leases: Leases, ledger: Ledger)

  const INITIAL := System(
    EMPTY,
    Calls({}, {}, {}),
    Names(map[], {}, [], [], {}, {}, {}),
    Leases(0, {}, {}, map[]),
    Ledger(map[], [], [], [], multiset{}, multiset{}))

  /** When a step can be taken. Requests name returned credentials; timers fire only once armed. */
  predicate Enabled(sys: System, a: Action) {
    match a
    case RegisterJoin(c, _, _, _) => c != "" && c !in sys.names.lineage
    case ReturnJoin(c) => c in sys.calls.joining
    case RollbackJoin(c) => c in sys.calls.joining
    case Disconnect(c) => c in sys.names.returned
    case ArmTimer(timer) => timer in sys.leases.arming
    case FireTimer(timer) => timer in sys.leases.timers
    case Leave(c) => c in sys.names.returned
    case Notify(departure) => departure in sys.ledger.owed
    case CheckReplay(request) => request.credential in sys.names.returned && 32 <= |request.nonce| <= 128
    case FetchMember(request) => request in sys.calls.missed
    case RotateCredential(request, minted, member, _) =>
      (request, member) in sys.calls.fetched && minted != "" && minted !in sys.names.lineage
    case ArmReplayTimer(c, nonce) => (c, nonce) in sys.names.replayArming
    case FireReplayTimer(c, nonce) => (c, nonce) in sys.names.replayTimers
    case Spend(c, _, _) => c in sys.names.returned
    case OpenWatch(c) => c in sys.names.returned
    case CloseWatch(c) => c in sys.names.returned
  }

  function Step(sys: System, host: Allocation, a: Action): System {
    System(
      NextServer(sys.server, host, a),
      NextCalls(sys.calls, sys.server, host, a),
      NextNames(sys.names, sys.server, host, a),
      NextLeases(sys.leases, sys.server, a),
      NextLedger(sys.ledger, sys.names, sys.server, a))
  }

  // ---- Invariants ----

  /** Lineages are named by their first credential, and a client holding any credential of one was given that. */
  ghost predicate RootsOk(names: Names) {
    && "" !in names.lineage
    && names.returned <= names.lineage.Keys
    && (forall c :: c in names.lineage ==>
          names.lineage[c] in names.lineage && names.lineage[names.lineage[c]] == names.lineage[c])
    && (forall c :: c in names.returned ==> names.lineage[c] in names.returned)
  }

  /** Each lineage lives under at most one credential. */
  ghost predicate OnePerLineage(s: State, names: Names) {
    forall c, d ::
      (c in s.connections && d in s.connections && c in names.lineage && d in names.lineage &&
       names.lineage[c] == names.lineage[d]) ==> c == d
  }

  ghost predicate NamesOk(s: State, names: Names) {
    && s.connections.Keys <= names.lineage.Keys
    && RootsOk(names)
    && OnePerLineage(s, names)
  }

  /** Calls: a join in progress holds an unreturned live credential; reconnects name returned credentials. */
  ghost predicate CallsOk(s: State, names: Names, calls: Calls) {
    && calls.joining <= s.connections.Keys
    && calls.joining !! names.returned
    && (forall c :: c in calls.joining ==> c in names.lineage && names.lineage[c] == c)
    && (forall request :: request in calls.missed ==> request.credential in names.returned)
    && (forall f :: f in calls.fetched ==> f.0.credential in names.returned)
  }

  /** Rotations: one per old credential, which is then gone for good. */
  ghost predicate RotationsOk(s: State, names: Names) {
    && (forall i, j :: 0 <= i < j < |names.rotations| ==> names.rotations[i].from != names.rotations[j].from)
    && (forall r :: r in names.rotations ==>
          && r.from in names.returned && r.from !in s.connections
          && r.to in names.returned && r.response.credential == r.to
          && r.from in names.lineage && r.to in names.lineage
          && names.lineage[r.from] == names.lineage[r.to])
  }

  function RotationOf(request: ReconnectRequest, response: JoinResponse): Rotation {
    Rotation(request.credential, response.credential, request.nonce, response)
  }

  /** Replays: the replay table and every answer agree with the rotation of their old credential. */
  ghost predicate ReplaysOk(s: State, names: Names) {
    && (forall c :: c in s.reconnects ==>
          Rotation(c, s.reconnects[c].response.credential, s.reconnects[c].nonce, s.reconnects[c].response)
            in names.rotations)
    && (forall a :: a in names.answers ==> RotationOf(a.request, a.response) in names.rotations)
    && (forall r :: r in names.rotations && r.from !in names.replaysEnded ==>
          r.from in s.reconnects && s.reconnects[r.from] == Replay(r.nonce, r.response))
  }

  /** Leases: a timer that still applies belongs to the latest suspension, and every suspension has one pending. */
  ghost predicate LeasesOk(s: State, names: Names, leases: Leases) {
    && (forall t :: t in leases.arming + leases.timers ==>
          && t.credential in names.returned
          && t.event < leases.clock
          && (t.credential in s.connections ==>
                && t.generation <= s.connections[t.credential].disconnectGeneration
                && (t.generation == s.connections[t.credential].disconnectGeneration ==>
                      t.credential in leases.suspendedAt && leases.suspendedAt[t.credential] == t.event)))
    && (forall c :: c in s.connections && !s.connections[c].connected ==>
          && c in leases.suspendedAt
          && Timer(c, s.connections[c].disconnectGeneration, leases.suspendedAt[c]) in leases.arming + leases.timers)
  }

  /** Watch streams belong to connected memberships. */
  ghost predicate WatchesOk(s: State, names: Names) {
    forall c :: c in s.watches ==> c in names.returned && c in s.connections && s.connections[c].connected
  }

  predicate FullRate(member: Connection) {
    && member.commands.capacity == COMMAND_BURST && member.commands.rate == COMMAND_RATE
    && 0.0 <= member.commands.tokens <= COMMAND_BURST
    && member.refreshes.capacity == REFRESH_BURST && member.refreshes.rate == REFRESH_RATE
    && 0.0 <= member.refreshes.tokens <= REFRESH_BURST
  }

  ghost predicate BudgetsOk(s: State) {
    forall c :: c in s.connections ==> FullRate(s.connections[c])
  }

  /** The lineages of the live memberships. */
  function Live(s: State, names: Names): set<Lineage> {
    set c | c in s.connections && c in names.lineage :: names.lineage[c]
  }

  predicate HasDeparted(ledger: Ledger, l: Lineage) {
    exists i :: 0 <= i < |ledger.departures| && ledger.departures[i].lineage == l
  }

  /** Every joined lineage is live, rolled back or departed, and exactly one of these. */
  ghost predicate LedgerOk(live: set<Lineage>, names: Names, ledger: Ledger) {
    && (forall l :: l in ledger.joins <==> l in names.lineage && names.lineage[l] == l)
    && (forall i, j :: 0 <= i < j < |ledger.joins| ==> ledger.joins[i] != ledger.joins[j])
    && (forall i, j :: 0 <= i < j < |ledger.rollbacks| ==> ledger.rollbacks[i] != ledger.rollbacks[j])
    && (forall i, j :: 0 <= i < j < |ledger.departures| ==>
          ledger.departures[i].lineage != ledger.departures[j].lineage)
    && (forall l :: l in ledger.rollbacks ==> l in ledger.joins && l !in names.returned && l !in live)
    && (forall l :: HasDeparted(ledger, l) ==> l in names.returned && l !in live)
    && (forall l :: l in ledger.joins ==> l in live || l in ledger.rollbacks || HasDeparted(ledger, l))
  }

  /** The same balance in numbers. */
  ghost predicate Balanced(s: State, ledger: Ledger) {
    |ledger.joins| == |ledger.rollbacks| + |s.connections.Keys| + |ledger.departures|
  }

  /** One notification is owed or sent for each departure. */
  ghost predicate NoticesOk(ledger: Ledger) {
    ledger.owed + ledger.notified == multiset(ledger.departures)
  }

  /** The member at `c` is whoever joined its lineage. */
  ghost predicate SamePrincipal(s: State, names: Names, ledger: Ledger, c: Credential)
    requires c in s.connections
  {
    && c in names.lineage
    && names.lineage[c] in ledger.identity
    && ledger.identity[names.lineage[c]] == s.connections[c].principal
  }

  /** Identities: rotation never changes whom a lineage belongs to. */
  ghost predicate IdentitiesOk(s: State, names: Names, ledger: Ledger) {
    && ledger.identity.Keys <= names.lineage.Keys
    && (forall c :: c in s.connections ==> SamePrincipal(s, names, ledger, c))
    && (forall d :: d in ledger.departures ==>
          d.lineage in ledger.identity && ledger.identity[d.lineage] == d.principal)
  }

  ghost predicate Inv(sys: System) {
    && NamesOk(sys.server, sys.names)
    && CallsOk(sys.server, sys.names, sys.calls)
    && RotationsOk(sys.server, sys.names)
    && ReplaysOk(sys.server, sys.names)
    && LeasesOk(sys.server, sys.names, sys.leases)
    && WatchesOk(sys.server, sys.names)
    && BudgetsOk(sys.server)
    && LedgerOk(Live(sys.server, sys.names), sys.names, sys.ledger)
    && Balanced(sys.server, sys.ledger)
    && NoticesOk(sys.ledger)
    && IdentitiesOk(sys.server, sys.names, sys.ledger)
  }
}
