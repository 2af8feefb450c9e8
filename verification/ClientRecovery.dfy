/** The client half of reconnecting, together with the server: what a client that keeps one credential and one nonce
    can rely on when its requests and their responses are lost, delayed or duplicated.

    A sent request may reach the server any number of times, at any later point, or never; an answer may reach the
    client any number of times or never. One client follows each lineage. */
module ClientRecovery {
  import opened Wrappers
  import opened Membership
  import opened Protocol
  import opened ProtocolInvariants
  import opened ProtocolLedger
  import opened ProtocolRuns

  /** A client session: its credential, the nonce of an interrupted recovery, and every credential it has held. */
  datatype Client = Client(credential: Credential, nonce: Option<Nonce>, held: seq<Credential>)

  datatype World = World(sys: System, clients: map<Lineage, Client>, sent: set<(Credential, Nonce)>)

  datatype Event =
    | Server(a: Action)
    | AdoptJoin(c: Credential)
    | Prepare(l: Lineage, candidate: Nonce)
    | Commit(l: Lineage, answer: Answer)

  const START := World(INITIAL, map[], {})

  predicate GoodNonce(nonce: Nonce) {
    32 <= |nonce| <= 128
  }

  /** A reconnect request exists only because a client sent it; a client commits only an answer to a request with
      the credential it still has, and drops every other one as stale. */
  predicate Possible(w: World, e: Event) {
    match e
    case Server(a) => Enabled(w.sys, a) && (a.CheckReplay? ==> (a.request.credential, a.request.nonce) in w.sent)
    case AdoptJoin(c) =>
      c in w.sys.names.returned && c in w.sys.names.lineage && w.sys.names.lineage[c] == c && c !in w.clients
    case Prepare(l, candidate) => l in w.clients && GoodNonce(candidate)
    case Commit(l, answer) =>
      l in w.clients && answer in w.sys.names.answers && answer.request.credential == w.clients[l].credential
  }

  /** The nonce of the next attempt: the one kept from an interrupted recovery, or the candidate. */
  function AttemptNonce(client: Client, candidate: Nonce): Nonce {
    if client.nonce.Some? then client.nonce.value else candidate
  }

  function Happen(w: World, host: Allocation, e: Event): World {
    match e
    case Server(a) => w.(sys := Step(w.sys, host, a))
    case AdoptJoin(c) => w.(clients := w.clients[c := Client(c, None, [c])])
    case Prepare(l, candidate) =>
      if l !in w.clients then w
      else
        var client := w.clients[l];
        var nonce := AttemptNonce(client, candidate);
        w.(clients := w.clients[l := client.(nonce := Some(nonce))], sent := w.sent + {(client.credential, nonce)})
    case Commit(l, answer) =>
      if l !in w.clients then w
      else
        var to := answer.response.credential;
        w.(clients := w.clients[l := Client(to, None, w.clients[l].held + [to])])
  }

  function Unfold(host: Allocation, run: seq<Event>): World {
    if run == [] then START else Happen(Unfold(host, run[..|run| - 1]), host, run[|run| - 1])
  }

  predicate IsHistory(host: Allocation, run: seq<Event>) {
    run == [] || (IsHistory(host, run[..|run| - 1]) && Possible(Unfold(host, run[..|run| - 1]), run[|run| - 1]))
  }

  // ---- Invariants ----

  predicate Rotated(names: Names, c: Credential) {
    exists i :: 0 <= i < |names.rotations| && names.rotations[i].from == c
  }

  predicate RotatedTo(names: Names, c: Credential, d: Credential) {
    exists i :: 0 <= i < |names.rotations| && names.rotations[i].from == c && names.rotations[i].to == d
  }

  /** A returned credential names a live membership, or was rotated, or its lineage has departed. */
  ghost predicate Accounted(sys: System) {
    forall c :: c in sys.names.returned && c in sys.names.lineage ==>
      c in sys.server.connections || Rotated(sys.names, c) || HasDeparted(sys.ledger, sys.names.lineage[c])
  }

  /** Rotation targets are minted: no two are the same, and none is the first credential of a lineage. */
  ghost predicate TargetsOk(names: Names) {
    && (forall i, j :: 0 <= i < j < |names.rotations| ==> names.rotations[i].to != names.rotations[j].to)
    && (forall i :: 0 <= i < |names.rotations| ==>
          names.rotations[i].to in names.lineage && names.lineage[names.rotations[i].to] != names.rotations[i].to)
  }

  /** A client has held its lineage's credentials in the order of the server's rotations, each once. */
  ghost predicate ClientOk(names: Names, l: Lineage, client: Client) {
    && |client.held| > 0 && client.held[0] == l && client.held[|client.held| - 1] == client.credential
    && (client.nonce.Some? ==> GoodNonce(client.nonce.value))
    && (forall i :: 0 <= i < |client.held| ==>
          client.held[i] in names.lineage && names.lineage[client.held[i]] == l && client.held[i] in names.returned)
    && (forall i, j :: 0 <= i < j < |client.held| ==> client.held[i] != client.held[j])
    && (forall i :: 0 < i < |client.held| ==> RotatedTo(names, client.held[i - 1], client.held[i]))
  }

  ghost predicate ClientsOk(w: World) {
    forall l :: l in w.clients ==> ClientOk(w.sys.names, l, w.clients[l])
  }

  /** A request was sent by the client of its lineage, under a credential it held, with the nonce it keeps until that
      credential changes. */
  ghost predicate SentBy(w: World, c: Credential, nonce: Nonce) {
    && c in w.sys.names.lineage
    && w.sys.names.lineage[c] in w.clients
    && c in w.clients[w.sys.names.lineage[c]].held
    && (c == w.clients[w.sys.names.lineage[c]].credential ==>
          w.clients[w.sys.names.lineage[c]].nonce == Some(nonce))
  }

  ghost predicate SentOk(w: World) {
    && (forall p :: p in w.sent ==> SentBy(w, p.0, p.1))
    && (forall request :: request in w.sys.calls.missed ==> (request.credential, request.nonce) in w.sent)
    && (forall f :: f in w.sys.calls.fetched ==> (f.0.credential, f.0.nonce) in w.sent)
    && (forall i :: 0 <= i < |w.sys.names.rotations| ==>
          (w.sys.names.rotations[i].from, w.sys.names.rotations[i].nonce) in w.sent)
  }

  ghost predicate WorldInv(w: World) {
    && Inv(w.sys)
    && Accounted(w.sys)
    && TargetsOk(w.sys.names)
    && ClientsOk(w)
    && SentOk(w)
  }

  // ---- Server steps ----

  /** What a step does to the rotation log. */
  lemma RotationLogStep(sys: System, host: Allocation, a: Action)
    ensures
      var names' := NextNames(sys.names, sys.server, host, a);
      names'.rotations ==
        (if a.RotateCredential? && Rotate(sys.server, a.request, a.minted, a.member, a.snapshot).1.Rotated?
         then sys.names.rotations +
              [RotationOf(a.request, Rotate(sys.server, a.request, a.minted, a.member, a.snapshot).1.response)]
         else sys.names.rotations)
    ensures a.RotateCredential? && Rotate(sys.server, a.request, a.minted, a.member, a.snapshot).1.Rotated? ==>
              Rotate(sys.server, a.request, a.minted, a.member, a.snapshot).1.response.credential == a.minted
  {
  }

  lemma RotatedStays(names: Names, names': Names, c: Credential)
    requires names.rotations <= names'.rotations && Rotated(names, c)
    ensures Rotated(names', c)
  {
    var i :| 0 <= i < |names.rotations| && names.rotations[i].from == c;
    assert names'.rotations[i] == names.rotations[i];
  }

  lemma RotatedToStays(names: Names, names': Names, c: Credential, d: Credential)
    requires names.rotations <= names'.rotations && RotatedTo(names, c, d)
    ensures RotatedTo(names', c, d)
  {
    var i :| 0 <= i < |names.rotations| && names.rotations[i].from == c && names.rotations[i].to == d;
    assert names'.rotations[i] == names.rotations[i];
  }

  lemma DepartedStays(ledger: Ledger, names: Names, s: State, a: Action, l: Lineage)
    requires HasDeparted(ledger, l)
    ensures HasDeparted(NextLedger(ledger, names, s, a), l)
  {
    var i :| 0 <= i < |ledger.departures| && ledger.departures[i].lineage == l;
    assert ledger.departures <= NextLedger(ledger, names, s, a).departures;
    assert NextLedger(ledger, names, s, a).departures[i].lineage == l;
  }

  /** The lineage of a removed membership has departed. */
  lemma RemovedHasDeparted(sys: System, a: Action)
    requires Removed(sys.server, a).Some?
    requires Removed(sys.server, a).value in sys.server.connections && Removed(sys.server, a).value in sys.names.lineage
    ensures HasDeparted(NextLedger(sys.ledger, sys.names, sys.server, a),
                        sys.names.lineage[Removed(sys.server, a).value])
  {
    var ledger' := NextLedger(sys.ledger, sys.names, sys.server, a);
    assert ledger'.departures[|sys.ledger.departures|].lineage == sys.names.lineage[Removed(sys.server, a).value];
  }

  lemma NewlyReturnedIsLive(sys: System, host: Allocation, a: Action, c: Credential)
    requires Credentials(sys.server, sys.names) && CallsOk(sys.server, sys.names, sys.calls) && Enabled(sys, a)
    requires c in NextNames(sys.names, sys.server, host, a).returned && c !in sys.names.returned
    ensures c in NextServer(sys.server, host, a).connections
  {
    hide RootsOk, OnePerLineage;
  }

  /** Where a live membership can go in one step. */
  lemma LiveGoes(sys: System, host: Allocation, a: Action, c: Credential)
    requires NamesOk(sys.server, sys.names) && CallsOk(sys.server, sys.names, sys.calls) && Enabled(sys, a)
    requires c in sys.server.connections && c in sys.names.returned && c in sys.names.lineage
    ensures || c in NextServer(sys.server, host, a).connections
            || Rotated(NextNames(sys.names, sys.server, host, a), c)
            || HasDeparted(NextLedger(sys.ledger, sys.names, sys.server, a), sys.names.lineage[c])
  {
    ServerKeys(sys.server, host, a);
    RotationLogStep(sys, host, a);
    if Removed(sys.server, a) == Some(c) {
      RemovedHasDeparted(sys, a);
    } else if a.RotateCredential? && a.request.credential == c
        && Rotate(sys.server, a.request, a.minted, a.member, a.snapshot).1.Rotated? {
      var names' := NextNames(sys.names, sys.server, host, a);
      assert names'.rotations[|sys.names.rotations|].from == c;
    } else {
      assert a.RollbackJoin? ==> a.c != c;
      hide NamesOk, CallsOk, Enabled, NextServer, NextNames, NextLedger, Rotate;
    }
  }

  lemma AccountedKept(sys: System, host: Allocation, a: Action)
    requires Credentials(sys.server, sys.names) && CallsOk(sys.server, sys.names, sys.calls) && Enabled(sys, a)
    requires Accounted(sys)
    ensures Accounted(Step(sys, host, a))
  {
    var sys' := Step(sys, host, a);
    forall c | c in sys'.names.returned && c in sys'.names.lineage
      ensures c in sys'.server.connections || Rotated(sys'.names, c) || HasDeparted(sys'.ledger, sys'.names.lineage[c])
    {
      AccountedFor(sys, host, a, c);
    }
  }

  lemma AccountedFor(sys: System, host: Allocation, a: Action, c: Credential)
    requires Credentials(sys.server, sys.names) && CallsOk(sys.server, sys.names, sys.calls) && Enabled(sys, a)
    requires Accounted(sys)
    requires c in NextNames(sys.names, sys.server, host, a).returned
    requires c in NextNames(sys.names, sys.server, host, a).lineage
    ensures || c in NextServer(sys.server, host, a).connections
            || Rotated(NextNames(sys.names, sys.server, host, a), c)
            || HasDeparted(NextLedger(sys.ledger, sys.names, sys.server, a),
                           NextNames(sys.names, sys.server, host, a).lineage[c])
  {
    if c !in sys.names.returned {
      NewlyReturnedIsLive(sys, host, a, c);
    } else {
      assert c in sys.names.lineage;
      LineageStep(sys, host, a);
      KeysKnown(sys, a);
      RotationLogStep(sys, host, a);
      hide Credentials, NamesOk, CallsOk, Enabled, NextServer, NextNames, NextLedger, Rotate;
      if c in sys.server.connections {
        LiveGoes(sys, host, a, c);
      } else if Rotated(sys.names, c) {
        RotatedStays(sys.names, NextNames(sys.names, sys.server, host, a), c);
      } else {
        DepartedStays(sys.ledger, sys.names, sys.server, a, sys.names.lineage[c]);
      }
    }
  }

  lemma TargetsKept(sys: System, host: Allocation, a: Action)
    requires NamesOk(sys.server, sys.names) && CallsOk(sys.server, sys.names, sys.calls) && Enabled(sys, a)
    requires TargetsOk(sys.names)
    ensures TargetsOk(NextNames(sys.names, sys.server, host, a))
  {
    LineageStep(sys, host, a);
    KeysKnown(sys, a);
    RotationLogStep(sys, host, a);
    RotatedFromLive(sys.server, a);
    assert sys.server.connections.Keys <= sys.names.lineage.Keys;
    assert forall c :: c in sys.names.lineage ==> sys.names.lineage[c] in sys.names.lineage;
    hide RootsOk, OnePerLineage, CallsOk, Enabled, NextServer, NextNames, Rotate;
  }

  // ---- Client steps ----

  lemma ClientKept(sys: System, host: Allocation, a: Action, l: Lineage, client: Client)
    requires Credentials(sys.server, sys.names) && CallsOk(sys.server, sys.names, sys.calls)
    requires LeasesOk(sys.server, sys.names, sys.leases) && Enabled(sys, a)
    requires ClientOk(sys.names, l, client)
    ensures ClientOk(NextNames(sys.names, sys.server, host, a), l, client)
  {
    var names' := NextNames(sys.names, sys.server, host, a);
    LineageStep(sys, host, a);
    KeysKnown(sys, a);
    ReturnedGrows(sys, host, a);
    RotationLogStep(sys, host, a);
    hide Credentials, NamesOk, CallsOk, LeasesOk, Enabled, NextServer, NextNames, Rotate;
    forall i | 0 < i < |client.held| ensures RotatedTo(names', client.held[i - 1], client.held[i]) {
      RotatedToStays(sys.names, names', client.held[i - 1], client.held[i]);
    }
    hide RotatedTo;
  }

  /** Calls in progress only work on requests that were checked before. */
  lemma CallsStep(sys: System, host: Allocation, a: Action)
    requires Enabled(sys, a)
    ensures forall request :: request in NextCalls(sys.calls, sys.server, host, a).missed ==>
              request in sys.calls.missed || (a.CheckReplay? && request == a.request)
    ensures forall f :: f in NextCalls(sys.calls, sys.server, host, a).fetched ==>
              f in sys.calls.fetched || f.0 in sys.calls.missed
    ensures a.RotateCredential? ==> (a.request, a.member) in sys.calls.fetched
  {
  }

  lemma SentKept(w: World, host: Allocation, a: Action)
    requires NamesOk(w.sys.server, w.sys.names) && CallsOk(w.sys.server, w.sys.names, w.sys.calls)
    requires SentOk(w) && Possible(w, Server(a))
    ensures SentOk(Happen(w, host, Server(a)))
  {
    hide NamesOk, CallsOk, Enabled, NextServer, NextCalls, NextNames, NextLeases, NextLedger, Rotate, SentBy;
    var w' := Happen(w, host, Server(a));
    LineageStep(w.sys, host, a);
    KeysKnown(w.sys, a);
    RotationLogStep(w.sys, host, a);
    CallsStep(w.sys, host, a);
    forall p | p in w'.sent ensures SentBy(w', p.0, p.1) {
      SentByStays(w, w', p.0, p.1);
    }
    if a.RotateCredential? {
      FetchedWasEnabled(w.sys, a);
      var f := (a.request, a.member);
      assert (f.0.credential, f.0.nonce) in w.sent;
    }
  }

  lemma FetchedWasEnabled(sys: System, a: Action)
    requires Enabled(sys, a) && a.RotateCredential?
    ensures (a.request, a.member) in sys.calls.fetched
  {
  }

  /** A sent request stays accounted for as long as its credential keeps its lineage and its client moves only
      forwards. */
  lemma SentByStays(w: World, w': World, c: Credential, nonce: Nonce)
    requires SentBy(w, c, nonce) && w'.clients == w.clients
    requires c in w.sys.names.lineage ==>
               c in w'.sys.names.lineage && w'.sys.names.lineage[c] == w.sys.names.lineage[c]
    ensures SentBy(w', c, nonce)
  {
  }

  lemma AdoptKept(w: World, host: Allocation, c: Credential)
    requires ClientsOk(w) && SentOk(w) && Possible(w, AdoptJoin(c))
    ensures ClientsOk(Happen(w, host, AdoptJoin(c))) && SentOk(Happen(w, host, AdoptJoin(c)))
  {
    var w' := Happen(w, host, AdoptJoin(c));
    forall p | p in w'.sent ensures SentBy(w', p.0, p.1) {
      assert SentBy(w, p.0, p.1);
    }
    hide SentBy;
  }

  lemma PrepareKept(w: World, host: Allocation, l: Lineage, candidate: Nonce)
    requires ClientsOk(w) && SentOk(w) && Possible(w, Prepare(l, candidate))
    ensures ClientsOk(Happen(w, host, Prepare(l, candidate))) && SentOk(Happen(w, host, Prepare(l, candidate)))
  {
    hide ClientsOk, ClientOk, SentBy, GoodNonce, AttemptNonce;
    PrepareKeepsClients(w, host, l, candidate);
    var w' := Happen(w, host, Prepare(l, candidate));
    forall p | p in w'.sent ensures SentBy(w', p.0, p.1) {
      PrepareKeepsSent(w, host, l, candidate, p);
    }
  }

  lemma PrepareKeepsClients(w: World, host: Allocation, l: Lineage, candidate: Nonce)
    requires ClientsOk(w) && Possible(w, Prepare(l, candidate))
    ensures ClientsOk(Happen(w, host, Prepare(l, candidate)))
  {
    var w' := Happen(w, host, Prepare(l, candidate));
    hide RotatedTo;
    forall k | k in w'.clients ensures ClientOk(w'.sys.names, k, w'.clients[k]) {
      assert ClientOk(w.sys.names, k, w.clients[k]);
    }
  }

  lemma PrepareKeepsSent(w: World, host: Allocation, l: Lineage, candidate: Nonce, p: (Credential, Nonce))
    requires ClientsOk(w) && SentOk(w) && Possible(w, Prepare(l, candidate))
    requires p in Happen(w, host, Prepare(l, candidate)).sent
    ensures SentBy(Happen(w, host, Prepare(l, candidate)), p.0, p.1)
  {
    hide RotatedTo;
    assert ClientOk(w.sys.names, l, w.clients[l]);
    var last := |w.clients[l].held| - 1;
    assert w.clients[l].held[last] == w.clients[l].credential;
    if p in w.sent {
      assert SentBy(w, p.0, p.1);
    }
  }

  /** The answer to a request under the client's credential names the next credential of its chain. */
  lemma AnswerExtends(names: Names, s: State, l: Lineage, client: Client, answer: Answer)
    requires RotationsOk(s, names) && ReplaysOk(s, names) && TargetsOk(names) && ClientOk(names, l, client)
    requires answer in names.answers && answer.request.credential == client.credential
    ensures answer.response.credential !in client.held
    ensures ClientOk(names, l, Client(answer.response.credential, None, client.held + [answer.response.credential]))
  {
    var to := answer.response.credential;
    var r := RotationOf(answer.request, answer.response);
    assert r in names.rotations;
    var i :| 0 <= i < |names.rotations| && names.rotations[i] == r;
    assert RotatedTo(names, client.credential, to);
    NotYetHeld(names, l, client, r);
    var held' := client.held + [to];
    forall k | 0 < k < |held'| ensures RotatedTo(names, held'[k - 1], held'[k]) {
      assert k < |client.held| ==> RotatedTo(names, client.held[k - 1], client.held[k]);
    }
    hide RotatedTo;
  }

  lemma CommitKept(w: World, host: Allocation, l: Lineage, answer: Answer)
    requires RotationsOk(w.sys.server, w.sys.names) && ReplaysOk(w.sys.server, w.sys.names) && TargetsOk(w.sys.names)
    requires ClientsOk(w) && SentOk(w) && Possible(w, Commit(l, answer))
    ensures ClientsOk(Happen(w, host, Commit(l, answer))) && SentOk(Happen(w, host, Commit(l, answer)))
  {
    var w' := Happen(w, host, Commit(l, answer));
    AnswerExtends(w.sys.names, w.sys.server, l, w.clients[l], answer);
    hide RotationsOk, ReplaysOk, TargetsOk, ClientOk;
    forall p | p in w'.sent ensures SentBy(w', p.0, p.1) {
      assert SentBy(w, p.0, p.1);
    }
    hide SentBy;
  }

  lemma EventKeepsInv(w: World, host: Allocation, e: Event)
    requires WorldInv(w) && Possible(w, e)
    ensures WorldInv(Happen(w, host, e))
  {
    hide Inv, NamesOk, CallsOk, RotationsOk, ReplaysOk, LeasesOk, BudgetsOk, Accounted, TargetsOk, ClientOk, SentOk,
         Enabled, NextServer, NextCalls, NextNames, NextLeases, NextLedger;
    Parts(w.sys);
    match e
    case Server(a) =>
      StepKeepsInv(w.sys, host, a);
      AccountedKept(w.sys, host, a);
      TargetsKept(w.sys, host, a);
      SentKept(w, host, a);
      forall l | l in w.clients ensures ClientOk(Step(w.sys, host, a).names, l, w.clients[l]) {
        ClientKept(w.sys, host, a, l, w.clients[l]);
      }
    case AdoptJoin(c) => AdoptKept(w, host, c);
    case Prepare(l, candidate) => PrepareKept(w, host, l, candidate);
    case Commit(l, answer) => CommitKept(w, host, l, answer);
  }

  lemma {:induction false} HistoryKeepsInv(host: Allocation, run: seq<Event>)
    requires IsHistory(host, run)
    ensures WorldInv(Unfold(host, run))
  {
    hide Possible, Happen;
    if run == [] {
      hide WorldInv;
      StartIsOk();
    } else {
      hide WorldInv;
      HistoryKeepsInv(host, run[..|run| - 1]);
      EventKeepsInv(Unfold(host, run[..|run| - 1]), host, run[|run| - 1]);
    }
  }

  lemma StartIsOk()
    ensures WorldInv(START)
  {
    hide Inv;
    InitialIsOk();
  }

  // ---- What the client can rely on ----

  /** A rotated credential whose client has not committed yet: its successor has not been rotated in turn. */
  lemma SuccessorIsUnrotated(w: World, l: Lineage, r: Rotation)
    requires WorldInv(w) && l in w.clients && r in w.sys.names.rotations && r.from == w.clients[l].credential
    ensures !Rotated(w.sys.names, r.to)
    ensures w.clients[l].nonce == Some(r.nonce)
    ensures r.to in w.sys.names.returned && r.to in w.sys.names.lineage && w.sys.names.lineage[r.to] == l
  {
    hide Inv, NamesOk, CallsOk, ReplaysOk, LeasesOk, BudgetsOk, Accounted;
    Parts(w.sys);
    var names, client := w.sys.names, w.clients[l];
    assert ClientOk(names, l, client);
    var i :| 0 <= i < |names.rotations| && names.rotations[i] == r;
    assert SentBy(w, r.from, r.nonce);
    if Rotated(names, r.to) {
      var j :| 0 <= j < |names.rotations| && names.rotations[j].from == r.to;
      assert SentBy(w, r.to, names.rotations[j].nonce);
      NotYetHeld(names, l, client, r);
    }
  }

  lemma NotYetHeld(names: Names, l: Lineage, client: Client, r: Rotation)
    requires TargetsOk(names) && ClientOk(names, l, client)
    requires r in names.rotations && r.from == client.credential && r.to in names.lineage && names.lineage[r.to] == l
    ensures r.to !in client.held
  {
    var i :| 0 <= i < |names.rotations| && names.rotations[i] == r;
    forall k | 0 <= k < |client.held| ensures client.held[k] != r.to {
      if k > 0 {
        assert RotatedTo(names, client.held[k - 1], client.held[k]);
        var j :| 0 <= j < |names.rotations| && names.rotations[j].from == client.held[k - 1]
          && names.rotations[j].to == client.held[k];
        assert j != i;
      }
    }
  }

  /** The credential names the live membership of a lineage. */
  predicate LiveAs(sys: System, c: Credential, l: Lineage) {
    c in sys.server.connections && c in sys.names.lineage && sys.names.lineage[c] == l
  }

  /** True when a retry with the client's stored credential and nonce finds the client's own membership again: the
      credential names it, or hits a replay entry of that nonce whose response does. */
  predicate CanRecover(w: World, l: Lineage)
    requires l in w.clients
  {
    var c, nonce, s := w.clients[l].credential, w.clients[l].nonce, w.sys.server;
    || LiveAs(w.sys, c, l)
    || (&& c in s.reconnects
        && nonce == Some(s.reconnects[c].nonce)
        && LiveAs(w.sys, s.reconnects[c].response.credential, l))
  }

  lemma Recoverable(w: World, l: Lineage)
    requires WorldInv(w) && l in w.clients
    ensures || CanRecover(w, l)
            || HasDeparted(w.sys.ledger, l)
            || w.clients[l].credential in w.sys.names.replaysEnded
  {
    var names, client := w.sys.names, w.clients[l];
    var c := client.credential;
    assert ClientOk(names, l, client) by { hide Inv, Accounted, TargetsOk, SentOk; }
    assert c == client.held[|client.held| - 1];
    assert c in names.lineage && names.lineage[c] == l;
    if c !in w.sys.server.connections && !HasDeparted(w.sys.ledger, l) && c !in names.replaysEnded {
      assert Rotated(names, c) by { hide Inv, TargetsOk, SentOk; }
      var i :| 0 <= i < |names.rotations| && names.rotations[i].from == c;
      var r := names.rotations[i];
      SuccessorIsUnrotated(w, l, r);
      assert r.to in w.sys.server.connections by { hide Inv, TargetsOk, SentOk; }
      assert ReplaysOk(w.sys.server, names) && RotationsOk(w.sys.server, names) by {
        hide Accounted, TargetsOk, SentOk, ClientsOk, NamesOk, CallsOk, LeasesOk, BudgetsOk;
        Parts(w.sys);
      }
      hide WorldInv;
    }
  }

  /** However reconnect messages are lost, delayed or duplicated, a retry with what the client has stored recovers its
      membership, until the membership leaves or expires or the replay window of its credential ends. */
  lemma StoredCredentialRecovers(host: Allocation, run: seq<Event>, l: Lineage)
    requires IsHistory(host, run) && l in Unfold(host, run).clients
    ensures
      var w := Unfold(host, run);
      || CanRecover(w, l)
      || HasDeparted(w.sys.ledger, l)
      || w.clients[l].credential in w.sys.names.replaysEnded
  {
    hide WorldInv, Unfold, IsHistory, CanRecover;
    HistoryKeepsInv(host, run);
    Recoverable(Unfold(host, run), l);
  }

  /** The credentials a client has held are consecutive rotations of the server, from its join on. */
  lemma CommitsFollowRotations(host: Allocation, run: seq<Event>, l: Lineage)
    requires IsHistory(host, run) && l in Unfold(host, run).clients
    ensures
      var (names, client) := (Unfold(host, run).sys.names, Unfold(host, run).clients[l]);
      && |client.held| > 0 && client.held[0] == l && client.held[|client.held| - 1] == client.credential
      && (forall i :: 0 < i < |client.held| ==> RotatedTo(names, client.held[i - 1], client.held[i]))
  {
    hide Inv, Accounted, TargetsOk, SentOk, Unfold, IsHistory, RotatedTo;
    HistoryKeepsInv(host, run);
    assert ClientOk(Unfold(host, run).sys.names, l, Unfold(host, run).clients[l]);
  }

  // ---- A retry ----

  /** The world after more events. */
  function Continue(w: World, host: Allocation, events: seq<Event>): World {
    if events == [] then w else Happen(Continue(w, host, events[..|events| - 1]), host, events[|events| - 1])
  }

  predicate CanContinue(w: World, host: Allocation, events: seq<Event>) {
    events == [] ||
    (CanContinue(w, host, events[..|events| - 1]) &&
     Possible(Continue(w, host, events[..|events| - 1]), events[|events| - 1]))
  }

  lemma OneMore(w: World, host: Allocation, events: seq<Event>, e: Event)
    requires CanContinue(w, host, events) && Possible(Continue(w, host, events), e)
    ensures CanContinue(w, host, events + [e])
    ensures Continue(w, host, events + [e]) == Happen(Continue(w, host, events), host, e)
  {
    assert (events + [e])[..|events + [e]| - 1] == events;
  }

  /** The client's credential names a connected membership. */
  predicate Recovered(w: World, l: Lineage) {
    && l in w.clients
    && w.clients[l].credential in w.sys.server.connections
    && w.sys.server.connections[w.clients[l].credential].connected
  }

  function RetryRequest(w: World, l: Lineage, candidate: Nonce, digest: Option<string>): ReconnectRequest
    requires l in w.clients
  {
    ReconnectRequest(w.clients[l].credential, digest, AttemptNonce(w.clients[l], candidate))
  }

  /** The retry of a client whose last response was lost. */
  function ReplayedRetry(w: World, l: Lineage, candidate: Nonce, digest: Option<string>): seq<Event>
    requires l in w.clients && w.clients[l].credential in w.sys.server.reconnects
  {
    var request := RetryRequest(w, l, candidate, digest);
    var response := w.sys.server.reconnects[request.credential].response;
    [Prepare(l, candidate)] + [Server(CheckReplay(request))] + [Commit(l, Answer(request, response))]
  }

  /** The retry of a client whose credential still names its membership. */
  function RotatingRetry(w: World, l: Lineage, candidate: Nonce, digest: Option<string>, minted: Credential,
                         snapshot: Snapshot): seq<Event>
    requires l in w.clients && w.clients[l].credential in w.sys.server.connections
  {
    var request := RetryRequest(w, l, candidate, digest);
    var member := w.sys.server.connections[request.credential];
    [Prepare(l, candidate)] + [Server(CheckReplay(request))] + [Server(FetchMember(request))]
      + [Server(RotateCredential(request, minted, member, snapshot))]
      + [Commit(l, Answer(request, JoinResponse(minted, member.admission, snapshot)))]
  }

  lemma PrepareAndCheck(w: World, host: Allocation, l: Lineage, candidate: Nonce, digest: Option<string>)
    requires ClientsOk(w) && l in w.clients && GoodNonce(candidate)
    ensures
      var request := RetryRequest(w, l, candidate, digest);
      var events := [Prepare(l, candidate)] + [Server(CheckReplay(request))];
      var w' := Continue(w, host, events);
      && CanContinue(w, host, events)
      && w'.sys == Step(w.sys, host, CheckReplay(request))
      && l in w'.clients && w'.clients[l].credential == w.clients[l].credential
  {
    var request := RetryRequest(w, l, candidate, digest);
    assert ClientOk(w.sys.names, l, w.clients[l]);
    assert w.clients[l].credential in w.sys.names.returned && GoodNonce(request.nonce) by {
      assert w.clients[l].held[|w.clients[l].held| - 1] in w.sys.names.returned;
    }
    hide ClientsOk, ClientOk, NextServer, NextCalls, NextNames, NextLeases, NextLedger;
    assert Continue(w, host, []) == w && CanContinue(w, host, []);
    OneMore(w, host, [], Prepare(l, candidate));
    assert [] + [Prepare(l, candidate)] == [Prepare(l, candidate)];
    OneMore(w, host, [Prepare(l, candidate)], Server(CheckReplay(request)));
  }

  lemma ReplayedRetryRecovers(w: World, host: Allocation, l: Lineage, candidate: Nonce, digest: Option<string>)
    requires ClientsOk(w) && l in w.clients && GoodNonce(candidate)
    requires ReplayHit(w.sys.server, RetryRequest(w, l, candidate, digest), host)
    ensures CanContinue(w, host, ReplayedRetry(w, l, candidate, digest))
    ensures Recovered(Continue(w, host, ReplayedRetry(w, l, candidate, digest)), l)
  {
    var request := RetryRequest(w, l, candidate, digest);
    var response := w.sys.server.reconnects[request.credential].response;
    var checked := [Prepare(l, candidate)] + [Server(CheckReplay(request))];
    PrepareAndCheck(w, host, l, candidate, digest);
    hide ClientsOk, Continue, CanContinue;
    assert Answer(request, response) in Continue(w, host, checked).sys.names.answers;
    OneMore(w, host, checked, Commit(l, Answer(request, response)));
  }

  /** A live credential has no replay entry: it has not been rotated. */
  lemma LiveIsNotReplayed(s: State, names: Names, c: Credential)
    requires RotationsOk(s, names) && ReplaysOk(s, names) && c in s.connections
    ensures c !in s.reconnects
  {
  }

  lemma FetchAfterMiss(sys: System, host: Allocation, request: ReconnectRequest)
    requires request.credential in sys.server.connections && request.credential != ""
    requires request.credential !in sys.server.reconnects
    requires Accepts(host, sys.server.connections[request.credential].admission, request.digest)
    ensures
      var sys' := Step(sys, host, CheckReplay(request));
      var sys'' := Step(sys', host, FetchMember(request));
      && Enabled(sys', FetchMember(request))
      && sys''.server == sys.server && sys''.names == sys.names
      && (request, sys.server.connections[request.credential]) in sys''.calls.fetched
  {
  }

  lemma RotateAfterFetch(sys: System, host: Allocation, request: ReconnectRequest, minted: Credential,
                         snapshot: Snapshot)
    requires request.credential in sys.server.connections && minted != "" && minted !in sys.names.lineage
    requires (request, sys.server.connections[request.credential]) in sys.calls.fetched
    ensures
      var member := sys.server.connections[request.credential];
      var a := RotateCredential(request, minted, member, snapshot);
      var sys' := Step(sys, host, a);
      && Enabled(sys, a)
      && Answer(request, JoinResponse(minted, member.admission, snapshot)) in sys'.names.answers
      && minted in sys'.server.connections && sys'.server.connections[minted].connected
  {
  }

  lemma RotatingRetryRecovers(w: World, host: Allocation, l: Lineage, candidate: Nonce, digest: Option<string>,
                              minted: Credential, snapshot: Snapshot)
    requires ClientsOk(w) && l in w.clients && GoodNonce(candidate)
    requires NamesOk(w.sys.server, w.sys.names) && RotationsOk(w.sys.server, w.sys.names)
    requires ReplaysOk(w.sys.server, w.sys.names)
    requires w.clients[l].credential in w.sys.server.connections
    requires Accepts(host, w.sys.server.connections[w.clients[l].credential].admission, digest)
    requires minted != "" && minted !in w.sys.names.lineage
    ensures CanContinue(w, host, RotatingRetry(w, l, candidate, digest, minted, snapshot))
    ensures Recovered(Continue(w, host, RotatingRetry(w, l, candidate, digest, minted, snapshot)), l)
  {
    var request := RetryRequest(w, l, candidate, digest);
    var member := w.sys.server.connections[request.credential];
    var rotation := RotateCredential(request, minted, member, snapshot);
    var answer := Answer(request, JoinResponse(minted, member.admission, snapshot));
    var checked := [Prepare(l, candidate)] + [Server(CheckReplay(request))];
    var fetched := checked + [Server(FetchMember(request))];
    var rotated := fetched + [Server(rotation)];
    LiveIsNotReplayed(w.sys.server, w.sys.names, request.credential);
    assert request.credential != "";
    hide ClientsOk, Continue, CanContinue, NamesOk, RotationsOk, ReplaysOk, NextServer, NextCalls, NextNames,
         NextLeases, NextLedger, Enabled;
    PrepareAndCheck(w, host, l, candidate, digest);
    FetchAfterMiss(w.sys, host, request);
    OneMore(w, host, checked, Server(FetchMember(request)));
    RotateAfterFetch(Continue(w, host, fetched).sys, host, request, minted, snapshot);
    OneMore(w, host, fetched, Server(rotation));
    OneMore(w, host, rotated, Commit(l, answer));
  }

  /** The runtime identity with digest `digest` fits whatever membership lineage `l` has. */
  predicate MayResume(sys: System, host: Allocation, l: Lineage, digest: Option<string>) {
    forall c | c in sys.server.connections && c in sys.names.lineage && sys.names.lineage[c] == l ::
      Accepts(host, sys.server.connections[c].admission, digest)
  }

  /** A retry that nothing interrupts does recover the client: unless the membership has departed or its replay window
      has ended, the client sends what it has stored, commits the answer, and is connected again. */
  lemma RetryRecovers(host: Allocation, run: seq<Event>, l: Lineage, candidate: Nonce, digest: Option<string>,
                      minted: Credential, snapshot: Snapshot)
    requires IsHistory(host, run) && l in Unfold(host, run).clients && GoodNonce(candidate)
    requires minted != "" && minted !in Unfold(host, run).sys.names.lineage
    requires MayResume(Unfold(host, run).sys, host, l, digest)
    requires !HasDeparted(Unfold(host, run).sys.ledger, l)
    requires Unfold(host, run).clients[l].credential !in Unfold(host, run).sys.names.replaysEnded
    ensures exists events ::
      CanContinue(Unfold(host, run), host, events) && Recovered(Continue(Unfold(host, run), host, events), l)
  {
    var w := Unfold(host, run);
    hide Unfold, IsHistory, Accounted, TargetsOk, SentOk, NamesOk, CallsOk, RotationsOk, ReplaysOk, LeasesOk, BudgetsOk,
         HasDeparted, Continue, CanContinue, Recovered, Accepts;
    HistoryKeepsInv(host, run);
    Parts(w.sys);
    Recoverable(w, l);
    var c := w.clients[l].credential;
    LineageOfCredential(w, l);
    if c in w.sys.server.connections {
      RotatingRetryRecovers(w, host, l, candidate, digest, minted, snapshot);
    } else {
      ReplayLineage(w, l);
      assert ReplayHit(w.sys.server, RetryRequest(w, l, candidate, digest), host);
      ReplayedRetryRecovers(w, host, l, candidate, digest);
    }
  }

  lemma LineageOfCredential(w: World, l: Lineage)
    requires ClientsOk(w) && l in w.clients
    ensures w.clients[l].credential in w.sys.names.lineage && w.sys.names.lineage[w.clients[l].credential] == l
  {
    assert ClientOk(w.sys.names, l, w.clients[l]);
    assert w.clients[l].credential == w.clients[l].held[|w.clients[l].held| - 1];
  }

  lemma ReplayLineage(w: World, l: Lineage)
    requires RotationsOk(w.sys.server, w.sys.names) && ReplaysOk(w.sys.server, w.sys.names)
    requires ClientsOk(w) && l in w.clients && w.clients[l].credential in w.sys.server.reconnects
    ensures
      var to := w.sys.server.reconnects[w.clients[l].credential].response.credential;
      to in w.sys.names.lineage && w.sys.names.lineage[to] == l
  {
    LineageOfCredential(w, l);
    hide ClientsOk;
  }
}
