/** Every step of the protocol keeps its invariants. */
module ProtocolInvariants {
  import opened Wrappers
  import opened Membership
  import opened Protocol

  lemma BudgetsKept(s: State, host: Allocation, a: Action)
    requires BudgetsOk(s)
    ensures BudgetsOk(NextServer(s, host, a))
  {
  }

  lemma WatchesKept(sys: System, host: Allocation, a: Action)
    requires CallsOk(sys.server, sys.names, sys.calls) && WatchesOk(sys.server, sys.names) && Enabled(sys, a)
    ensures WatchesOk(NextServer(sys.server, host, a), NextNames(sys.names, sys.server, host, a))
  {
  }

  /** What the names and the server know about credentials, taken together. */
  ghost predicate Credentials(s: State, names: Names) {
    NamesOk(s, names) && RotationsOk(s, names) && ReplaysOk(s, names)
  }

  /** A replayed answer names the credential of a recorded rotation. */
  lemma AnsweredKept(s: State, names: Names, request: ReconnectRequest)
    requires Credentials(s, names)
    requires request.credential in s.reconnects && s.reconnects[request.credential].nonce == request.nonce
    ensures Credentials(s, Answered(names, request, s.reconnects[request.credential].response))
  {
    var response := s.reconnects[request.credential].response;
    assert RotationOf(request, response) in names.rotations;
    assert Answered(names, request, response).returned == names.returned;
  }

  /** A rotation retires the old credential of a membership for one nobody has seen. */
  lemma RotatedNamesOk(s: State, names: Names, s': State, names': Names, from: Credential, minted: Credential)
    requires NamesOk(s, names) && from in s.connections && from in names.returned
    requires minted != "" && minted !in names.lineage
    requires s'.connections.Keys == s.connections.Keys - {from} + {minted}
    requires names'.lineage == names.lineage[minted := names.lineage[from]]
    requires names'.returned == names.returned + {minted}
    ensures NamesOk(s', names')
  {
    RotatedRoots(names, names', from, minted);
    RotatedLineages(s, names, s', names', from, minted);
    hide RootsOk, OnePerLineage;
  }

  lemma RotatedRoots(names: Names, names': Names, from: Credential, minted: Credential)
    requires RootsOk(names) && from in names.lineage && from in names.returned
    requires minted != "" && minted !in names.lineage
    requires names'.lineage == names.lineage[minted := names.lineage[from]]
    requires names'.returned == names.returned + {minted}
    ensures RootsOk(names')
  {
  }

  lemma RotatedLineages(s: State, names: Names, s': State, names': Names, from: Credential, minted: Credential)
    requires OnePerLineage(s, names) && s.connections.Keys <= names.lineage.Keys
    requires from in s.connections && minted !in names.lineage
    requires s'.connections.Keys == s.connections.Keys - {from} + {minted}
    requires names'.lineage == names.lineage[minted := names.lineage[from]]
    ensures OnePerLineage(s', names')
  {
    forall c | c in s.connections && c != from ensures names.lineage[c] != names.lineage[from] {
    }
  }

  lemma RotatedRotationsOk(s: State, names: Names, s': State, names': Names, r: Rotation)
    requires NamesOk(s, names) && RotationsOk(s, names) && r.from in s.connections && r.from in names.returned
    requires r.to !in names.lineage && r.response.credential == r.to
    requires s'.connections.Keys == s.connections.Keys - {r.from} + {r.to}
    requires names'.lineage == names.lineage[r.to := names.lineage[r.from]]
    requires names'.returned == names.returned + {r.to}
    requires names'.rotations == names.rotations + [r]
    ensures RotationsOk(s', names')
  {
    forall i, j | 0 <= i < j < |names'.rotations| ensures names'.rotations[i].from != names'.rotations[j].from {
      assert i < |names.rotations| && names.rotations[i] in names.rotations;
    }
  }

  lemma RotatedReplaysOk(s: State, names: Names, s': State, names': Names, r: Rotation, request: ReconnectRequest)
    requires NamesOk(s, names) && RotationsOk(s, names) && ReplaysOk(s, names) && r.from in s.connections
    requires r == RotationOf(request, r.response)
    requires s'.reconnects == s.reconnects[r.from := Replay(r.nonce, r.response)]
    requires names'.rotations == names.rotations + [r]
    requires names'.answers == names.answers + [Answer(request, r.response)]
    requires names'.replaysEnded == names.replaysEnded
    ensures ReplaysOk(s', names')
  {
    assert r in names'.rotations;
    forall q | q in names.rotations ensures q in names'.rotations && q.from != r.from {
    }
    forall q | q in names'.rotations && q.from !in names'.replaysEnded
      ensures q.from in s'.reconnects && s'.reconnects[q.from] == Replay(q.nonce, q.response)
    {
      assert q in names.rotations || q == r;
    }
  }

  lemma RotatedKept(sys: System, host: Allocation, request: ReconnectRequest, minted: Credential, member: Connection,
                    snapshot: Snapshot)
    requires Credentials(sys.server, sys.names)
    requires CallsOk(sys.server, sys.names, sys.calls)
    requires Enabled(sys, RotateCredential(request, minted, member, snapshot))
    requires Rotate(sys.server, request, minted, member, snapshot).1.Rotated?
    ensures
      var a := RotateCredential(request, minted, member, snapshot);
      Credentials(NextServer(sys.server, host, a), NextNames(sys.names, sys.server, host, a))
  {
    var a := RotateCredential(request, minted, member, snapshot);
    var s', names' := NextServer(sys.server, host, a), NextNames(sys.names, sys.server, host, a);
    var response := Rotate(sys.server, request, minted, member, snapshot).1.response;
    assert (request, member).0 == request;
    RotatedNamesOk(sys.server, sys.names, s', names', request.credential, minted);
    RotatedRotationsOk(sys.server, sys.names, s', names', RotationOf(request, response));
    RotatedReplaysOk(sys.server, sys.names, s', names', RotationOf(request, response), request);
  }

  /** Steps that name no credential and rotate nothing only remove memberships and replays. */
  predicate Quiet(a: Action) {
    !a.RegisterJoin? && !a.ReturnJoin? && !a.CheckReplay? && !a.RotateCredential?
  }

  ghost predicate Shrinks(s: State, names: Names, s': State, names': Names) {
    && s'.connections.Keys <= s.connections.Keys
    && names' == names.(replayArming := names'.replayArming, replayTimers := names'.replayTimers,
                        replaysEnded := names'.replaysEnded)
    && names.replaysEnded <= names'.replaysEnded
    && (forall c :: c in s'.reconnects ==> c in s.reconnects && s'.reconnects[c] == s.reconnects[c])
    && (forall c :: c in s.reconnects && c !in names'.replaysEnded ==> c in s'.reconnects)
  }

  lemma ShrinksKept(s: State, names: Names, s': State, names': Names)
    requires Credentials(s, names) && Shrinks(s, names, s', names')
    ensures Credentials(s', names')
  {
  }

  lemma QuietShrinks(s: State, names: Names, host: Allocation, a: Action)
    requires Quiet(a)
    ensures Shrinks(s, names, NextServer(s, host, a), NextNames(names, s, host, a))
  {
  }

  lemma RegisteredNamesOk(s: State, names: Names, s': State, names': Names, c: Credential)
    requires NamesOk(s, names) && c != "" && c !in names.lineage
    requires s'.connections.Keys == s.connections.Keys + {c}
    requires names' == names.(lineage := names.lineage[c := c])
    ensures NamesOk(s', names')
  {
    forall d | d in names'.lineage
      ensures names'.lineage[d] in names'.lineage && names'.lineage[names'.lineage[d]] == names'.lineage[d]
    {
      assert d != c ==> names.lineage[d] != c;
    }
    assert OnePerLineage(s', names') by {
      forall x, y | x in s'.connections && y in s'.connections && names'.lineage[x] == names'.lineage[y]
        ensures x == y
      {
        assert x != c ==> names.lineage[x] != c;
        assert y != c ==> names.lineage[y] != c;
      }
    }
  }

  lemma RegisteredRotationsOk(s: State, names: Names, s': State, names': Names, c: Credential)
    requires RotationsOk(s, names) && c !in names.lineage
    requires s'.connections.Keys == s.connections.Keys + {c}
    requires names' == names.(lineage := names.lineage[c := c])
    ensures RotationsOk(s', names')
  {
  }

  lemma RegisteredKept(s: State, names: Names, s': State, names': Names, c: Credential)
    requires Credentials(s, names) && c != "" && c !in names.lineage
    requires s'.connections.Keys == s.connections.Keys + {c} && s'.reconnects == s.reconnects
    requires names' == names.(lineage := names.lineage[c := c])
    ensures Credentials(s', names')
  {
    hide NamesOk, RotationsOk;
    RegisteredNamesOk(s, names, s', names', c);
    RegisteredRotationsOk(s, names, s', names', c);
  }

  lemma ReturnedKept(s: State, names: Names, c: Credential)
    requires Credentials(s, names) && c in names.lineage && names.lineage[c] == c
    ensures Credentials(s, names.(returned := names.returned + {c}))
  {
  }

  lemma CredentialsKept(sys: System, host: Allocation, a: Action)
    requires Credentials(sys.server, sys.names)
    requires CallsOk(sys.server, sys.names, sys.calls)
    requires Enabled(sys, a)
    ensures Credentials(NextServer(sys.server, host, a), NextNames(sys.names, sys.server, host, a))
  {
    hide Credentials;
    var s', names' := NextServer(sys.server, host, a), NextNames(sys.names, sys.server, host, a);
    match a
    case RotateCredential(request, minted, member, snapshot) =>
      match Rotate(sys.server, request, minted, member, snapshot).1 {
        case Rotated(_, _) => RotatedKept(sys, host, request, minted, member, snapshot);
        case Replayed(_) => AnsweredKept(sys.server, sys.names, request);
        case Rejected =>
      }
    case CheckReplay(request) =>
      if ReplayHit(sys.server, request, host) {
        AnsweredKept(sys.server, sys.names, request);
        ShrinksKept(sys.server, names', s', names');
      }
    case RegisterJoin(c, principal, admission, now) => RegisteredKept(sys.server, sys.names, s', names', c);
    case ReturnJoin(c) => ReturnedKept(sys.server, sys.names, c);
    case _ =>
      QuietShrinks(sys.server, sys.names, host, a);
      ShrinksKept(sys.server, sys.names, s', names');
  }

  // ---- Calls ----

  lemma CallsKept(sys: System, host: Allocation, a: Action)
    requires Credentials(sys.server, sys.names)
    requires CallsOk(sys.server, sys.names, sys.calls) && LeasesOk(sys.server, sys.names, sys.leases)
    requires Enabled(sys, a)
    ensures CallsOk(NextServer(sys.server, host, a), NextNames(sys.names, sys.server, host, a),
                    NextCalls(sys.calls, sys.server, host, a))
  {
    var s', names' := NextServer(sys.server, host, a), NextNames(sys.names, sys.server, host, a);
    JoiningStays(sys, host, a);
    ReturnedGrows(sys, host, a);
    hide RotationsOk, ReplaysOk, RootsOk, OnePerLineage, NextServer, NextNames;
  }

  /** A join in progress keeps its credential to itself: no other caller can touch that membership. */
  lemma JoiningStays(sys: System, host: Allocation, a: Action)
    requires Credentials(sys.server, sys.names)
    requires CallsOk(sys.server, sys.names, sys.calls) && LeasesOk(sys.server, sys.names, sys.leases)
    requires Enabled(sys, a)
    ensures
      var joining := NextCalls(sys.calls, sys.server, host, a).joining;
      var names' := NextNames(sys.names, sys.server, host, a);
      && joining <= NextServer(sys.server, host, a).connections.Keys
      && (forall c :: c in joining ==> c in names'.lineage && names'.lineage[c] == c)
  {
    hide RootsOk, OnePerLineage;
  }

  lemma ReturnedGrows(sys: System, host: Allocation, a: Action)
    requires Credentials(sys.server, sys.names)
    requires CallsOk(sys.server, sys.names, sys.calls) && LeasesOk(sys.server, sys.names, sys.leases)
    requires Enabled(sys, a)
    ensures
      var names' := NextNames(sys.names, sys.server, host, a);
      && sys.names.returned <= names'.returned
      && NextCalls(sys.calls, sys.server, host, a).joining !! names'.returned
  {
    assert sys.names.returned <= sys.names.lineage.Keys;
    hide RootsOk, OnePerLineage;
  }

  // ---- Leases ----

  /** Memberships only leave, reconnect or spend; timers and suspensions are as before. */
  ghost predicate Calm(s: State, s': State) {
    forall c :: c in s'.connections ==>
      && c in s.connections
      && s'.connections[c].disconnectGeneration == s.connections[c].disconnectGeneration
      && (s.connections[c].connected ==> s'.connections[c].connected)
  }

  lemma CalmLeases(s: State, names: Names, leases: Leases, s': State, names': Names, leases': Leases)
    requires LeasesOk(s, names, leases) && Calm(s, s')
    requires names.returned <= names'.returned
    requires leases'.arming + leases'.timers == leases.arming + leases.timers
    requires leases'.suspendedAt == leases.suspendedAt && leases'.clock == leases.clock + 1
    ensures LeasesOk(s', names', leases')
  {
  }

  lemma CalmStep(sys: System, host: Allocation, a: Action)
    requires !a.RegisterJoin? && !a.Disconnect? && !a.FireTimer? && Enabled(sys, a)
    requires a.RotateCredential? ==> !Rotate(sys.server, a.request, a.minted, a.member, a.snapshot).1.Rotated?
    ensures Calm(sys.server, NextServer(sys.server, host, a))
    ensures
      var leases := NextLeases(sys.leases, sys.server, a);
      && leases.arming + leases.timers == sys.leases.arming + sys.leases.timers
      && leases.suspendedAt == sys.leases.suspendedAt
      && leases.clock == sys.leases.clock + 1
  {
  }

  lemma SuspendedLeases(s: State, names: Names, leases: Leases, c: Credential)
    requires LeasesOk(s, names, leases) && c in names.returned
    ensures LeasesOk(Suspend(s, c).0, names, NextLeases(leases, s, Disconnect(c)))
  {
  }

  lemma FiredLeases(s: State, names: Names, leases: Leases, timer: Timer)
    requires LeasesOk(s, names, leases) && timer in leases.timers
    ensures LeasesOk(Expire(s, timer.credential, timer.generation).0, names, NextLeases(leases, s, FireTimer(timer)))
  {
  }

  /** A membership under a new credential is connected and has no timers. */
  lemma RenamedLeases(s: State, names: Names, leases: Leases, s': State, names': Names, c: Credential)
    requires LeasesOk(s, names, leases) && c !in names.returned
    requires c in s'.connections && s'.connections[c].connected
    requires forall d :: d in s'.connections && d != c ==> d in s.connections && s'.connections[d] == s.connections[d]
    requires names.returned <= names'.returned
    ensures LeasesOk(s', names', leases.(clock := leases.clock + 1))
  {
  }

  lemma RotatedLeases(sys: System, host: Allocation, a: Action)
    requires LeasesOk(sys.server, sys.names, sys.leases) && sys.names.returned <= sys.names.lineage.Keys
    requires a.RotateCredential? && Enabled(sys, a)
    requires Rotate(sys.server, a.request, a.minted, a.member, a.snapshot).1.Rotated?
    ensures LeasesOk(NextServer(sys.server, host, a), NextNames(sys.names, sys.server, host, a),
                     NextLeases(sys.leases, sys.server, a))
  {
    hide LeasesOk;
    var s', names' := NextServer(sys.server, host, a), NextNames(sys.names, sys.server, host, a);
    RenamedLeases(sys.server, sys.names, sys.leases, s', names', a.minted);
  }

  lemma LeasesKept(sys: System, host: Allocation, a: Action)
    requires Credentials(sys.server, sys.names)
    requires CallsOk(sys.server, sys.names, sys.calls) && LeasesOk(sys.server, sys.names, sys.leases)
    requires Enabled(sys, a)
    ensures LeasesOk(NextServer(sys.server, host, a), NextNames(sys.names, sys.server, host, a),
                     NextLeases(sys.leases, sys.server, a))
  {
    hide Credentials, LeasesOk, CallsOk;
    var s, names, leases := sys.server, sys.names, sys.leases;
    var s', names' := NextServer(s, host, a), NextNames(names, s, host, a);
    ReturnedGrows(sys, host, a);
    ReturnedIsKnown(s, names);
    if a.RotateCredential? && Rotate(s, a.request, a.minted, a.member, a.snapshot).1.Rotated? {
      RotatedLeases(sys, host, a);
    } else {
      match a
      case RegisterJoin(c, _, _, _) => RenamedLeases(s, names, leases, s', names', c);
      case Disconnect(c) => SuspendedLeases(s, names, leases, c);
      case FireTimer(timer) => FiredLeases(s, names, leases, timer);
      case _ => CalmKept(sys, host, a);
    }
  }

  lemma ReturnedIsKnown(s: State, names: Names)
    requires Credentials(s, names)
    ensures names.returned <= names.lineage.Keys
  {
  }

  lemma CalmKept(sys: System, host: Allocation, a: Action)
    requires LeasesOk(sys.server, sys.names, sys.leases) && Enabled(sys, a)
    requires !a.RegisterJoin? && !a.Disconnect? && !a.FireTimer?
    requires a.RotateCredential? ==> !Rotate(sys.server, a.request, a.minted, a.member, a.snapshot).1.Rotated?
    requires sys.names.returned <= NextNames(sys.names, sys.server, host, a).returned
    ensures LeasesOk(NextServer(sys.server, host, a), NextNames(sys.names, sys.server, host, a),
                     NextLeases(sys.leases, sys.server, a))
  {
    hide NextServer, NextNames, NextLeases, LeasesOk, Enabled, Rotate;
    CalmStep(sys, host, a);
    CalmLeases(sys.server, sys.names, sys.leases, NextServer(sys.server, host, a),
               NextNames(sys.names, sys.server, host, a), NextLeases(sys.leases, sys.server, a));
  }
}
