/** Every step of the protocol keeps the books on joins, departures and identities. */
module ProtocolLedger {
  import opened Wrappers
  import opened Membership
  import opened Protocol
  import opened ProtocolInvariants

  /** The live credentials after a step. */
  function NextKeys(s: State, a: Action): set<Credential> {
    var gone := Removed(s, a);
    if gone.Some? then s.connections.Keys - {gone.value}
    else
      match a
      case RegisterJoin(c, _, _, _) => s.connections.Keys + {c}
      case RollbackJoin(c) => s.connections.Keys - {c}
      case RotateCredential(request, minted, member, snapshot) =>
        if Rotate(s, request, minted, member, snapshot).1.Rotated?
        then s.connections.Keys - {request.credential} + {minted}
        else s.connections.Keys
      case _ => s.connections.Keys
  }

  lemma ServerKeys(s: State, host: Allocation, a: Action)
    ensures NextServer(s, host, a).connections.Keys == NextKeys(s, a)
    ensures Removed(s, a).Some? ==> Removed(s, a).value in s.connections
  {
  }

  /** How many live memberships a step adds. */
  lemma KeysCount(sys: System, a: Action)
    requires NamesOk(sys.server, sys.names) && CallsOk(sys.server, sys.names, sys.calls) && Enabled(sys, a)
    requires Removed(sys.server, a).Some? ==> Removed(sys.server, a).value in sys.server.connections
    ensures |NextKeys(sys.server, a)| - |sys.server.connections.Keys| ==
            if Removed(sys.server, a).Some? || a.RollbackJoin? then -1 else if a.RegisterJoin? then 1 else 0
  {
    hide RootsOk, OnePerLineage;
    var keys := sys.server.connections.Keys;
    assert sys.calls.joining <= keys <= sys.names.lineage.Keys;
    KeysCounted(sys, a, keys);
  }

  lemma KeysCounted(sys: System, a: Action, keys: set<Credential>)
    requires keys == sys.server.connections.Keys && sys.calls.joining <= keys <= sys.names.lineage.Keys
    requires Enabled(sys, a)
    requires Removed(sys.server, a).Some? ==> Removed(sys.server, a).value in keys
    ensures |NextKeys(sys.server, a)| - |keys| ==
            if Removed(sys.server, a).Some? || a.RollbackJoin? then -1 else if a.RegisterJoin? then 1 else 0
  {
    hide Removed, Rotate;
    if a.RotateCredential? && Rotate(sys.server, a.request, a.minted, a.member, a.snapshot).1.Rotated? {
      var from, to := a.request.credential, a.minted;
      RotateGuards(sys.server, a);
      assert from in keys && to !in keys;
      assert |keys - {from}| == |keys| - 1;
      assert |keys - {from} + {to}| == |keys - {from}| + 1;
    }
  }

  lemma RotateGuards(s: State, a: Action)
    requires a.RotateCredential? && Rotate(s, a.request, a.minted, a.member, a.snapshot).1.Rotated?
    ensures a.request.credential in s.connections
  {
  }

  lemma BalanceKept(sys: System, host: Allocation, a: Action)
    requires NamesOk(sys.server, sys.names) && CallsOk(sys.server, sys.names, sys.calls) && Enabled(sys, a)
    requires Balanced(sys.server, sys.ledger)
    ensures Balanced(NextServer(sys.server, host, a), NextLedger(sys.ledger, sys.names, sys.server, a))
  {
    ServerKeys(sys.server, host, a);
    KeysCount(sys, a);
    assert sys.server.connections.Keys <= sys.names.lineage.Keys;
    hide NamesOk, CallsOk, NextServer, NextKeys, Enabled;
  }

  lemma NoticesKept(ledger: Ledger, names: Names, s: State, a: Action)
    requires NoticesOk(ledger) && (a.Notify? ==> a.departure in ledger.owed)
    ensures NoticesOk(NextLedger(ledger, names, s, a))
  {
    hide Removed;
  }

  lemma RegisteredLedger(live: set<Lineage>, names: Names, ledger: Ledger, live': set<Lineage>, names': Names,
                         ledger': Ledger, c: Credential)
    requires LedgerOk(live, names, ledger) && c !in names.lineage && c !in names.returned
    requires live' == live + {c}
    requires names' == names.(lineage := names.lineage[c := c])
    requires ledger'.joins == ledger.joins + [c]
    requires ledger'.rollbacks == ledger.rollbacks && ledger'.departures == ledger.departures
    ensures LedgerOk(live', names', ledger')
  {
    assert forall l :: HasDeparted(ledger', l) == HasDeparted(ledger, l);
  }

  lemma RolledBackLedger(live: set<Lineage>, names: Names, ledger: Ledger, live': set<Lineage>, ledger': Ledger,
                         c: Credential)
    requires LedgerOk(live, names, ledger) && c in live && c in ledger.joins && c !in names.returned
    requires live' == live - {c}
    requires ledger' == ledger.(rollbacks := ledger.rollbacks + [c])
    ensures LedgerOk(live', names, ledger')
  {
    assert forall l :: HasDeparted(ledger', l) == HasDeparted(ledger, l);
  }

  lemma DepartedLedger(live: set<Lineage>, names: Names, ledger: Ledger, live': set<Lineage>, ledger': Ledger,
                       d: Departure)
    requires LedgerOk(live, names, ledger) && d.lineage in live && d.lineage in names.returned
    requires live' == live - {d.lineage}
    requires ledger'.joins == ledger.joins && ledger'.rollbacks == ledger.rollbacks
    requires ledger'.departures == ledger.departures + [d]
    ensures LedgerOk(live', names, ledger')
  {
    assert !HasDeparted(ledger, d.lineage);
    forall l ensures HasDeparted(ledger', l) <==> HasDeparted(ledger, l) || l == d.lineage {
      if HasDeparted(ledger, l) {
        var i :| 0 <= i < |ledger.departures| && ledger.departures[i].lineage == l;
        assert ledger'.departures[i].lineage == l;
      }
      assert ledger'.departures[|ledger.departures|] == d;
    }
  }

  lemma QuietLedger(live: set<Lineage>, names: Names, ledger: Ledger, names': Names, ledger': Ledger)
    requires LedgerOk(live, names, ledger)
    requires forall l ::
               (l in names'.lineage && names'.lineage[l] == l) <==> (l in names.lineage && names.lineage[l] == l)
    requires names.returned <= names'.returned
    requires forall l :: l in names'.returned && l in ledger.rollbacks ==> l in names.returned
    requires ledger'.joins == ledger.joins && ledger'.rollbacks == ledger.rollbacks
    requires ledger'.departures == ledger.departures
    ensures LedgerOk(live, names', ledger')
  {
    assert forall l :: HasDeparted(ledger', l) == HasDeparted(ledger, l);
  }

  lemma LiveMember(s: State, names: Names, c: Credential)
    requires c in s.connections && c in names.lineage
    ensures names.lineage[c] in Live(s, names)
  {
  }

  lemma LiveWithout(s: State, names: Names, s': State, names': Names, c: Credential)
    requires s.connections.Keys <= names.lineage.Keys && OnePerLineage(s, names) && c in s.connections
    requires s'.connections.Keys == s.connections.Keys - {c} && names'.lineage == names.lineage
    ensures Live(s', names') == Live(s, names) - {names.lineage[c]}
  {
    forall l | l in Live(s, names) && l != names.lineage[c] ensures l in Live(s', names') {
      var d :| d in s.connections && d in names.lineage && names.lineage[d] == l;
      LiveMember(s', names', d);
    }
  }

  lemma LiveWith(s: State, names: Names, s': State, names': Names, c: Credential, l: Lineage)
    requires c !in names.lineage
    requires s'.connections.Keys == s.connections.Keys + {c} && names'.lineage == names.lineage[c := l]
    ensures Live(s', names') == Live(s, names) + {l}
  {
    forall k | k in Live(s, names) ensures k in Live(s', names') {
      var d :| d in s.connections && d in names.lineage && names.lineage[d] == k;
      LiveMember(s', names', d);
    }
    LiveMember(s', names', c);
  }

  lemma LiveSame(s: State, names: Names, s': State, names': Names)
    requires s'.connections.Keys == s.connections.Keys && names'.lineage == names.lineage
    ensures Live(s', names') == Live(s, names)
  {
  }

  /** What each kind of step does to the live lineages. */
  lemma LiveStep(sys: System, host: Allocation, a: Action)
    requires NamesOk(sys.server, sys.names) && CallsOk(sys.server, sys.names, sys.calls) && Enabled(sys, a)
    ensures
      var live := Live(sys.server, sys.names);
      var gone := Removed(sys.server, a);
      && (gone.Some? ==> gone.value in sys.server.connections && gone.value in sys.names.lineage)
      && Live(NextServer(sys.server, host, a), NextNames(sys.names, sys.server, host, a)) ==
         if gone.Some? then live - {sys.names.lineage[gone.value]}
         else if a.RegisterJoin? then live + {a.c}
         else if a.RollbackJoin? then live - {a.c}
         else live
  {
    var s, names := sys.server, sys.names;
    var s', names' := NextServer(s, host, a), NextNames(names, s, host, a);
    LineageStep(sys, host, a);
    ServerKeys(s, host, a);
    KeysKnown(sys, a);
    RotatedFromLive(s, a);
    assert s.connections.Keys <= names.lineage.Keys;
    hide RootsOk, OnePerLineage, CallsOk, NextServer, NextNames, Rotate, Live, Enabled;
    if Removed(s, a).Some? {
      LiveWithout(s, names, s', names', Removed(s, a).value);
    } else if a.RegisterJoin? {
      LiveWith(s, names, s', names', a.c, a.c);
    } else if a.RollbackJoin? {
      LiveWithout(s, names, s', names', a.c);
    } else if a.RotateCredential? && Rotate(s, a.request, a.minted, a.member, a.snapshot).1.Rotated? {
      var from := a.request.credential;
      var middle := s.(connections := s.connections - {from});
      LiveWithout(s, names, middle, names, from);
      LiveWith(middle, names, s', names', a.minted, names.lineage[from]);
      LiveMember(s, names, from);
    } else {
      LiveSame(s, names, s', names');
    }
  }

  /** Only a join and a rotation name a credential. */
  lemma LineageStep(sys: System, host: Allocation, a: Action)
    requires NamesOk(sys.server, sys.names) && CallsOk(sys.server, sys.names, sys.calls) && Enabled(sys, a)
    ensures NextNames(sys.names, sys.server, host, a).lineage ==
            if a.RegisterJoin? then sys.names.lineage[a.c := a.c]
            else if a.RotateCredential? && Rotate(sys.server, a.request, a.minted, a.member, a.snapshot).1.Rotated?
                    && a.request.credential in sys.names.lineage
            then sys.names.lineage[a.minted := sys.names.lineage[a.request.credential]]
            else sys.names.lineage
  {
    hide RootsOk, OnePerLineage;
    RotatedFromLive(sys.server, a);
  }

  lemma RotatedFromLive(s: State, a: Action)
    ensures a.RotateCredential? && Rotate(s, a.request, a.minted, a.member, a.snapshot).1.Rotated? ==>
              a.request.credential in s.connections
  {
  }

  lemma KeysKnown(sys: System, a: Action)
    requires NamesOk(sys.server, sys.names) && CallsOk(sys.server, sys.names, sys.calls) && Enabled(sys, a)
    ensures a.RollbackJoin? ==>
              a.c in sys.server.connections && a.c in sys.names.lineage && sys.names.lineage[a.c] == a.c
    ensures a.RegisterJoin? ==> a.c !in sys.names.lineage && a.c !in sys.server.connections
    ensures a.RotateCredential? ==> a.minted !in sys.names.lineage && a.minted !in sys.server.connections
  {
    hide RootsOk, OnePerLineage;
  }

  /** Which credentials a step hands out. */
  lemma ReturnedStep(sys: System, host: Allocation, a: Action, c: Credential)
    requires Credentials(sys.server, sys.names) && CallsOk(sys.server, sys.names, sys.calls) && Enabled(sys, a)
    requires c in NextNames(sys.names, sys.server, host, a).returned && c !in sys.names.returned
    ensures a.ReturnJoin? || a.RotateCredential?
    ensures a.ReturnJoin? ==> c in Live(sys.server, sys.names)
    ensures a.RotateCredential? ==> c !in sys.names.lineage
  {
    hide RootsOk, OnePerLineage;
  }

  lemma QuietRoots(sys: System, host: Allocation, a: Action, l: Lineage)
    requires NamesOk(sys.server, sys.names) && CallsOk(sys.server, sys.names, sys.calls) && Enabled(sys, a)
    requires !a.RegisterJoin?
    ensures
      var names' := NextNames(sys.names, sys.server, host, a);
      (l in names'.lineage && names'.lineage[l] == l) <==> (l in sys.names.lineage && sys.names.lineage[l] == l)
  {
    LineageStep(sys, host, a);
    KeysKnown(sys, a);
    hide NextNames, Enabled, CallsOk;
  }

  lemma LedgerKept(sys: System, host: Allocation, a: Action)
    requires Credentials(sys.server, sys.names) && CallsOk(sys.server, sys.names, sys.calls)
    requires LeasesOk(sys.server, sys.names, sys.leases) && Enabled(sys, a)
    requires LedgerOk(Live(sys.server, sys.names), sys.names, sys.ledger)
    ensures
      var s', names' := NextServer(sys.server, host, a), NextNames(sys.names, sys.server, host, a);
      LedgerOk(Live(s', names'), names', NextLedger(sys.ledger, sys.names, sys.server, a))
  {
    LiveStep(sys, host, a);
    KeysKnown(sys, a);
    if Removed(sys.server, a).Some? {
      DepartureKept(sys, host, a);
    } else if a.RegisterJoin? {
      assert a.c !in sys.names.returned;
      hide Credentials, CallsOk, LeasesOk, LedgerOk, NextServer, Live;
      RegisteredLedger(Live(sys.server, sys.names), sys.names, sys.ledger,
                       Live(NextServer(sys.server, host, a), NextNames(sys.names, sys.server, host, a)),
                       NextNames(sys.names, sys.server, host, a),
                       NextLedger(sys.ledger, sys.names, sys.server, a), a.c);
    } else if a.RollbackJoin? {
      assert a.c in Live(sys.server, sys.names) by { LiveMember(sys.server, sys.names, a.c); }
      assert a.c in sys.ledger.joins && a.c !in sys.names.returned;
      hide Credentials, CallsOk, LeasesOk, LedgerOk, NextServer, Live;
      RolledBackLedger(Live(sys.server, sys.names), sys.names, sys.ledger,
                       Live(NextServer(sys.server, host, a), NextNames(sys.names, sys.server, host, a)),
                       NextLedger(sys.ledger, sys.names, sys.server, a), a.c);
    } else {
      UnchangedKept(sys, host, a);
    }
  }

  lemma DepartureKept(sys: System, host: Allocation, a: Action)
    requires Credentials(sys.server, sys.names) && CallsOk(sys.server, sys.names, sys.calls)
    requires LeasesOk(sys.server, sys.names, sys.leases) && Enabled(sys, a)
    requires LedgerOk(Live(sys.server, sys.names), sys.names, sys.ledger) && Removed(sys.server, a).Some?
    ensures
      var s', names' := NextServer(sys.server, host, a), NextNames(sys.names, sys.server, host, a);
      LedgerOk(Live(s', names'), names', NextLedger(sys.ledger, sys.names, sys.server, a))
  {
    var s, names := sys.server, sys.names;
    var c := Removed(s, a).value;
    LiveStep(sys, host, a);
    GoneReturned(sys, a);
    LiveMember(s, names, c);
    hide Credentials, CallsOk, LeasesOk, LedgerOk, NextServer, Live, Enabled;
    DepartedLedger(Live(s, names), names, sys.ledger, Live(NextServer(s, host, a), NextNames(names, s, host, a)),
                   NextLedger(sys.ledger, names, s, a), Departure(names.lineage[c], s.connections[c].principal));
  }

  lemma UnchangedKept(sys: System, host: Allocation, a: Action)
    requires Credentials(sys.server, sys.names) && CallsOk(sys.server, sys.names, sys.calls)
    requires LeasesOk(sys.server, sys.names, sys.leases) && Enabled(sys, a)
    requires LedgerOk(Live(sys.server, sys.names), sys.names, sys.ledger)
    requires Removed(sys.server, a).None? && !a.RegisterJoin? && !a.RollbackJoin?
    ensures
      var s', names' := NextServer(sys.server, host, a), NextNames(sys.names, sys.server, host, a);
      LedgerOk(Live(s', names'), names', NextLedger(sys.ledger, sys.names, sys.server, a))
  {
    var live, names, ledger := Live(sys.server, sys.names), sys.names, sys.ledger;
    var names', ledger' := NextNames(names, sys.server, host, a), NextLedger(ledger, names, sys.server, a);
    LiveStep(sys, host, a);
    ReturnedGrows(sys, host, a);
    assert forall l :: l in ledger.rollbacks ==> l in names.lineage && l !in live;
    hide LedgerOk, Live, NextServer, NextNames;
    forall l | l in names'.returned && l !in names.returned ensures l !in ledger.rollbacks {
      ReturnedStep(sys, host, a, l);
    }
    forall l
      ensures (l in names'.lineage && names'.lineage[l] == l) <==> (l in names.lineage && names.lineage[l] == l)
    {
      QuietRoots(sys, host, a, l);
    }
    hide Credentials, CallsOk, LeasesOk, Enabled;
    QuietLedger(live, names, ledger, names', ledger');
  }

  lemma GoneReturned(sys: System, a: Action)
    requires NamesOk(sys.server, sys.names)
    requires LeasesOk(sys.server, sys.names, sys.leases) && Enabled(sys, a) && Removed(sys.server, a).Some?
    ensures
      var c := Removed(sys.server, a).value;
      c in sys.names.returned && c in sys.names.lineage && sys.names.lineage[c] in sys.names.returned
  {
  }

  // ---- Identities ----

  lemma IdentityStep(ledger: Ledger, names: Names, s: State, a: Action)
    requires Removed(s, a).Some? ==> Removed(s, a).value in s.connections && Removed(s, a).value in names.lineage
    ensures
      var ledger' := NextLedger(ledger, names, s, a);
      && ledger'.identity == (if a.RegisterJoin? then ledger.identity[a.c := a.principal] else ledger.identity)
      && ledger'.departures ==
         (if Removed(s, a).Some?
          then ledger.departures +
               [Departure(names.lineage[Removed(s, a).value], s.connections[Removed(s, a).value].principal)]
          else ledger.departures)
  {
  }

  /** A surviving membership keeps its principal, and the one a rotation moves keeps it too. */
  lemma PrincipalKept(sys: System, host: Allocation, a: Action, c: Credential)
    requires NamesOk(sys.server, sys.names) && CallsOk(sys.server, sys.names, sys.calls) && Enabled(sys, a)
    requires IdentitiesOk(sys.server, sys.names, sys.ledger)
    requires c in NextServer(sys.server, host, a).connections
    ensures SamePrincipal(NextServer(sys.server, host, a), NextNames(sys.names, sys.server, host, a),
                          NextLedger(sys.ledger, sys.names, sys.server, a), c)
  {
    hide RootsOk, OnePerLineage, CallsOk, NextServer, NextNames, NextLedger, Enabled, Rotate;
    LineageStep(sys, host, a);
    KeysKnown(sys, a);
    PrincipalStep(sys, host, a, c);
    ServerKeys(sys.server, host, a);
    assert sys.server.connections.Keys <= sys.names.lineage.Keys;
    IdentityStep(sys.ledger, sys.names, sys.server, a);
  }

  lemma IdentitiesKept(sys: System, host: Allocation, a: Action)
    requires NamesOk(sys.server, sys.names) && CallsOk(sys.server, sys.names, sys.calls) && Enabled(sys, a)
    requires IdentitiesOk(sys.server, sys.names, sys.ledger)
    ensures IdentitiesOk(NextServer(sys.server, host, a), NextNames(sys.names, sys.server, host, a),
                         NextLedger(sys.ledger, sys.names, sys.server, a))
  {
    hide SamePrincipal, CallsOk, RootsOk, OnePerLineage, NextServer, NextNames, NextLedger, Enabled, Rotate;
    forall c | c in NextServer(sys.server, host, a).connections
      ensures SamePrincipal(NextServer(sys.server, host, a), NextNames(sys.names, sys.server, host, a),
                            NextLedger(sys.ledger, sys.names, sys.server, a), c)
    {
      PrincipalKept(sys, host, a, c);
    }
    var gone := Removed(sys.server, a);
    ServerKeys(sys.server, host, a);
    assert sys.server.connections.Keys <= sys.names.lineage.Keys;
    if gone.Some? {
      SamePrincipalMeans(sys.server, sys.names, sys.ledger, gone.value);
    }
    LineageStep(sys, host, a);
    KeysKnown(sys, a);
    IdentityStep(sys.ledger, sys.names, sys.server, a);
  }

  lemma SamePrincipalMeans(s: State, names: Names, ledger: Ledger, c: Credential)
    requires c in s.connections && SamePrincipal(s, names, ledger, c)
    ensures c in names.lineage && names.lineage[c] in ledger.identity
    ensures ledger.identity[names.lineage[c]] == s.connections[c].principal
  {
  }

  lemma PrincipalStep(sys: System, host: Allocation, a: Action, c: Credential)
    requires c in NextServer(sys.server, host, a).connections
    ensures
      var s, s' := sys.server, NextServer(sys.server, host, a);
      || (c in s.connections && s'.connections[c].principal == s.connections[c].principal)
      || (a.RegisterJoin? && c == a.c && s'.connections[c].principal == a.principal)
      || (a.RotateCredential? && c == a.minted && a.request.credential in s.connections &&
          Rotate(s, a.request, a.minted, a.member, a.snapshot).1.Rotated? &&
          s'.connections[c].principal == s.connections[a.request.credential].principal)
  {
  }
}
