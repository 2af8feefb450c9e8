/** The authenticated boundary around one hosted game: the mutable tables of memberships, watch streams and reconnect
    replays. Each method is one critical section, except Join and Reconnect, which run several in a row.

    Identity, admission, randomness, clocks and snapshots come in as parameters; scheduled callbacks and leave
    notifications go out as results. */
module Endpoints {
  import opened Wrappers
  import opened Membership

  class Endpoint {
    const host: Allocation
    var connections: map<Credential, Connection>
    var watches: set<Credential>
    var reconnects: map<Credential, Replay>

    ghost function Contents(): State
      reads this
    {
      State(connections, watches, reconnects)
    }

    constructor (host: Allocation)
      ensures this.host == host && Contents() == EMPTY
    {
      this.host := host;
      connections, watches, reconnects := map[], {}, map[];
    }

    // ---- Joining ----

    method RegisterConnection(credential: Credential, principal: Principal, admission: Admission, now: real)
      modifies this
      ensures Contents() == Register(old(Contents()), credential, principal, admission, now)
    {
      var commands := TokenBucket(COMMAND_BURST, COMMAND_BURST, COMMAND_RATE, now);
      var refreshes := TokenBucket(REFRESH_BURST, REFRESH_BURST, REFRESH_RATE, now);
      connections := connections[credential := Connection(principal, admission, commands, refreshes, true, 0)];
    }

    method RemoveConnection(credential: Credential)
      modifies this
      ensures Contents() == Rollback(old(Contents()), credential)
    {
      connections := connections - {credential};
    }

    method Join(version: nat, principal: Option<Principal>, admission: Option<Admission>, minted: Option<Credential>,
                now: real, snapshot: Option<Snapshot>)
      returns (response: Result<JoinResponse, Error>, announced: Option<Principal>)
      modifies this
      ensures announced == if response.Ok? then principal else None
      ensures (Contents(), response) ==
              JoinAlone(old(Contents()), version, principal, admission, minted, now, snapshot)
      ensures response.Err? && (minted.Some? ==> Unused(old(Contents()), minted.value)) ==>
                Contents() == old(Contents())
    {
      ghost var before := Contents();
      if version != PROTOCOL_VERSION {
        return Err(Protocol), None;
      }
      if principal.None? {
        return Err(Authentication), None;
      }
      if admission.None? {
        return Err(Compatibility), None;
      }
      if minted.None? {
        return Err(Unavailable), None;
      }
      RegisterConnection(minted.value, principal.value, admission.value, now);
      if snapshot.None? {
        RemoveConnection(minted.value);
        if Unused(before, minted.value) {
          FailedJoinLeavesNoTrace(before, version, principal, admission, minted, now, snapshot);
        }
        return Err(Unavailable), None;
      }
      return Ok(JoinResponse(minted.value, admission.value, snapshot.value)), principal;
    }

    // ---- Leaving ----

    /** Returns the generation of the expiry timer to schedule, if any. */
    method Disconnect(credential: Credential) returns (scheduled: Option<nat>)
      modifies this
      ensures (Contents(), scheduled) == Suspend(old(Contents()), credential)
    {
      if credential !in connections || credential == "" || !connections[credential].connected {
        return None;
      }
      var member := connections[credential];
      member := member.(connected := false);
      member := member.(disconnectGeneration := member.disconnectGeneration + 1);
      var generation := member.disconnectGeneration;
      connections := connections[credential := member];
      watches := watches - {credential};
      return Some(generation);
    }

    /** The callback of an expiry timer. Returns whom to send the leave notification for, if anyone. */
    method ExpireDisconnect(credential: Credential, generation: nat) returns (left: Option<Principal>)
      modifies this
      ensures (Contents(), left) == Expire(old(Contents()), credential, generation)
    {
      if credential !in connections {
        return None;
      }
      var member := connections[credential];
      if member.connected || member.disconnectGeneration != generation {
        return None;
      }
      connections := connections - {credential};
      watches := watches - {credential};
      return Some(member.principal);
    }

    /** Leave (strict) and cleanup (lenient) share this: they differ in what an unknown credential means. `failure` is
        what the receiver of the leave notification answers. */
    method LeaveCredential(credential: Credential, strict: bool, failure: Option<Error>)
      returns (error: Option<Error>, left: Option<Principal>)
      modifies this
      ensures (Contents(), left) == Revoke(old(Contents()), credential)
      ensures error == if left.Some? then failure else if strict then Some(Authentication) else None
    {
      if credential !in connections || credential == "" {
        return if strict then Some(Authentication) else None, None;
      }
      var member := connections[credential];
      connections := connections - {credential};
      watches := watches - {credential};
      return failure, Some(member.principal);
    }

    // ---- Reconnecting ----

    method Membership(credential: Credential, allowDisconnected: bool) returns (member: Result<Connection, Error>)
      ensures member == Member(Contents(), credential, allowDisconnected)
    {
      if credential !in connections || credential == "" {
        return Err(Authentication);
      }
      if !allowDisconnected && !connections[credential].connected {
        return Err(Authentication);
      }
      return Ok(connections[credential]);
    }

    method ReplayedReconnect(request: ReconnectRequest) returns (response: Option<JoinResponse>)
      modifies this
      ensures (Contents(), response) == ReplayLookup(old(Contents()), request, host)
    {
      if request.credential !in reconnects || reconnects[request.credential].nonce != request.nonce {
        return None;
      }
      var replay := reconnects[request.credential];
      if replay.response.credential !in connections {
        return None;
      }
      var member := connections[replay.response.credential];
      if !Accepts(host, member.admission, request.digest) {
        return None;
      }
      member := member.(connected := true);
      connections := connections[replay.response.credential := member];
      return Some(replay.response);
    }

    method RotateReconnectCredential(request: ReconnectRequest, minted: Credential, member: Connection,
                                     snapshot: Snapshot)
      returns (outcome: RotateOutcome)
      modifies this
      ensures (Contents(), outcome) == Rotate(old(Contents()), request, minted, member, snapshot)
    {
      if request.credential !in connections || connections[request.credential].principal.id != member.principal.id {
        if request.credential in reconnects && reconnects[request.credential].nonce == request.nonce {
          return Replayed(reconnects[request.credential].response);
        }
        return Rejected;
      }
      var current := connections[request.credential];
      current := current.(connected := true);
      connections := connections - {request.credential};
      watches := watches - {request.credential};
      connections := connections[minted := current];
      var response := JoinResponse(minted, current.admission, snapshot);
      reconnects := reconnects[request.credential := Replay(request.nonce, response)];
      return Rotated(response, current.principal);
    }

    /** The callback that ends the replay window of an old credential. */
    method EndReplay(credential: Credential, nonce: Nonce)
      modifies this
      ensures Contents() == ExpireReplay(old(Contents()), credential, nonce)
    {
      if credential in reconnects && reconnects[credential].nonce == nonce {
        reconnects := reconnects - {credential};
      }
    }

    /** Returns whom to announce as connected again and the replay entry whose end to schedule: both for a rotation, and
        neither for an answer from the replay table. */
    method Reconnect(request: ReconnectRequest, minted: Option<Credential>, snapshot: Option<Snapshot>)
      returns (response: Result<JoinResponse, Error>, announced: Option<Principal>, ending: Option<(Credential, Nonce)>)
      modifies this
      ensures (Contents(), response) == ReconnectAlone(old(Contents()), host, request, minted, snapshot)
      ensures var rotated := response.Ok? && !ReplayHit(old(Contents()), request, host);
              && ending == (if rotated then Some((request.credential, request.nonce)) else None)
              && (announced.Some? <==> rotated)
              && (rotated ==> request.credential in old(connections)
                              && announced.value == old(connections)[request.credential].principal)
    {
      if |request.nonce| < 32 || |request.nonce| > 128 {
        return Err(Authentication), None, None;
      }
      var replay := ReplayedReconnect(request);
      if replay.Some? {
        return Ok(replay.value), None, None;
      }
      var member := Membership(request.credential, true);
      if member.Err? {
        return Err(member.error), None, None;
      }
      if !Accepts(host, member.value.admission, request.digest) {
        return Err(Compatibility), None, None;
      }
      if minted.None? || snapshot.None? {
        return Err(Unavailable), None, None;
      }
      var outcome := RotateReconnectCredential(request, minted.value, member.value, snapshot.value);
      match outcome
      case Rotated(rotated, principal) =>
        return Ok(rotated), Some(principal), Some((request.credential, request.nonce));
      case Replayed(replayed) => return Ok(replayed), None, None;
      case Rejected => return Err(Authentication), None, None;
    }

    // ---- Traffic ----

    /** Authenticates a connected membership and debits one request. */
    method Consume(credential: Credential, refresh: bool, now: real) returns (member: Result<Connection, Error>)
      modifies this
      ensures (Contents(), member) == Debit(old(Contents()), credential, refresh, now)
    {
      if credential !in connections || credential == "" || !connections[credential].connected {
        return Err(Authentication);
      }
      var copy := connections[credential];
      var bucket := if refresh then copy.refreshes else copy.commands;
      var time := now;
      if time < bucket.updated {
        time := bucket.updated;
      }
      var tokens := bucket.tokens + Gain(time - bucket.updated, bucket.rate);
      if bucket.capacity < tokens {
        tokens := bucket.capacity;
      }
      bucket := bucket.(tokens := tokens, updated := time);
      if tokens < 1.0 {
        return Err(RateLimit);
      }
      bucket := bucket.(tokens := tokens - 1.0);
      copy := if refresh then copy.(refreshes := bucket) else copy.(commands := bucket);
      connections := connections[credential := copy];
      return Ok(copy);
    }

    method BeginWatch(credential: Credential) returns (error: Option<Error>)
      modifies this
      ensures (Contents(), error) == StartWatch(old(Contents()), credential)
    {
      if credential !in connections || credential == "" || !connections[credential].connected {
        return Some(Authentication);
      }
      if credential in watches {
        return Some(RateLimit);
      }
      watches := watches + {credential};
      return None;
    }

    method EndWatch(credential: Credential)
      modifies this
      ensures Contents() == StopWatch(old(Contents()), credential)
    {
      watches := watches - {credential};
    }
  }
}
