/** The state a game-server endpoint keeps under its mutex, and the effect of each critical section on it.

    A method of the endpoint that releases the mutex between two steps is several functions here, one per
    critical section: these are the atomic steps that may interleave. */
module Membership {
  import opened Wrappers

  type Credential = string
  type Nonce = string

  const COMMAND_BURST := 64.0
  const COMMAND_RATE := 32.0
  const REFRESH_BURST := 4.0
  const REFRESH_RATE := 2.0

  /** The identity that authentication established. */
  datatype Principal = Principal(id: string, characterId: string, playerId: string)

  /** The runtime token handed out on admission. */
  datatype Admission = Admission(sessionId: string, identityHash: string, characterId: string)

  /** The runtime an endpoint hosts: the facts a reconnecting client must match. */
  datatype Allocation = Allocation(sessionId: string, identityHash: string)

  /** A projected correction; how it is computed is opaque. */
  datatype Snapshot = Snapshot(tick: nat, checksum: string, payload: string)

  datatype JoinResponse = JoinResponse(credential: Credential, admission: Admission, snapshot: Snapshot)

  /** A reconnect request. The client's runtime identity appears as its digest, None when it has none. */
  datatype ReconnectRequest = ReconnectRequest(credential: Credential, digest: Option<string>, nonce: Nonce)

  datatype TokenBucket = TokenBucket(tokens: real, capacity: real, rate: real, updated: real)

  datatype Connection = Connection(
    principal: Principal,
    admission: Admission,
    commands: TokenBucket,
    refreshes: TokenBucket,
    connected: bool,
    disconnectGeneration: nat)

  datatype Replay = Replay(nonce: Nonce, response: JoinResponse)

  datatype State = State(
    connections: map<Credential, Connection>,
    watches: set<Credential>,
    reconnects: map<Credential, Replay>)

  datatype Error = Authentication | Protocol | RateLimit | Compatibility | Unavailable

  const EMPTY := State(map[], {}, map[])

  /** True when a client with identity digest `digest` may resume a membership admitted with `token`. */
  predicate Accepts(host: Allocation, token: Admission, digest: Option<string>) {
    && digest == Some(host.identityHash)
    && token.sessionId == host.sessionId
    && token.identityHash == host.identityHash
    && token.characterId != ""
  }

  // ---- Token buckets ----

  function NewBucket(capacity: real, rate: real, now: real): TokenBucket {
    TokenBucket(capacity, capacity, rate, now)
  }

  function Min(a: real, b: real): real {
    if b < a then b else a
  }

  /** The time an attempt at `now` counts as: a clock that steps backwards stands still. */
  function Moment(bucket: TokenBucket, now: real): real {
    if now < bucket.updated then bucket.updated else now
  }

  function Gain(elapsed: real, rate: real): real {
    elapsed * rate
  }

  function Refilled(bucket: TokenBucket, time: real): real {
    Min(bucket.capacity, bucket.tokens + Gain(time - bucket.updated, bucket.rate))
  }

  /** The bucket after one attempt at time `now`, and whether the attempt was admitted. */
  function Take(bucket: TokenBucket, now: real): (TokenBucket, bool) {
    var time := Moment(bucket, now);
    var tokens := Refilled(bucket, time);
    if tokens < 1.0 then (bucket.(tokens := tokens, updated := time), false)
    else (bucket.(tokens := tokens - 1.0, updated := time), true)
  }

  // ---- Critical sections ----

  function NewConnection(principal: Principal, admission: Admission, now: real): Connection {
    Connection(
      principal,
      admission,
      NewBucket(COMMAND_BURST, COMMAND_RATE, now),
      NewBucket(REFRESH_BURST, REFRESH_RATE, now),
      true,
      0)
  }

  function Register(s: State, c: Credential, principal: Principal, admission: Admission, now: real): State {
    s.(connections := s.connections[c := NewConnection(principal, admission, now)])
  }

  function Rollback(s: State, c: Credential): State {
    s.(connections := s.connections - {c})
  }

  /** Disconnect: the membership keeps its slot, disconnected, under a new generation. */
  function Suspend(s: State, c: Credential): (State, Option<nat>) {
    if c !in s.connections || c == "" || !s.connections[c].connected then (s, None)
    else
      var member := s.connections[c];
      var generation := member.disconnectGeneration + 1;
      (s.(connections := s.connections[c := member.(connected := false, disconnectGeneration := generation)],
          watches := s.watches - {c}),
       Some(generation))
  }

  function Drop(s: State, c: Credential): State {
    s.(connections := s.connections - {c}, watches := s.watches - {c})
  }

  /** True when the expiry timer of generation `generation` still applies to `c`. */
  predicate Expires(s: State, c: Credential, generation: nat) {
    && c in s.connections
    && !s.connections[c].connected
    && s.connections[c].disconnectGeneration == generation
  }

  function Expire(s: State, c: Credential, generation: nat): (State, Option<Principal>) {
    if Expires(s, c, generation) then (Drop(s, c), Some(s.connections[c].principal)) else (s, None)
  }

  function Revoke(s: State, c: Credential): (State, Option<Principal>) {
    if c !in s.connections || c == "" then (s, None) else (Drop(s, c), Some(s.connections[c].principal))
  }

  /** First phase of Reconnect: an earlier rotation under the same nonce answers at once. */
  predicate ReplayHit(s: State, request: ReconnectRequest, host: Allocation) {
    && request.credential in s.reconnects
    && s.reconnects[request.credential].nonce == request.nonce
    && s.reconnects[request.credential].response.credential in s.connections
    && Accepts(host, s.connections[s.reconnects[request.credential].response.credential].admission, request.digest)
  }

  function ReplayLookup(s: State, request: ReconnectRequest, host: Allocation): (State, Option<JoinResponse>) {
    if !ReplayHit(s, request, host) then (s, None)
    else
      var response := s.reconnects[request.credential].response;
      var member := s.connections[response.credential].(connected := true);
      (s.(connections := s.connections[response.credential := member]), Some(response))
  }

  /** Second phase of Reconnect, and the admission check of every other request. */
  function Member(s: State, c: Credential, allowDisconnected: bool): Result<Connection, Error> {
    if c !in s.connections || c == "" || (!allowDisconnected && !s.connections[c].connected) then Err(Authentication)
    else Ok(s.connections[c])
  }

  datatype RotateOutcome =
    | Rotated(response: JoinResponse, principal: Principal)
    | Replayed(response: JoinResponse)
    | Rejected

  /** Last phase of Reconnect: moves the membership to `minted`, or answers from the replay table when another
      call rotated it first. */
  function Rotate(s: State, request: ReconnectRequest, minted: Credential, member: Connection, snapshot: Snapshot)
    : (State, RotateOutcome)
  {
    var from := request.credential;
    if from !in s.connections || s.connections[from].principal.id != member.principal.id then
      if from in s.reconnects && s.reconnects[from].nonce == request.nonce then
        (s, Replayed(s.reconnects[from].response))
      else
        (s, Rejected)
    else
      var current := s.connections[from].(connected := true);
      var response := JoinResponse(minted, current.admission, snapshot);
      (State(
         (s.connections - {from})[minted := current],
         s.watches - {from},
         s.reconnects[from := Replay(request.nonce, response)]),
       Rotated(response, current.principal))
  }

  function ExpireReplay(s: State, c: Credential, nonce: Nonce): State {
    if c in s.reconnects && s.reconnects[c].nonce == nonce then s.(reconnects := s.reconnects - {c}) else s
  }

  function StartWatch(s: State, c: Credential): (State, Option<Error>) {
    if c !in s.connections || c == "" || !s.connections[c].connected then (s, Some(Authentication))
    else if c in s.watches then (s, Some(RateLimit))
    else (s.(watches := s.watches + {c}), None)
  }

  function StopWatch(s: State, c: Credential): State {
    s.(watches := s.watches - {c})
  }

  function BucketOf(member: Connection, refresh: bool): TokenBucket {
    if refresh then member.refreshes else member.commands
  }

  function WithBucket(member: Connection, refresh: bool, bucket: TokenBucket): Connection {
    if refresh then member.(refreshes := bucket) else member.(commands := bucket)
  }

  /** True when a request on `c` at time `now` is admitted. */
  predicate Admits(s: State, c: Credential, refresh: bool, now: real) {
    && c in s.connections
    && c != ""
    && s.connections[c].connected
    && Take(BucketOf(s.connections[c], refresh), now).1
  }

  /** Debits one request. A refused request leaves even the bucket's clock untouched: the debit works on a copy
      that is stored only on success. */
  function Debit(s: State, c: Credential, refresh: bool, now: real): (State, Result<Connection, Error>) {
    if c !in s.connections || c == "" || !s.connections[c].connected then (s, Err(Authentication))
    else if !Admits(s, c, refresh, now) then (s, Err(RateLimit))
    else
      var member := s.connections[c];
      var debited := WithBucket(member, refresh, Take(BucketOf(member, refresh), now).0);
      (s.(connections := s.connections[c := debited]), Ok(debited))
  }

  // ---- Whole requests, uninterrupted ----

  const PROTOCOL_VERSION := 2

  predicate NonceInRange(nonce: Nonce) {
    32 <= |nonce| <= 128
  }

  /** Reconnect with no other call in between. `minted` and `snapshot` are None when drawing a credential or projecting
      a snapshot fails. */
  function ReconnectAlone(s: State, host: Allocation, request: ReconnectRequest, minted: Option<Credential>,
                          snapshot: Option<Snapshot>): (State, Result<JoinResponse, Error>)
  {
    if !NonceInRange(request.nonce) then (s, Err(Authentication))
    else if ReplayHit(s, request, host) then
      var (s', response) := ReplayLookup(s, request, host);
      (s', Ok(s.reconnects[request.credential].response))
    else
      match Member(s, request.credential, true)
      case Err(e) => (s, Err(e))
      case Ok(member) =>
        if !Accepts(host, member.admission, request.digest) then (s, Err(Compatibility))
        else if minted.None? || snapshot.None? then (s, Err(Unavailable))
        else
          var (s', outcome) := Rotate(s, request, minted.value, member, snapshot.value);
          match outcome
          case Rotated(response, _) => (s', Ok(response))
          case Replayed(response) => (s', Ok(response))
          case Rejected => (s', Err(Authentication))
  }

  /** Join with no other call in between: None stands for authentication, admission, credential drawing or snapshot
      projection that failed. */
  function JoinAlone(s: State, version: nat, principal: Option<Principal>, admission: Option<Admission>,
                     minted: Option<Credential>, now: real, snapshot: Option<Snapshot>)
    : (State, Result<JoinResponse, Error>)
  {
    if version != PROTOCOL_VERSION then (s, Err(Protocol))
    else if principal.None? then (s, Err(Authentication))
    else if admission.None? then (s, Err(Compatibility))
    else if minted.None? then (s, Err(Unavailable))
    else
      var joined := Register(s, minted.value, principal.value, admission.value, now);
      if snapshot.None? then (Rollback(joined, minted.value), Err(Unavailable))
      else (joined, Ok(JoinResponse(minted.value, admission.value, snapshot.value)))
  }

  /** A credential that no membership, watch or replay entry uses. */
  predicate Unused(s: State, c: Credential) {
    && c != ""
    && c !in s.connections && c !in s.watches && c !in s.reconnects
    && (forall d :: d in s.reconnects ==> s.reconnects[d].response.credential != c)
  }

  /** Asking again with the same credential and nonce, after a response that may have been lost, gets the same response
      and leaves exactly the same state. */
  lemma ReconnectIsIdempotent(s: State, host: Allocation, request: ReconnectRequest,
                              minted: Option<Credential>, snapshot: Option<Snapshot>,
                              minted': Option<Credential>, snapshot': Option<Snapshot>)
    requires minted.Some? ==> Unused(s, minted.value) && minted.value != request.credential
    requires ReconnectAlone(s, host, request, minted, snapshot).1.Ok?
    ensures
      var (after, answer) := ReconnectAlone(s, host, request, minted, snapshot);
      ReconnectAlone(after, host, request, minted', snapshot') == (after, answer)
  {
    var (after, answer) := ReconnectAlone(s, host, request, minted, snapshot);
    if ReplayHit(s, request, host) {
      assert ReplayHit(after, request, host);
      assert ReplayLookup(after, request, host).0.connections == after.connections;
    } else {
      var member := s.connections[request.credential];
      assert after.reconnects[request.credential] == Replay(request.nonce, answer.value);
      assert after.connections[minted.value].admission == member.admission;
      assert ReplayHit(after, request, host);
      assert ReplayLookup(after, request, host).0.connections == after.connections;
    }
  }

  /** A call that fetched the membership before another call rotated it twice is still answered from the replay table,
      with a credential that no longer names anything; asking afresh is refused. */
  lemma LateReplayIsStale(s: State, host: Allocation, request: ReconnectRequest, later: ReconnectRequest,
                          first: Credential, second: Credential, third: Credential, snapshot: Snapshot)
    requires request.credential in s.connections && later.credential == first
    requires Unused(s, first) && Unused(s, second) && first != second
    ensures
      var member := s.connections[request.credential];
      var (once, _) := Rotate(s, request, first, member, snapshot);
      first in once.connections &&
      var (twice, _) := Rotate(once, later, second, once.connections[first], snapshot);
      && first !in twice.connections
      && Rotate(twice, request, third, member, snapshot)
         == (twice, Replayed(JoinResponse(first, member.admission, snapshot)))
      && (forall minted, snapshot' ::
            ReconnectAlone(twice, host, request, minted, snapshot') == (twice, Err(Authentication)))
  {
    var member := s.connections[request.credential];
    var (once, _) := Rotate(s, request, first, member, snapshot);
    var (twice, _) := Rotate(once, later, second, once.connections[first], snapshot);
    assert twice.reconnects[request.credential] == once.reconnects[request.credential];
    assert request.credential !in twice.connections;
  }

  /** A join that fails leaves no trace. */
  lemma FailedJoinLeavesNoTrace(s: State, version: nat, principal: Option<Principal>, admission: Option<Admission>,
                                minted: Option<Credential>, now: real, snapshot: Option<Snapshot>)
    requires minted.Some? ==> Unused(s, minted.value)
    requires JoinAlone(s, version, principal, admission, minted, now, snapshot).1.Err?
    ensures JoinAlone(s, version, principal, admission, minted, now, snapshot).0 == s
  {
    if minted.Some? && principal.Some? && admission.Some? {
      var joined := Register(s, minted.value, principal.value, admission.value, now);
      assert joined.connections - {minted.value} == s.connections;
    }
  }
}
