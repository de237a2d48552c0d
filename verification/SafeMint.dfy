/** Minting through a Safe: the hash of a proposal is stored on the row before
    the proposal is made. Any number of workers may be started on the same queue;
    each of their database operations and service calls is one event, and a
    worker may die between any two of them. The hash of a transaction is that of
    its payment and the Safe's nonce, and the service keeps one proposal a hash. */
module SafeMint {
  import opened Wrappers
  import opened Environment

  datatype Status = Confirmed | Minting | Minted | Failed
  datatype SafeHash = SafeHash(row: nat, nonce: nat)
  datatype Row = Row(status: Status, safeTxHash: Option<SafeHash>)
  datatype Proposal = Proposal(row: nat, hash: SafeHash)

  /** Where a worker stands inside `signMint`. */
  datatype Pc =
    | Idle
    | Unclaimed(id: nat)             // read the row: no hash on file
    | Claimed(id: nat)               // claimed it
    | Prepared(id: nat, hash: SafeHash)  // built the transaction and its hash
    | Stored(id: nat, hash: SafeHash)    // stored the hash on the row

  datatype State = State(rows: seq<Row>, proposals: seq<Proposal>, workers: seq<Pc>, nonce: nat)

  datatype Event =
    | Begin(w: nat, id: nat)
    | Claim(w: nat)
    | Prepare(w: nat)
    | Store(w: nat)
    | Propose(w: nat)
    | Die(w: nat)
    | Settle(id: nat, status: Status)
    | Execute // some transaction of the Safe

  function Move(s: State, w: nat, pc: Pc): State
    requires w < |s.workers|
  {
    s.(workers := s.workers[w := pc])
  }

  /** `claimMint`: the filter also matches a row that is MINTING already. */
  predicate Claimable(row: Row) {
    (row.status.Confirmed? || row.status.Minting?) && row.safeTxHash.None?
  }

  /** An event whose guard does not hold leaves the state as it is. */
  function Step(s: State, e: Event): State {
    match e
    case Begin(w, id) =>
      if w < |s.workers| && s.workers[w].Idle? && id < |s.rows| && s.rows[id].safeTxHash.None?
         && !s.rows[id].status.Minted? && !s.rows[id].status.Failed?
      then Move(s, w, Unclaimed(id)) else s
    case Claim(w) =>
      if w < |s.workers| && s.workers[w].Unclaimed? && s.workers[w].id < |s.rows| then
        var id := s.workers[w].id;
        if Claimable(s.rows[id]) then
          Move(s, w, Claimed(id)).(rows := s.rows[id := s.rows[id].(status := Minting)])
        else Move(s, w, Idle)
      else s
    case Prepare(w) =>
      if w < |s.workers| && s.workers[w].Claimed? then
        var id := s.workers[w].id;
        Move(s, w, Prepared(id, SafeHash(id, s.nonce)))
      else s
    case Store(w) =>
      if w < |s.workers| && s.workers[w].Prepared? && s.workers[w].id < |s.rows| then
        var id, hash := s.workers[w].id, s.workers[w].hash;
        Move(s, w, Stored(id, hash)).(rows := s.rows[id := s.rows[id].(safeTxHash := Some(hash))])
      else s
    case Propose(w) =>
      if w < |s.workers| && s.workers[w].Stored? then
        var p := Proposal(s.workers[w].id, s.workers[w].hash);
        Move(s, w, Idle).(proposals := if p in s.proposals then s.proposals else s.proposals + [p])
      else s
    case Die(w) => if w < |s.workers| then Move(s, w, Idle) else s
    case Settle(id, status) =>
      if id < |s.rows| && s.rows[id].status.Minting? && (status.Minted? || status.Failed?) then
        s.(rows := s.rows[id := s.rows[id].(status := status)])
      else s
    case Execute => s.(nonce := s.nonce + 1)
  }

  function Run(s: State, events: seq<Event>): State {
    if events == [] then s
    else Step(Run(s, events[..|events| - 1]), events[|events| - 1])
  }

  predicate Initial(s: State) {
    && s.proposals == []
    && (forall i :: 0 <= i < |s.rows| ==> s.rows[i].safeTxHash.None?)
    && (forall w :: 0 <= w < |s.workers| ==> s.workers[w].Idle?)
  }

  /** No row was proposed twice. */
  predicate ProposedOnce(s: State) {
    forall i, j :: 0 <= i < j < |s.proposals| ==> s.proposals[i].row != s.proposals[j].row
  }

  // ---- one worker ----------------------------------------------------------

  predicate Proposed(s: State, id: nat) {
    exists p :: p in s.proposals && p.row == id
  }

  /** What holds of the row a worker stands at. */
  predicate WorkerOk(s: State, pc: Pc) {
    match pc
    case Idle => true
    case Unclaimed(id) => id < |s.rows| && !Proposed(s, id) && s.rows[id].safeTxHash.None?
    case Claimed(id) =>
      id < |s.rows| && !Proposed(s, id) && s.rows[id].safeTxHash.None? && !s.rows[id].status.Confirmed?
    case Prepared(id, hash) =>
      id < |s.rows| && !Proposed(s, id) && s.rows[id].safeTxHash.None? && !s.rows[id].status.Confirmed?
    case Stored(id, hash) => id < |s.rows| && !Proposed(s, id) && s.rows[id].safeTxHash == Some(hash)
  }

  /** Every proposal's hash is on file at its row, no row has two, and a row with a
      hash has left CONFIRMED. */
  predicate SafeInv(s: State) {
    && |s.workers| <= 1
    && (forall i :: 0 <= i < |s.rows| && s.rows[i].safeTxHash.Some? ==> !s.rows[i].status.Confirmed?)
    && ProposedOnce(s)
    && (forall p :: p in s.proposals ==> p.row < |s.rows| && s.rows[p.row].safeTxHash == Some(p.hash))
    && (forall w :: 0 <= w < |s.workers| ==> WorkerOk(s, s.workers[w]))
  }

  /** A hash on file stays what it is. */
  predicate HashesStay(s: State, s': State) {
    |s'.rows| == |s.rows|
    && forall i :: 0 <= i < |s.rows| && s.rows[i].safeTxHash.Some? ==> s'.rows[i].safeTxHash == s.rows[i].safeTxHash
  }

  lemma SafeInvStep(s: State, e: Event)
    requires SafeInv(s)
    ensures SafeInv(Step(s, e)) && HashesStay(s, Step(s, e))
  {
    if e.Propose? { ProposingKeepsSafeInv(s, e); } else { OthersKeepSafeInv(s, e); }
  }

  lemma ProposingKeepsSafeInv(s: State, e: Event)
    requires SafeInv(s) && e.Propose?
    ensures SafeInv(Step(s, e)) && HashesStay(s, Step(s, e))
  {
    if e.w < |s.workers| && s.workers[e.w].Stored? {
      var id, hash := s.workers[e.w].id, s.workers[e.w].hash;
      assert WorkerOk(s, s.workers[e.w]);
      assert forall p :: p in s.proposals ==> p.row != id;
      assert Step(s, e) == s.(workers := [Idle], proposals := s.proposals + [Proposal(id, hash)]);
    } else {
      assert Step(s, e) == s;
    }
  }

  lemma OthersKeepSafeInv(s: State, e: Event)
    requires SafeInv(s) && !e.Propose?
    ensures SafeInv(Step(s, e)) && HashesStay(s, Step(s, e))
  {
    var s' := Step(s, e);
    assert s'.proposals == s.proposals;
    assert forall w :: 0 <= w < |s.workers| ==> WorkerOk(s, s.workers[w]);
    assert forall id :: Proposed(s', id) <==> Proposed(s, id);
  }

  lemma {:induction false} SafeInvRun(s: State, events: seq<Event>)
    requires SafeInv(s)
    ensures SafeInv(Run(s, events)) && HashesStay(s, Run(s, events))
  {
    if events != [] {
      var front := events[..|events| - 1];
      SafeInvRun(s, front);
      SafeInvStep(Run(s, front), events[|events| - 1]);
      HashesStayOn(s, Run(s, front), Run(s, events));
    }
  }

  lemma HashesStayOn(s: State, t: State, u: State)
    requires HashesStay(s, t) && HashesStay(t, u)
    ensures HashesStay(s, u)
  {
  }

  // ---- any number of workers, and a nonce that does not move -------------------

  predicate NonceStays(events: seq<Event>) {
    forall k :: 0 <= k < |events| ==> !events[k].Execute?
  }

  /** Every hash about is that of its row at this nonce, and no proposal is there
      twice. */
  predicate SameNonceInv(s: State) {
    && (forall w :: 0 <= w < |s.workers| ==> HashFits(s.workers[w], s.nonce))
    && (forall p :: p in s.proposals ==> p.hash == SafeHash(p.row, s.nonce))
    && (forall i, j :: 0 <= i < j < |s.proposals| ==> s.proposals[i] != s.proposals[j])
  }

  predicate HashFits(pc: Pc, nonce: nat) {
    match pc
    case Prepared(id, hash) => hash == SafeHash(id, nonce)
    case Stored(id, hash) => hash == SafeHash(id, nonce)
    case _ => true
  }

  lemma SameNonceStep(s: State, e: Event)
    requires SameNonceInv(s) && !e.Execute?
    ensures SameNonceInv(Step(s, e))
  {
    var s' := Step(s, e);
    forall w | 0 <= w < |s'.workers|
      ensures HashFits(s'.workers[w], s'.nonce)
    {
      assert HashFits(s.workers[w], s.nonce);
    }
  }

  lemma {:induction false} SameNonceRun(s: State, events: seq<Event>)
    requires SameNonceInv(s) && NonceStays(events)
    ensures SameNonceInv(Run(s, events))
  {
    if events != [] {
      SameNonceRun(s, events[..|events| - 1]);
      SameNonceStep(Run(s, events[..|events| - 1]), events[|events| - 1]);
    }
  }

  /** The proposals differ, and each has the hash of its row, so the rows differ. */
  lemma SameNonceOnce(s: State)
    requires SameNonceInv(s)
    ensures ProposedOnce(s)
  {
    forall i, j | 0 <= i < j < |s.proposals|
      ensures s.proposals[i].row != s.proposals[j].row
    {
      assert s.proposals[i] in s.proposals && s.proposals[j] in s.proposals;
    }
  }

  // ---- two workers ---------------------------------------------------------

  /** A worker reads and claims row 0. */
  lemma Claims(s: State, events: seq<Event>, u: State, w: nat) returns (more: seq<Event>, u': State)
    requires Run(s, events) == u && |u.rows| > 0 && Claimable(u.rows[0])
    requires w < |u.workers| && u.workers[w].Idle?
    ensures Run(s, more) == u' && |u'.rows| > 0 && Claimable(u'.rows[0])
    ensures u'.workers == u.workers[w := Claimed(0)] && u'.proposals == u.proposals && u'.nonce == u.nonce
  {
    more := Then(s, events, u, Begin(w, 0));
    u' := Step(u, Begin(w, 0));
    more := Then(s, more, u', Claim(w));
    u' := Step(u', Claim(w));
  }

  /** A worker that claimed row 0 goes on to the proposal, at the nonce it finds. */
  lemma Proposes(s: State, events: seq<Event>, u: State, w: nat) returns (more: seq<Event>, u': State)
    requires Run(s, events) == u && |u.rows| > 0 && w < |u.workers| && u.workers[w] == Claimed(0)
    requires Proposal(0, SafeHash(0, u.nonce)) !in u.proposals
    ensures Run(s, more) == u' && |u'.rows| > 0 && u'.nonce == u.nonce
    ensures u'.workers == u.workers[w := Idle] && u'.proposals == u.proposals + [Proposal(0, SafeHash(0, u.nonce))]
  {
    more := Then(s, events, u, Prepare(w));
    u' := Step(u, Prepare(w));
    more := Then(s, more, u', Store(w));
    u' := Step(u', Store(w));
    more := Then(s, more, u', Propose(w));
    u' := Step(u', Propose(w));
  }

  /** Two that claimed it propose at two nonces, if the Safe executes in between. */
  lemma BothPropose(s: State, events: seq<Event>, u: State) returns (more: seq<Event>)
    requires Run(s, events) == u && |u.rows| > 0 && |u.workers| >= 2 && u.proposals == []
    requires u.workers[0] == Claimed(0) && u.workers[1] == Claimed(0)
    ensures !ProposedOnce(Run(s, more))
  {
    var v;
    more, v := Proposes(s, events, u, 0);
    more := Then(s, more, v, Execute);
    more, v := Proposes(s, more, Step(v, Execute), 1);
    assert v.proposals[0].row == v.proposals[1].row;
  }

  /** Two workers on one confirmed row: both claims match, and if the Safe executes
      a transaction between their preparations they propose two hashes. */
  lemma TwoWorkersProposeTwice(n: nat) returns (s: State, events: seq<Event>)
    requires n >= 2
    ensures Initial(s) && |s.workers| == n && !ProposedOnce(Run(s, events))
  {
    s := State([Row(Confirmed, None)], [], seq(n, i => Idle), 0);
    var u;
    events, u := Claims(s, [], s, 0);
    events, u := Claims(s, events, u, 1);
    events := BothPropose(s, events, u);
  }

  lemma Then(s: State, events: seq<Event>, reached: State, e: Event) returns (more: seq<Event>)
    requires Run(s, events) == reached
    ensures more == events + [e] && Run(s, more) == Step(reached, e)
  {
    more := events + [e];
    assert more[..|events|] == events;
  }

  /** In every run no row is proposed twice. */
  ghost predicate AlwaysOnce(n: nat, nonceMoves: bool) {
    forall s, events :: Initial(s) && |s.workers| == n && Allowed(nonceMoves, events) ==> ProposedOnce(Run(s, events))
  }

  predicate Allowed(nonceMoves: bool, events: seq<Event>) {
    nonceMoves || NonceStays(events)
  }

  /** Crashes anywhere allow no second proposal, with no exempt window, exactly
      when the queue has one worker or the Safe's nonce never moves: the claim is
      not what excludes a second. */
  lemma ProposedOnceIff(n: nat, nonceMoves: bool)
    ensures AlwaysOnce(n, nonceMoves) <==> n <= 1 || !nonceMoves
  {
    if n <= 1 {
      forall s, events | Initial(s) && |s.workers| == n && Allowed(nonceMoves, events)
        ensures ProposedOnce(Run(s, events))
      {
        SafeInvRun(s, events);
      }
    } else if !nonceMoves {
      forall s, events | Initial(s) && |s.workers| == n && Allowed(nonceMoves, events)
        ensures ProposedOnce(Run(s, events))
      {
        SameNonceRun(s, events);
        SameNonceOnce(Run(s, events));
      }
    } else {
      var s, events := TwoWorkersProposeTwice(n);
      assert Allowed(nonceMoves, events);
    }
  }

  // ---- the worker's own code -----------------------------------------------

  /** The run went on without a claim. */
  predicate NoClaimBetween(events: seq<Event>, later: seq<Event>) {
    events <= later && forall n :: |events| <= n < |later| ==> !later[n].Claim?
  }

  /** The row is CONFIRMED or MINTING and has no hash. */
  predicate CanBeClaimed(row: Row) {
    row.safeTxHash.None? && (row.status == Confirmed || row.status == Minting)
  }

  /** This event claimed a row that was not in a state to be claimed. */
  predicate FailedClaim(start: State, events: seq<Event>, n: nat, id: nat)
    requires n < |events|
  {
    events[n] == Claim(0) && Unclaimable(Run(start, events[..n]), id)
  }

  predicate Unclaimable(s: State, id: nat) {
    id < |s.rows| && !CanBeClaimed(s.rows[id])
  }

  method AnyStatus() returns (status: Status) { status := *; }

  /** The rows, the Safe service and the single worker. */
  class Store {
    ghost const start: State
    ghost var events: seq<Event>
    var world: State

    ghost predicate Valid()
      reads this
    {
      Initial(start) && |start.workers| == 1 && world == Run(start, events) && |world.workers| == 1
    }

    constructor (rows: seq<Row>, nonce: nat)
      requires forall i :: 0 <= i < |rows| ==> rows[i].safeTxHash.None?
      ensures Valid() && world == State(rows, [], [Idle], nonce)
    {
      world, start, events := State(rows, [], [Idle], nonce), State(rows, [], [Idle], nonce), [];
    }

    lemma Facts()
      requires Valid()
      ensures SafeInv(world)
    {
      SafeInvRun(start, events);
    }

    /** One operation of anyone. */
    method Do(e: Event)
      requires Valid()
      modifies this
      ensures Valid() && world == Step(old(world), e) && events == old(events) + [e]
    {
      ghost var before := world;
      world := Step(world, e);
      events := Then(start, events, before, e);
    }

    /** A claim was made since, of a row that was not in a state to be claimed: it had
        been settled. */
    ghost predicate ClaimFailedSince(from: nat, id: nat)
      reads this
    {
      exists n :: from <= n < |events| && FailedClaim(start, events, n, id)
    }

    /** The Safe's own reconciler settles any rows, and the Safe executes. */
    method Others(id: nat)
      requires Valid() && id < |world.rows|
      modifies this
      ensures Valid() && world.workers == old(world).workers && world.proposals == old(world).proposals
      ensures |world.rows| == |old(world).rows| && world.rows[id].safeTxHash == old(world).rows[id].safeTxHash
      ensures NoClaimBetween(old(events), events)
    {
      var n := AnyCount();
      while n > 0
        invariant NoClaimBetween(old(events), events)
        invariant Valid() && world.workers == old(world).workers && world.proposals == old(world).proposals
        invariant |world.rows| == |old(world).rows| && world.rows[id].safeTxHash == old(world).rows[id].safeTxHash
      {
        var row := AnyCount();
        var status := AnyStatus();
        var reply := AnyReply();
        Do(if reply == Yes then Settle(row, status) else Execute);
        n := n - 1;
      }
    }

    /** The transaction is built, and its hash stored on the row. */
    method StoreHash(env: Env, id: nat) returns (hash: Option<SafeHash>)
      requires Valid() && world.workers == [Claimed(id)] && id < |world.rows| && world.rows[id].safeTxHash.None?
      modifies this, env
      ensures Valid() && id < |world.rows| && world.proposals == old(world).proposals
      ensures hash.None? ==> world.workers == [Idle]
      ensures hash.Some? ==>
        && world.workers == [Stored(id, hash.value)] && world.rows[id].safeTxHash == hash && hash.value.row == id
      ensures NoClaimBetween(old(events), events)
      ensures env.setbacks == old(env.setbacks) + (if hash.Some? then 0 else 1)
    {
      Do(Prepare(0));
      var built := world.workers[0].hash;
      Others(id);
      var dies := env.Dies();
      if dies {
        Do(Die(0));
        return None;
      }
      Do(Store(0));
      Others(id);
      hash := Some(built);
    }

    /** `signSafeProposal`, the fresh path: the hash is stored, then proposed. */
    method StoreAndPropose(env: Env, id: nat) returns (r: JobResult, proposed: Option<SafeHash>)
      requires Valid() && world.workers == [Claimed(id)] && id < |world.rows| && world.rows[id].safeTxHash.None?
      modifies this, env
      ensures Valid() && world.workers == [Idle] && id < |world.rows|
      ensures r.Done? ==> proposed.Some?
      ensures proposed.Some? ==> world.rows[id].safeTxHash == proposed && proposed.value.row == id
      ensures world.proposals == old(world).proposals + Proposals(id, proposed)
      ensures NoClaimBetween(old(events), events)
      ensures old(env.setbacks) <= env.setbacks && (r.Threw? ==> env.setbacks > old(env.setbacks))
      ensures r.Done? || r.Threw?
    {
      var hash := StoreHash(env, id);
      if hash.None? { return Threw, None; }
      var dies := env.Dies();
      if dies {
        Do(Die(0));
        return Threw, None;
      }
      Facts();
      assert WorkerOk(world, world.workers[0]);
      Do(Propose(0));
      // the answer may be lost, or the alert or the audit entry may fail
      dies := env.Dies();
      return if dies then Threw else Done, hash;
    }

    function Proposals(id: nat, proposed: Option<SafeHash>): seq<Proposal> {
      if proposed.Some? then [Proposal(id, proposed.value)] else []
    }

    /** The steps from the claim to the proposal: skipped exactly when the claim fails. */
    method ClaimAndPropose(env: Env, id: nat) returns (r: JobResult, proposed: Option<SafeHash>)
      requires Valid() && world.workers == [Unclaimed(id)] && id < |world.rows| && world.rows[id].safeTxHash.None?
      modifies this, env
      ensures Valid() && world.workers == [Idle] && id < |world.rows|
      ensures r.Done? ==> proposed.Some?
      ensures proposed.Some? ==> world.rows[id].safeTxHash == proposed && proposed.value.row == id
      ensures world.proposals == old(world).proposals + Proposals(id, proposed)
      ensures r.Skipped? <==> !CanBeClaimed(old(world).rows[id])
      ensures NoClaimBetween(old(events) + [Claim(0)], events)
      ensures old(env.setbacks) <= env.setbacks && (r.Threw? ==> env.setbacks > old(env.setbacks)) && !r.NonRetryable?
    {
      Do(Claim(0));
      if world.workers[0].Idle? { return Skipped, None; }
      Others(id);
      var dies := env.Dies();
      if dies { Do(Die(0)); return Threw, None; }
      r, proposed := StoreAndPropose(env, id);
    }

    /** The job is skipped exactly when the claim it made failed. */
    lemma SkippedIffClaimFailed(before: seq<Event>, at: State, id: nat)
      requires NoClaimBetween(before + [Claim(0)], events) && Run(start, before) == at
      ensures ClaimFailedSince(|before|, id) <==> Unclaimable(at, id)
    {
      var n := |before|;
      assert events[..n] == before && events[n] == Claim(0);
      assert FailedClaim(start, events, n, id) <==> Unclaimable(at, id);
    }

    /** `signMint` with `signSafeProposal`. A row with a hash on file is only
        looked up, and the lookup failing is an error, not a second proposal. A row
        without one is skipped exactly when it was MINTED, or was settled before the
        claim; otherwise only a setback keeps it from being proposed. */
    method SignMint(env: Env, id: nat) returns (r: JobResult, proposed: Option<SafeHash>)
      requires Valid() && world.workers == [Idle] && id < |world.rows|
      modifies this, env
      ensures Valid() && world.workers == [Idle] && ProposedOnce(world) && id < |world.rows|
      ensures old(world).rows[id].safeTxHash.Some? ==>
        && world.proposals == old(world).proposals
        && world.rows[id].safeTxHash == old(world).rows[id].safeTxHash
      ensures world.proposals == old(world).proposals + Proposals(id, proposed)
      ensures r.NonRetryable? <==> old(world).rows[id].status.Failed?
      ensures var row := old(world).rows[id];
        r.Skipped? <==>
          row.status.Minted?
          || (row.safeTxHash.None? && !row.status.Failed? && ClaimFailedSince(|old(events)|, id))
      ensures r.Done? ==>
        && world.rows[id].safeTxHash.Some?
        && Proposal(id, world.rows[id].safeTxHash.value) in world.proposals
      ensures r.Done? && old(world).rows[id].safeTxHash.None? ==> proposed.Some?
      ensures world.rows[id].safeTxHash.Some? ==> !world.rows[id].status.Confirmed?
      ensures r.Threw? ==>
        env.setbacks > old(env.setbacks)
        || (old(world).rows[id].safeTxHash.Some? && Proposal(id, world.rows[id].safeTxHash.value) !in world.proposals)
    {
      Facts();
      var row := world.rows[id];
      proposed := None;
      if row.status.Minted? { return Skipped, proposed; }
      if row.status.Failed? { return NonRetryable, proposed; }
      if row.safeTxHash.None? {
        r, proposed := Fresh(env, id);
      } else {
        Others(id);
        var lost := env.Dies();
        var found := !lost && Proposal(id, row.safeTxHash.value) in world.proposals;
        r := if found then Done else Threw;
      }
      Facts();
    }

    /** A row that was read without a hash: what may happen meanwhile, then the claim. */
    method Fresh(env: Env, id: nat) returns (r: JobResult, proposed: Option<SafeHash>)
      requires Valid() && world.workers == [Idle] && id < |world.rows| && world.rows[id].safeTxHash.None?
      requires !world.rows[id].status.Minted? && !world.rows[id].status.Failed?
      modifies this, env
      ensures Valid() && world.workers == [Idle] && id < |world.rows|
      ensures r.Done? ==> proposed.Some?
      ensures proposed.Some? ==> world.rows[id].safeTxHash == proposed && proposed.value.row == id
      ensures world.proposals == old(world).proposals + Proposals(id, proposed)
      ensures r.Skipped? <==> ClaimFailedSince(|old(events)|, id)
      ensures old(env.setbacks) <= env.setbacks && (r.Threw? ==> env.setbacks > old(env.setbacks)) && !r.NonRetryable?
    {
      Do(Begin(0, id));
      Others(id);
      ghost var before, at := events, world;
      r, proposed := ClaimAndPropose(env, id);
      SkippedIffClaimFailed(before, at, id);
      assert forall n :: |old(events)| <= n < |before| ==> !events[n].Claim?;
    }
  }
}
