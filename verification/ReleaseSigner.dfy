/** The release worker: one job at a time from the release queue, any failure or
    crash at any call, every other actor in between. */
module ReleaseSigner {
  import opened Wrappers
  import opened Rows
  import opened Protocol
  import opened Interference
  import opened BridgeDb
  import opened Environment

  /** What one job may have done to the sends and to its own row. */
  predicate ReleaseDone(job: ReleaseJob, s: State, s': State) {
    var id := job.withdrawalId;
    && id < |s.withdrawals| <= |s'.withdrawals|
    && (s'.sends == s.sends || SentOnce(job, s, s'))
    && (s.withdrawals[id].fairTx.Some? ==> s'.sends == s.sends)
    && (s'.withdrawals[id].status.Failed? ==> s'.sends == s.sends)
  }

  /** One send of the job's amount to the job's destination, made while no txid
      was on file, and lost exactly if it is not on file now. */
  predicate SentOnce(job: ReleaseJob, s: State, s': State)
    requires job.withdrawalId < |s.withdrawals| <= |s'.withdrawals|
  {
    var id := job.withdrawalId;
    && s.withdrawals[id].Unsent()
    && s'.sends == s.sends + [Send(id, job.destination, job.sats, s'.withdrawals[id].fairTx.None?)]
    && (s'.withdrawals[id].fairTx.Some? ==> s'.withdrawals[id].fairTx.value == |s.sends|)
  }

  /** Everything below keeps this between the job's start and its current state. */
  ghost predicate Working(db: Bridge, job: ReleaseJob, s: State)
    reads db
  {
    db.Valid() && db.world.heldSend.None? && job in db.world.releaseJobs && ReleaseDone(job, s, db.world)
  }

  /** `signNodeWallet` with a txid on file: the node is asked, nothing is sent. */
  method ReconcileSend(db: Bridge, env: Env, job: ReleaseJob, ghost s: State) returns (r: JobResult)
    requires Working(db, job, s) && db.world.sends == s.sends
    requires db.world.withdrawals[job.withdrawalId].status.Signing?
    requires db.world.withdrawals[job.withdrawalId].fairTx.Some?
    modifies db, env
    ensures Working(db, job, s)
    ensures db.world.sends == old(db.world).sends && (r.Done? ==> env.said == Yes)
    ensures (r.Done? || r.Threw?) && !db.world.withdrawals[job.withdrawalId].status.Failed?
    ensures r.Done? ==> db.world.withdrawals[job.withdrawalId].status.Broadcast?
    ensures old(env.setbacks) <= env.setbacks && (r.Threw? ==> env.setbacks > old(env.setbacks))
  {
    var found := env.Ask();
    db.Others(Release);
    if found != Yes { return Threw; }
    db.MarkBroadcast(job.withdrawalId);
    return Done;
  }

  /** The send and the write of its txid. */
  method SendAndFile(db: Bridge, env: Env, job: ReleaseJob, ghost s: State) returns (filed: bool)
    requires Working(db, job, s) && db.world.sends == s.sends
    requires db.world.withdrawals[job.withdrawalId].status.Signing?
    requires db.world.withdrawals[job.withdrawalId].fairTx.None? && s.withdrawals[job.withdrawalId].Unsent()
    modifies db, env
    ensures Working(db, job, s) && db.world.withdrawals[job.withdrawalId].status.Signing?
    ensures filed ==> db.world.withdrawals[job.withdrawalId].fairTx.Some?
    ensures old(env.setbacks) <= env.setbacks && (!filed ==> env.setbacks > old(env.setbacks))
  {
    var dies := env.Dies();
    if dies { return false; }
    var txid := db.SendToAddress(job);
    db.Others(Release);
    dies := env.Dies();
    if dies {
      db.LoseFairTxid();
      return false;
    }
    db.PersistFairTxid(job.withdrawalId, txid);
    return true;
  }

  /** `signNodeWallet` without one: send, write the txid, then the status. */
  method BroadcastSend(db: Bridge, env: Env, job: ReleaseJob, ghost s: State) returns (r: JobResult)
    requires Working(db, job, s) && db.world.sends == s.sends
    requires db.world.withdrawals[job.withdrawalId].status.Signing?
    requires db.world.withdrawals[job.withdrawalId].fairTx.None? && s.withdrawals[job.withdrawalId].Unsent()
    modifies db, env
    ensures Working(db, job, s)
    ensures (r.Done? || r.Threw?) && !db.world.withdrawals[job.withdrawalId].status.Failed?
    ensures r.Done? ==> db.world.withdrawals[job.withdrawalId].status.Broadcast?
    ensures old(env.setbacks) <= env.setbacks && (r.Threw? ==> env.setbacks > old(env.setbacks))
  {
    var filed := SendAndFile(db, env, job, s);
    if !filed { return Threw; }
    db.Others(Release);
    var dies := env.Dies();
    if dies { return Threw; }
    db.MarkBroadcast(job.withdrawalId);
    return Done;
  }

  /** The validation and the claim of a row without a txid; `None` when it is claimed. */
  method ClaimSend(db: Bridge, env: Env, job: ReleaseJob, ghost s: State) returns (end: Option<JobResult>)
    requires Working(db, job, s) && db.world.sends == s.sends
    requires db.world.withdrawals[job.withdrawalId].Unsent() && s.withdrawals[job.withdrawalId].Unsent()
    modifies db, env
    ensures Working(db, job, s) && db.world.sends == s.sends && db.world.withdrawals[job.withdrawalId].fairTx.None?
    ensures end.None? ==> db.world.withdrawals[job.withdrawalId].status.Signing? && env.isValid(job.destination)
    ensures end.Some? ==>
      || (end.value.NonRetryable? && !env.isValid(job.destination)
          && db.world.withdrawals[job.withdrawalId].status.Failed?)
      || (end.value.Threw? && env.setbacks > old(env.setbacks) && db.world.withdrawals[job.withdrawalId].Unsent())
    ensures old(env.setbacks) <= env.setbacks
  {
    var valid := env.ValidateAddress(job.destination);
    db.Others(Release);
    if valid.None? { return Some(Threw); }
    if !valid.value {
      db.FailRelease(job.withdrawalId);
      return Some(NonRetryable);
    }
    var _ := db.ClaimRelease(job.withdrawalId);
    db.Others(Release);
    end := None;
  }

  /** The send or the lookup, and what is left to do after it. */
  method SendOrReconcile(db: Bridge, env: Env, job: ReleaseJob, ghost s: State) returns (r: JobResult)
    requires Working(db, job, s) && db.world.sends == s.sends && db.world.withdrawals[job.withdrawalId].status.Signing?
    requires db.world.withdrawals[job.withdrawalId].fairTx.None? ==> s.withdrawals[job.withdrawalId].Unsent()
    modifies db, env
    ensures Working(db, job, s)
    ensures (r.Done? || r.Threw?) && !db.world.withdrawals[job.withdrawalId].status.Failed?
    ensures r.Done? ==> db.world.withdrawals[job.withdrawalId].status.Broadcast?
    ensures old(db.world).withdrawals[job.withdrawalId].fairTx.Some? ==>
      db.world.sends == old(db.world).sends && (r.Done? ==> env.said == Yes)
    ensures old(env.setbacks) <= env.setbacks && (r.Threw? ==> env.setbacks > old(env.setbacks))
  {
    if db.world.withdrawals[job.withdrawalId].fairTx.Some? {
      r := ReconcileSend(db, env, job, s);
    } else {
      r := BroadcastSend(db, env, job, s);
    }
    db.Others(Release);
    // the audit entry and the link to a buy order write no row of this model
    var dies := env.Dies();
    if r.Done? && dies { r := Threw; }
  }

  /** `signRelease`. A row with a txid on file is never sent again; a row without
      one is sent at most once by this job, and never to a destination the node calls
      invalid; DONE means the row is BROADCAST; a row is failed only for such a
      destination; another wallet mode leaves everything as it is; a job that throws
      had a setback. */
  method SignRelease(db: Bridge, env: Env, job: ReleaseJob, nodeWallet: bool) returns (r: JobResult)
    requires db.Valid() && db.world.heldSend.None? && job in db.world.releaseJobs
    modifies db, env
    ensures db.Valid() && db.world.heldSend.None?
    ensures ReleaseDone(job, old(db.world), db.world)
    ensures r.Done? ==> db.world.withdrawals[job.withdrawalId].status.Broadcast?
    ensures r.Skipped? <==>
      var w := old(db.world).withdrawals[job.withdrawalId]; w.status.Broadcast? || w.status.Final?
    ensures r.Skipped? ==> db.world.withdrawals[job.withdrawalId] == old(db.world).withdrawals[job.withdrawalId]
    ensures r.NonRetryable? ==> db.world.sends == old(db.world).sends
    ensures old(db.world).withdrawals[job.withdrawalId].status.Failed? ==> r.NonRetryable?
    ensures r.NonRetryable? ==>
      !nodeWallet || old(db.world).withdrawals[job.withdrawalId].status.Failed? || !env.isValid(job.destination)
    ensures db.world.withdrawals[job.withdrawalId].status.Failed? ==>
      old(db.world).withdrawals[job.withdrawalId].status.Failed? || !env.isValid(job.destination)
    ensures r.NonRetryable? && nodeWallet ==> db.world.withdrawals[job.withdrawalId].status.Failed?
    ensures !nodeWallet ==>
      && (r.Skipped? || r.NonRetryable?) && db.world.sends == old(db.world).sends
      && db.world.withdrawals[job.withdrawalId] == old(db.world).withdrawals[job.withdrawalId]
    ensures !env.isValid(job.destination) ==> db.world.sends == old(db.world).sends
    ensures r.Done? && old(db.world).withdrawals[job.withdrawalId].fairTx.Some? ==> env.said == Yes
    ensures r.Threw? ==> env.setbacks > old(env.setbacks)
  {
    var id := job.withdrawalId;
    db.ReleaseJobFacts(job);
    var initial := db.world.withdrawals[id];
    db.Others(Release);
    if initial.status.Final? || initial.status.Broadcast? { return Skipped; }
    if initial.status.Failed? { return NonRetryable; }
    if !nodeWallet { return NonRetryable; }

    ghost var s := db.world;
    if initial.fairTx.None? {
      var end := ClaimSend(db, env, job, s);
      if end.Some? { return end.value; }
    }
    r := SendOrReconcile(db, env, job, s);
  }
}
