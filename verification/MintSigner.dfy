/** The mint worker in direct_eoa mode: one job at a time from the mint queue,
    any failure or crash at any call, every other actor in between. */
module MintSigner {
  import opened Rows
  import opened Protocol
  import opened Interference
  import opened BridgeDb
  import opened Environment

  /** What one job may have done to the mints: nothing, or one broadcast of the
      job's amount to the job's recipient while no hash was on file. */
  predicate MintDone(job: MintJob, s: State, s': State) {
    var id := job.depositId;
    && id < |s.deposits| <= |s'.deposits|
    && |s.mints| <= |s'.mints| <= |s.mints| + 1
    && (|s'.mints| > |s.mints| ==> MintedOnce(job, s, s'))
    && (s.deposits[id].mintTx.Some? ==> s'.deposits[id].mintTx == s.deposits[id].mintTx)
  }

  predicate MintedOnce(job: MintJob, s: State, s': State)
    requires job.depositId < |s.deposits| <= |s'.deposits| && |s'.mints| == |s.mints| + 1
  {
    var id := job.depositId;
    var m := s'.mints[|s.mints|];
    && s.deposits[id].mintTx.None?
    && (s.deposits[id].status.Confirmed? || s.deposits[id].status.Minting?)
    && m == MintTx(id, job.to, job.wei, m.outcome, s'.deposits[id].mintTx.None?)
    && (s'.deposits[id].mintTx.Some? ==> s'.deposits[id].mintTx.value == |s.mints|)
  }

  ghost predicate Working(db: Bridge, job: MintJob, s: State)
    reads db
  {
    db.Valid() && db.world.heldMint.None? && job in db.world.mintJobs && MintDone(job, s, db.world)
  }

  /** The row's status is what the chain says about the mint on file. */
  predicate Settled(s: State, id: nat, success: bool)
    requires id < |s.deposits|
  {
    var d := s.deposits[id];
    && d.mintTx.Some? && d.mintTx.value < |s.mints|
    && s.mints[d.mintTx.value].outcome == (if success then Success else Reverted)
    && d.status == (if success then DepositStatus.Minted else DepositStatus.Failed)
  }

  /** The mint on file reverted and failed the row, or is still to be executed. */
  predicate NotMinted(s: State, id: nat)
    requires id < |s.deposits|
  {
    var d := s.deposits[id];
    || Settled(s, id, false)
    || (d.mintTx.Some? && d.mintTx.value < |s.mints| && s.mints[d.mintTx.value].outcome.Pending?)
  }

  /** `finalizeDirectEoa`: waits for the receipt of the hash on file. */
  method FinalizeDirectEoa(db: Bridge, env: Env, job: MintJob, ghost s: State) returns (r: JobResult)
    requires Working(db, job, s)
    requires db.world.deposits[job.depositId].status.Minting? && db.world.deposits[job.depositId].mintTx.Some?
    modifies db, env
    ensures Working(db, job, s)
    ensures r.Done? || r.Threw?
    ensures r.Done? ==> Settled(db.world, job.depositId, true)
    ensures old(env.setbacks) <= env.setbacks
    ensures r.Threw? ==> env.setbacks > old(env.setbacks) || NotMinted(db.world, job.depositId)
  {
    var id := job.depositId;
    db.MintJobFacts(job);
    var hash := db.world.deposits[id].mintTx.value;
    db.Others(Mint);
    var outcome := db.world.mints[hash].outcome;
    if outcome.Pending? { return Threw; }
    db.Others(Mint);
    db.SettleMint(id, outcome.Success?);
    return if outcome.Success? then Done else Threw;
  }

  /** `claimMint`, then `signDirectEoa` up to the write of the hash. */
  method BroadcastDirectEoa(db: Bridge, env: Env, job: MintJob, ghost s: State) returns (r: JobResult)
    requires Working(db, job, s) && |db.world.mints| == |s.mints|
    requires db.world.deposits[job.depositId] == s.deposits[job.depositId]
    requires s.deposits[job.depositId].mintTx.None?
    requires s.deposits[job.depositId].status.Confirmed? || s.deposits[job.depositId].status.Minting?
    modifies db, env
    ensures Working(db, job, s)
    ensures r.Done? || r.Threw?
    ensures r.Done? ==>
      db.world.deposits[job.depositId].status.Minting? && db.world.deposits[job.depositId].mintTx.Some?
    ensures old(env.setbacks) <= env.setbacks && (r.Threw? ==> env.setbacks > old(env.setbacks))
  {
    var claimed := db.ClaimMint(job.depositId);
    db.Others(Mint);
    var dies := env.Dies();
    if dies { return Threw; }
    var hash := db.WriteContract(job);
    db.Others(Mint);
    dies := env.Dies();
    if dies {
      db.LoseMintHash();
      return Threw;
    }
    db.PersistMintHash(job.depositId, hash);
    return Done;
  }

  /** `signMint`. A row with a hash on file is never minted again; a row without
      one is minted at most once by this job; DONE means the mint on file
      succeeded and the row is MINTED; a job that throws had a setback, or
      found the mint reverted or still pending. */
  method SignMint(db: Bridge, env: Env, job: MintJob) returns (r: JobResult)
    requires db.Valid() && db.world.heldMint.None? && job in db.world.mintJobs
    modifies db, env
    ensures db.Valid() && db.world.heldMint.None?
    ensures MintDone(job, old(db.world), db.world)
    ensures r.Done? ==> Settled(db.world, job.depositId, true)
    ensures r.Skipped? <==> old(db.world).deposits[job.depositId].status.Minted?
    ensures r.NonRetryable? <==> old(db.world).deposits[job.depositId].status.Failed?
    ensures r.Skipped? || r.NonRetryable? ==> |db.world.mints| == |old(db.world).mints|
    ensures r.Threw? ==> env.setbacks > old(env.setbacks) || NotMinted(db.world, job.depositId)
  {
    var id := job.depositId;
    db.MintJobFacts(job);
    var deposit := db.world.deposits[id];
    db.Others(Mint);
    if deposit.status.Minted? { return Skipped; }
    if deposit.status.Failed? { return NonRetryable; }

    if deposit.mintTx.None? {
      r := BroadcastDirectEoa(db, env, job, old(db.world));
      if r.Threw? { return; }
      db.Others(Mint);
    }
    r := FinalizeDirectEoa(db, env, job, old(db.world));
    // the audit entry writes no row of this model
    var dies := env.Dies();
    if r.Done? && dies { r := Threw; }
  }
}
