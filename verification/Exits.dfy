/** DLMM exits: one account per (asset, pool) pair, opened, recorded, finished and closed. */
module Exits {
  import opened Numeric

  const ACTIVE: u8 := 0
  const COMPLETED: u8 := 1
  const TERMINATED: u8 := 2

  datatype ExitKey = ExitKey(assetMint: Pubkey, dlmmPool: Pubkey)

  datatype DlmmExit = DlmmExit(
    pool: Pubkey,
    owner: Pubkey,
    assetMint: Pubkey,
    dlmmPool: Pubkey,
    position: Pubkey,
    totalSolClaimed: u64,
    status: u8,
    createdAt: i64,
    completedAt: i64,
    proposalId: u64,
    lastClaimedAmount: u64,
    bump: u8)

  /** What an instruction reads from the staking pool account and the clock. */
  datatype Ctx = Ctx(
    now: i64,
    poolKey: Pubkey,
    owner: Pubkey,
    crank: Pubkey,
    isPaused: bool,
    totalWeightedStake: u128)

  type ExitMap = map<ExitKey, DlmmExit>

  function Opened(ctx: Ctx, owner: Pubkey, key: ExitKey, position: Pubkey, proposalId: u64, bump: u8): (e: DlmmExit)
  {
    DlmmExit(ctx.poolKey, owner, key.assetMint, key.dlmmPool, position, 0, ACTIVE, ctx.now, 0, proposalId, 0, bump)
  }

  function InitiateExit(exits: ExitMap, ctx: Ctx, authority: Pubkey, key: ExitKey, position: Pubkey, bump: u8)
    : (r: Result<ExitMap>)
  {
    if authority != ctx.owner then Err(Unauthorized)
    else if key in exits then Err(AccountAlreadyInUse)
    else if ctx.isPaused then Err(PoolPaused)
    else Ok(exits[key := Opened(ctx, authority, key, position, 0, bump)])
  }

  function RecordClaim(exits: ExitMap, ctx: Ctx, authority: Pubkey, key: ExitKey, amount: u64): (r: Result<ExitMap>)
  {
    if authority != ctx.owner && authority != ctx.crank then Err(Unauthorized)
    else if key !in exits then Err(AccountNotInitialized)
    else
      var e := exits[key];
      if e.pool != ctx.poolKey then Err(Unauthorized)
      else if amount == 0 then Err(ZeroAmount)
      else if e.status != ACTIVE then Err(ExitNotActive)
      else if e.lastClaimedAmount != 0 && e.lastClaimedAmount == amount then Err(InvalidState)
      else if e.totalSolClaimed + amount > U64_MAX then Err(MathOverflow)
      else Ok(exits[key := e.(totalSolClaimed := e.totalSolClaimed + amount, lastClaimedAmount := amount)])
  }

  function Finished(e: DlmmExit, status: u8, now: i64): (r: DlmmExit)
  {
    e.(status := status, completedAt := now)
  }

  function CompleteExit(exits: ExitMap, ctx: Ctx, authority: Pubkey, key: ExitKey): (r: Result<ExitMap>)
  {
    if authority != ctx.owner && authority != ctx.crank then Err(Unauthorized)
    else if key !in exits then Err(AccountNotInitialized)
    else if exits[key].pool != ctx.poolKey then Err(Unauthorized)
    else if exits[key].status != ACTIVE then Err(ExitNotActive)
    else Ok(exits[key := Finished(exits[key], COMPLETED, ctx.now)])
  }

  function TerminateExit(exits: ExitMap, ctx: Ctx, authority: Pubkey, key: ExitKey): (r: Result<ExitMap>)
  {
    if authority != ctx.owner then Err(Unauthorized)
    else if key !in exits then Err(AccountNotInitialized)
    else if exits[key].status != ACTIVE then Err(ExitNotActive)
    else Ok(exits[key := Finished(exits[key], TERMINATED, ctx.now)])
  }

  function CloseDlmmExit(exits: ExitMap, ctx: Ctx, authority: Pubkey, key: ExitKey): (r: Result<ExitMap>)
  {
    if authority != ctx.owner then Err(Unauthorized)
    else if key !in exits then Err(AccountNotInitialized)
    else if exits[key].status == ACTIVE then Err(ExitAlreadyActive)
    else Ok(exits - {key})
  }

  /** The exits an emergency halt terminates: listed, of this pool, and Active. */
  predicate Halts(exits: ExitMap, poolKey: Pubkey, listed: set<ExitKey>, key: ExitKey)
  {
    key in exits && key in listed && exits[key].pool == poolKey && exits[key].status == ACTIVE
  }

  function HaltExits(exits: ExitMap, poolKey: Pubkey, listed: set<ExitKey>, now: i64): (r: ExitMap)
  {
    map key | key in exits ::
      if Halts(exits, poolKey, listed, key) then Finished(exits[key], TERMINATED, now) else exits[key]
  }

  /** A halt leaves no exit of the pool Active exactly when it lists every Active one. */
  lemma HaltStopsExactly(exits: ExitMap, poolKey: Pubkey, listed: set<ExitKey>, now: i64)
    requires forall key :: key in exits ==> exits[key].pool == poolKey
    ensures (forall key :: key in HaltExits(exits, poolKey, listed, now) ==>
               HaltExits(exits, poolKey, listed, now)[key].status != ACTIVE)
            <==> (forall key :: key in exits && exits[key].status == ACTIVE ==> key in listed)
  {
    var after := HaltExits(exits, poolKey, listed, now);
    forall key | key in exits && key !in listed
      ensures after[key] == exits[key]
    {
    }
  }
}
