/** The loop of emergency_halt: it patches the raw bytes of whatever accounts it is given. The list may
    name an account twice; such entries share one buffer. */
module EmergencyHalt {
  import opened Numeric
  import opened Exits
  import opened ExitLayout
  import Bytes
  import opened Staking
  import opened RewardLedger
  import opened StakingProgram

  /** An account as the runtime hands it over. Copies of it share the buffer. */
  datatype AccountInfo = AccountInfo(owner: Pubkey, isWritable: bool, data: array<byte>)

  function Buffers(accounts: seq<AccountInfo>): (b: set<array<byte>>)
  {
    set i | 0 <= i < |accounts| :: accounts[i].data
  }

  /** Some entry lets the program write this buffer. */
  predicate Writable(accounts: seq<AccountInfo>, programId: Pubkey, b: array<byte>)
  {
    exists i :: 0 <= i < |accounts| && accounts[i].data == b && accounts[i].owner == programId && accounts[i].isWritable
  }

  /** The distinct buffers that hold an Active exit of the pool and may be written. */
  ghost function Targets(accounts: seq<AccountInfo>, programId: Pubkey, disc: Discriminator, poolKey: Pubkey)
    : (t: set<array<byte>>)
    reads Buffers(accounts)
  {
    set b | b in Buffers(accounts) && Writable(accounts, programId, b) && Matches(b[..], disc, poolKey)
  }

  /** Writes status and completion time into one buffer. */
  method PatchBuffer(data: array<byte>, now: i64)
    requires DLMM_EXIT_DATA_LEN <= data.Length
    modifies data
    ensures data[..] == Patched(old(data[..]), now)
  {
    data[STATUS_OFFSET] := TERMINATED;
    var bytes := Bytes.EncodeI64(now);
    for k := 0 to 8
      invariant forall j :: 0 <= j < data.Length ==>
        data[j] == if j == STATUS_OFFSET then TERMINATED
                   else if COMPLETED_AT_OFFSET <= j < COMPLETED_AT_OFFSET + k then bytes[j - COMPLETED_AT_OFFSET]
                   else old(data[j])
    {
      data[COMPLETED_AT_OFFSET + k] := bytes[k];
    }
    forall j | 0 <= j < data.Length ensures data[..][j] == Patched(old(data[..]), now)[j] {
      PatchedAt(old(data[..]), now, j);
    }
  }

  /** One turn of the loop: skip the account or terminate the exit in it. */
  method TerminateOne(account: AccountInfo, programId: Pubkey, disc: Discriminator, poolKey: Pubkey, now: i64)
    returns (terminated: bool)
    modifies account.data
    ensures terminated <==>
              account.owner == programId && account.isWritable && old(Matches(account.data[..], disc, poolKey))
    ensures terminated ==>
              DLMM_EXIT_DATA_LEN <= account.data.Length && account.data[..] == Patched(old(account.data[..]), now)
    ensures !terminated ==> account.data[..] == old(account.data[..])
  {
    if account.owner != programId { return false; }
    if !account.isWritable { return false; }
    terminated := Check(account.data, disc, poolKey);
    if terminated { PatchBuffer(account.data, now); }
  }

  /** Exactly the distinct matching buffers are patched, once each, and their number is returned. */
  method TerminateListed(accounts: seq<AccountInfo>, programId: Pubkey, disc: Discriminator, poolKey: Pubkey, now: i64)
    returns (terminatedCount: nat)
    modifies Buffers(accounts)
    ensures terminatedCount == |old(Targets(accounts, programId, disc, poolKey))|
    ensures forall b :: b in Buffers(accounts) && b in old(Targets(accounts, programId, disc, poolKey)) ==>
              b[..] == Patched(old(b[..]), now)
    ensures forall b :: b in Buffers(accounts) && b !in old(Targets(accounts, programId, disc, poolKey)) ==>
              b[..] == old(b[..])
  {
    hide Matches, Patched, Writable;
    ghost var targets := Targets(accounts, programId, disc, poolKey);
    terminatedCount := 0;
    ghost var hit: set<array<byte>> := {};
    NoneListed(programId);
    for i := 0 to |accounts|
      invariant hit <= targets && terminatedCount == |hit|
      invariant forall b :: b in targets && Writable(accounts[..i], programId, b) ==> b in hit
      invariant forall b :: b in hit ==> DLMM_EXIT_DATA_LEN <= b.Length && b[..] == Patched(old(b[..]), now)
      invariant forall b :: b in Buffers(accounts) && b !in hit ==> b[..] == old(b[..])
    {
      var data := accounts[i].data;
      assert data in Buffers(accounts);
      ListedUpTo(accounts, i, programId);
      if data in hit { PatchedOnce(old(data[..]), disc, poolKey, now); }
      var terminated := TerminateOne(accounts[i], programId, disc, poolKey, now);
      if terminated {
        hit := hit + {data};
        terminatedCount := terminatedCount + 1;
      }
    }
    assert accounts[..|accounts|] == accounts;
    assert hit == targets;
  }

  lemma NoneListed(programId: Pubkey)
    ensures forall b :: !Writable([], programId, b)
  {
  }

  /** The entries up to and including `i` list what those before it list, and the buffer of entry `i`. */
  lemma ListedUpTo(accounts: seq<AccountInfo>, i: nat, programId: Pubkey)
    requires i < |accounts|
    ensures var mine := accounts[i].owner == programId && accounts[i].isWritable;
      && (mine ==> Writable(accounts, programId, accounts[i].data))
      && forall b :: Writable(accounts[..i + 1], programId, b)
                     <==> Writable(accounts[..i], programId, b) || (mine && b == accounts[i].data)
  {
    forall b ensures Writable(accounts[..i], programId, b) ==> Writable(accounts[..i + 1], programId, b) {
      if Writable(accounts[..i], programId, b) {
        var j :| 0 <= j < i && accounts[..i][j].data == b && accounts[..i][j].owner == programId
                 && accounts[..i][j].isWritable;
        assert accounts[..i + 1][j].data == b;
      }
    }
    assert accounts[..i + 1][i].data == accounts[i].data;
    forall b | Writable(accounts[..i + 1], programId, b)
      ensures Writable(accounts[..i], programId, b) || b == accounts[i].data
    {
      var j :| 0 <= j < i + 1 && accounts[..i + 1][j].data == b && accounts[..i + 1][j].owner == programId
               && accounts[..i + 1][j].isWritable;
      if j < i { assert accounts[..i][j].data == b; }
    }
  }

  /** The tests the loop makes on the bytes, in its order. */
  method Check(data: array<byte>, disc: Discriminator, poolKey: Pubkey) returns (ok: bool)
    ensures ok <==> Matches(data[..], disc, poolKey)
    ensures ok <==> 194 <= data.Length && data[..8] == disc && data[8..40] == poolKey && data[176] == 0
  {
    if data.Length < DLMM_EXIT_DATA_LEN { return false; }
    assert data[..][..8] == data[..8];
    if data[..8] != disc { return false; }
    var exitPoolKey := data[POOL_OFFSET..POOL_OFFSET + 32];
    assert data[..][POOL_OFFSET..POOL_OFFSET + 32] == exitPoolKey;
    if exitPoolKey != poolKey { return false; }
    if data[STATUS_OFFSET] != ACTIVE { return false; }
    return true;
  }

  // ---- the same, on exit records ----

  /** Every exit of the store sits encoded in a buffer of its own. */
  ghost predicate Stored(exits: ExitMap, cells: map<ExitKey, array<byte>>, disc: Discriminator)
    reads cells.Values
  {
    && exits.Keys == cells.Keys
    && (forall k, k' :: k in cells && k' in cells && k != k' ==> cells[k] != cells[k'])
    && (forall k :: k in exits ==> WellKeyed(exits[k]) && cells[k][..] == Encode(disc, exits[k]))
  }

  /** The keys of the exits whose buffers the caller listed as writable accounts of the program. */
  function Listed(exits: ExitMap, cells: map<ExitKey, array<byte>>, accounts: seq<AccountInfo>, programId: Pubkey)
    : (listed: set<ExitKey>)
    requires exits.Keys <= cells.Keys
  {
    set k | k in exits && Writable(accounts, programId, cells[k])
  }

  function HaltedKeys(exits: ExitMap, poolKey: Pubkey, listed: set<ExitKey>): (keys: set<ExitKey>)
  {
    set k | k in exits && Halts(exits, poolKey, listed, k)
  }

  lemma TargetsTyped(exits: ExitMap, cells: map<ExitKey, array<byte>>, accounts: seq<AccountInfo>, programId: Pubkey,
                     disc: Discriminator, poolKey: Pubkey)
    requires Stored(exits, cells, disc)
    ensures forall k :: k in exits ==>
              (cells[k] in Targets(accounts, programId, disc, poolKey)
               <==> Halts(exits, poolKey, Listed(exits, cells, accounts, programId), k))
  {
    hide Matches, Encode;
    forall k | k in exits
      ensures cells[k] in Targets(accounts, programId, disc, poolKey)
              <==> Halts(exits, poolKey, Listed(exits, cells, accounts, programId), k)
    {
      MatchesTyped(disc, exits[k], poolKey);
    }
  }

  /** On a store of exits the byte loop is the typed update: the buffers end up holding the halted store. */
  method HaltStore(accounts: seq<AccountInfo>, programId: Pubkey, disc: Discriminator, poolKey: Pubkey, now: i64,
                   ghost exits: ExitMap, ghost cells: map<ExitKey, array<byte>>)
    returns (terminatedCount: nat)
    requires Stored(exits, cells, disc)
    requires forall b :: b in Buffers(accounts) && b !in cells.Values ==> !Matches(b[..], disc, poolKey)
    modifies Buffers(accounts)
    ensures Stored(HaltExits(exits, poolKey, Listed(exits, cells, accounts, programId), now), cells, disc)
    ensures terminatedCount == |HaltedKeys(exits, poolKey, Listed(exits, cells, accounts, programId))|
  {
    hide Matches, Encode, Patched, WellKeyed;
    ghost var listed := Listed(exits, cells, accounts, programId);
    ghost var halted := HaltExits(exits, poolKey, listed, now);
    TargetsTyped(exits, cells, accounts, programId, disc, poolKey);
    TargetCount(exits, cells, accounts, programId, disc, poolKey);
    terminatedCount := TerminateListed(accounts, programId, disc, poolKey, now);
    forall k | k in halted ensures WellKeyed(halted[k]) && cells[k][..] == Encode(disc, halted[k]) {
      FinishedKeyed(exits[k], now);
      PatchIsTyped(disc, exits[k], now);
      if cells[k] !in Buffers(accounts) { assert cells[k][..] == old(cells[k][..]); }
    }
  }

  /** The handler: only the owner, first the pause, then the loop over the remaining accounts. */
  method HandleEmergencyHalt(pool: StakingPool, authority: Pubkey, env: Env, poolKey: Pubkey,
                             accounts: seq<AccountInfo>, programId: Pubkey, disc: Discriminator,
                             ghost exits: ExitMap, ghost cells: map<ExitKey, array<byte>>)
    returns (r: Result<nat>)
    requires pool.Valid() && Stored(exits, cells, disc)
    requires forall b :: b in Buffers(accounts) && b !in cells.Values ==> !Matches(b[..], disc, poolKey)
    modifies pool, Buffers(accounts)
    ensures pool.Valid() && pool.Now() == Step(old(pool.Now()), env, PauseEvent(authority))
    ensures authority == pool.owner ==>
              r == Ok(|HaltedKeys(exits, poolKey, Listed(exits, cells, accounts, programId))|)
              && pool.isPaused
              && Stored(HaltExits(exits, poolKey, Listed(exits, cells, accounts, programId), env.now), cells, disc)
    ensures authority != pool.owner ==> r == Err(Unauthorized) && Stored(exits, cells, disc)
  {
    hide Matches, Encode, WellKeyed, Inv;
    var paused := pool.Pause(authority, env);
    if paused.Err? { return Err(paused.error); }
    var terminatedCount := HaltStore(accounts, programId, disc, poolKey, env.now, exits, cells);
    return Ok(terminatedCount);
  }

  /** One target buffer for each exit the typed halt terminates. */
  lemma TargetCount(exits: ExitMap, cells: map<ExitKey, array<byte>>, accounts: seq<AccountInfo>, programId: Pubkey,
                    disc: Discriminator, poolKey: Pubkey)
    requires Stored(exits, cells, disc)
    requires forall b :: b in Buffers(accounts) && b !in cells.Values ==> !Matches(b[..], disc, poolKey)
    ensures |Targets(accounts, programId, disc, poolKey)|
            == |HaltedKeys(exits, poolKey, Listed(exits, cells, accounts, programId))|
  {
    hide Matches, Encode, WellKeyed;
    var keys := HaltedKeys(exits, poolKey, Listed(exits, cells, accounts, programId));
    TargetsTyped(exits, cells, accounts, programId, disc, poolKey);
    SameSize(keys, cells);
    assert Targets(accounts, programId, disc, poolKey) == Image(keys, cells);
  }

  lemma FinishedKeyed(e: DlmmExit, now: i64)
    requires WellKeyed(e)
    ensures WellKeyed(Finished(e, TERMINATED, now))
  {
  }

  function Image<K, V>(keys: set<K>, m: map<K, V>): (vs: set<V>)
    requires keys <= m.Keys
  {
    set k | k in keys :: m[k]
  }

  lemma {:induction false} SameSize<K, V>(keys: set<K>, m: map<K, V>)
    requires keys <= m.Keys
    requires forall k, k' :: k in keys && k' in keys && k != k' ==> m[k] != m[k']
    ensures |Image(keys, m)| == |keys|
  {
    if keys != {} {
      var k :| k in keys;
      SameSize(keys - {k}, m);
      assert Image(keys, m) == Image(keys - {k}, m) + {m[k]};
    }
  }
}
