/** The bytes of an exit account, as the program writes them and as the crank reads them. */
module ExitLayout {
  import opened Numeric
  import opened Bytes
  import opened Exits

  const POOL_OFFSET: int := 8
  const STATUS_OFFSET: int := 176
  const COMPLETED_AT_OFFSET: int := 185
  const ENCODED_LEN: int := 210

  /** The shortest account emergency_halt accepts. */
  const DLMM_EXIT_DATA_LEN: int := 194
  /** The shortest buffer the crank accepts. */
  const DLMM_EXIT_TOTAL_ACCOUNT_SIZE: int := 202

  type Discriminator = d: seq<byte> | |d| == 8 witness [0, 0, 0, 0, 0, 0, 0, 0]

  predicate WellKeyed(e: DlmmExit)
  {
    |e.pool| == |e.owner| == |e.assetMint| == |e.dlmmPool| == |e.position| == 32
  }

  // ---- the program's side: Borsh fields in declaration order ----

  function Keys(disc: Discriminator, e: DlmmExit): (b: seq<byte>)
  {
    disc + (e.pool + (e.owner + (e.assetMint + (e.dlmmPool + e.position))))
  }

  function Tail(e: DlmmExit): (b: seq<byte>)
    ensures |b| == 17
  {
    EncodeU64(e.proposalId) + (EncodeU64(e.lastClaimedAmount) + [e.bump])
  }

  function Encode(disc: Discriminator, e: DlmmExit): (b: seq<byte>)
    requires WellKeyed(e)
    ensures |b| == ENCODED_LEN
  {
    Keys(disc, e)
    + (EncodeU64(e.totalSolClaimed) + ([e.status] + (EncodeI64(e.createdAt) + (EncodeI64(e.completedAt) + Tail(e)))))
  }

  lemma KeysLayout(disc: Discriminator, e: DlmmExit)
    requires WellKeyed(e)
    ensures var b := Encode(disc, e);
            && b[..8] == disc && b[8..40] == e.pool && b[40..72] == e.owner && b[72..104] == e.assetMint
            && b[104..136] == e.dlmmPool && b[136..168] == e.position
  {
    hide EncodeU64, EncodeI64, Tail;
    var b := Encode(disc, e);
    var rest := EncodeU64(e.totalSolClaimed)
                + ([e.status] + (EncodeI64(e.createdAt) + (EncodeI64(e.completedAt) + Tail(e))));
    var r5 := e.position + rest;
    var r4 := e.dlmmPool + r5;
    var r3 := e.assetMint + r4;
    var r2 := e.owner + r3;
    var r1 := e.pool + r2;
    assert b[0..] == disc + r1;
    Peel(b, 0, disc, r1);
    Peel(b, 8, e.pool, r2);
    Peel(b, 40, e.owner, r3);
    Peel(b, 72, e.assetMint, r4);
    Peel(b, 104, e.dlmmPool, r5);
    Peel(b, 136, e.position, rest);
  }

  lemma StateLayout(disc: Discriminator, e: DlmmExit)
    requires WellKeyed(e)
    ensures var b := Encode(disc, e);
            && b[168..176] == EncodeU64(e.totalSolClaimed) && b[176] == e.status
            && b[177..185] == EncodeI64(e.createdAt) && b[185..193] == EncodeI64(e.completedAt)
            && b[193..] == Tail(e)
  {
  }

  lemma TailLayout(disc: Discriminator, e: DlmmExit)
    requires WellKeyed(e)
    ensures var b := Encode(disc, e);
            && b[193..201] == EncodeU64(e.proposalId) && b[201..209] == EncodeU64(e.lastClaimedAmount)
            && b[209] == e.bump
  {
  }

  // ---- the crank's side ----

  datatype ExitView = ExitView(
    pool: Pubkey,
    owner: Pubkey,
    assetMint: Pubkey,
    dlmmPool: Pubkey,
    position: Pubkey,
    totalSolClaimed: u64,
    status: u8,
    createdAt: i64,
    completedAt: i64,
    proposalId: u64,
    bump: u8)

  datatype Decoded = Decoded(view: ExitView) | InvalidLength(length: nat) | InvalidStatus(status: byte)

  /** What the crank makes of a buffer, at fixed offsets. */
  function Decode(data: seq<byte>): (r: Decoded)
  {
    if |data| < DLMM_EXIT_TOTAL_ACCOUNT_SIZE then InvalidLength(|data|)
    else if data[STATUS_OFFSET] > TERMINATED then InvalidStatus(data[STATUS_OFFSET])
    else Decoded(ExitView(data[8..40], data[40..72], data[72..104], data[104..136], data[136..168],
                          DecodeU64(data[168..176]), data[176], DecodeI64(data[177..185]), DecodeI64(data[185..193]),
                          DecodeU64(data[193..201]), data[201]))
  }

  /** The crank's decoder, which walks the buffer with a moving offset. */
  method DeserializeDlmmExit(data: array<byte>) returns (r: Decoded)
    ensures r == Decode(data[..])
    ensures r == InvalidLength(data.Length) <==> data.Length < 202
    ensures r.InvalidStatus? <==> 202 <= data.Length && 2 < data[176]
  {
    hide DecodeU64, DecodeI64;
    if data.Length < DLMM_EXIT_TOTAL_ACCOUNT_SIZE { return InvalidLength(data.Length); }
    var offset := 8;
    var pool := data[offset..offset + 32];
    offset := offset + 32;
    var owner := data[offset..offset + 32];
    offset := offset + 32;
    var assetMint := data[offset..offset + 32];
    offset := offset + 32;
    var dlmmPool := data[offset..offset + 32];
    offset := offset + 32;
    var position := data[offset..offset + 32];
    offset := offset + 32;
    var totalSolClaimed := DecodeU64(data[offset..offset + 8]);
    offset := offset + 8;
    var statusValue := data[offset];
    if statusValue != ACTIVE && statusValue != COMPLETED && statusValue != TERMINATED {
      return InvalidStatus(statusValue);
    }
    offset := offset + 1;
    var createdAt := DecodeI64(data[offset..offset + 8]);
    offset := offset + 8;
    var completedAt := DecodeI64(data[offset..offset + 8]);
    offset := offset + 8;
    var proposalId := DecodeU64(data[offset..offset + 8]);
    offset := offset + 8;
    var bump := data[offset];
    assert data[..][8..40] == pool && data[..][40..72] == owner && data[..][72..104] == assetMint;
    assert data[..][104..136] == dlmmPool && data[..][136..168] == position;
    assert data[..][168..176] == data[168..176] && data[..][177..185] == data[177..185];
    assert data[..][185..193] == data[185..193] && data[..][193..201] == data[193..201];
    return Decoded(ExitView(pool, owner, assetMint, dlmmPool, position, totalSolClaimed, statusValue, createdAt,
                            completedAt, proposalId, bump));
  }

  /** The view the crank should get. */
  function View(e: DlmmExit): (v: ExitView)
  {
    ExitView(e.pool, e.owner, e.assetMint, e.dlmmPool, e.position, e.totalSolClaimed, e.status, e.createdAt,
             e.completedAt, e.proposalId, e.bump)
  }

  /** The crank reads back every field the program wrote, up to the proposal id. Where it expects the bump
      it finds the low byte of `last_claimed_amount`, a field added since. */
  lemma DecodeEncoded(disc: Discriminator, e: DlmmExit)
    requires WellKeyed(e)
    ensures Decode(Encode(disc, e))
            == if e.status <= TERMINATED then Decoded(View(e).(bump := e.lastClaimedAmount % 256))
               else InvalidStatus(e.status)
  {
    KeysLayout(disc, e);
    StateLayout(disc, e);
    TailLayout(disc, e);
    U64RoundTrip(e.totalSolClaimed);
    I64RoundTrip(e.createdAt);
    I64RoundTrip(e.completedAt);
    U64RoundTrip(e.proposalId);
    var b := Encode(disc, e);
    assert b[201] == b[201..209][0] == e.lastClaimedAmount % 256;
    hide DecodeU64, DecodeI64, EncodeU64, EncodeI64, Encode;
  }

  /** So the whole view is right exactly when those two bytes happen to agree. */
  lemma ViewExactly(disc: Discriminator, e: DlmmExit)
    requires WellKeyed(e)
    ensures Decode(Encode(disc, e)) == Decoded(View(e))
            <==> e.status <= TERMINATED && e.lastClaimedAmount % 256 == e.bump
  {
    DecodeEncoded(disc, e);
  }

  /** They do not for any exit just opened under the bump 255: the crank reads a bump of 0. */
  lemma FreshViewWrong(disc: Discriminator, ctx: Ctx, owner: Pubkey, key: ExitKey, position: Pubkey, proposalId: u64)
    requires WellKeyed(Opened(ctx, owner, key, position, proposalId, 255))
    ensures var e := Opened(ctx, owner, key, position, proposalId, 255);
            Decode(Encode(disc, e)) == Decoded(View(e).(bump := 0)) != Decoded(View(e))
  {
    DecodeEncoded(disc, Opened(ctx, owner, key, position, proposalId, 255));
    hide Decode, Encode;
  }

  // ---- what emergency_halt does to a buffer ----

  /** The buffer holds an Active exit of this pool, as far as the loop can tell. */
  predicate Matches(data: seq<byte>, disc: Discriminator, poolKey: Pubkey)
  {
    && DLMM_EXIT_DATA_LEN <= |data|
    && data[..8] == disc
    && data[POOL_OFFSET..POOL_OFFSET + 32] == poolKey
    && data[STATUS_OFFSET] == ACTIVE
  }

  /** The buffer with status and completion time overwritten. */
  function Patched(data: seq<byte>, now: i64): (r: seq<byte>)
    requires DLMM_EXIT_DATA_LEN <= |data|
    ensures |r| == |data|
  {
    data[..STATUS_OFFSET] + [TERMINATED] + data[STATUS_OFFSET + 1..COMPLETED_AT_OFFSET] + EncodeI64(now)
    + data[COMPLETED_AT_OFFSET + 8..]
  }

  lemma PatchedAt(data: seq<byte>, now: i64, k: nat)
    requires DLMM_EXIT_DATA_LEN <= |data| && k < |data|
    ensures Patched(data, now)[k] ==
            if k == STATUS_OFFSET then TERMINATED
            else if COMPLETED_AT_OFFSET <= k < COMPLETED_AT_OFFSET + 8 then EncodeI64(now)[k - COMPLETED_AT_OFFSET]
            else data[k]
  {
  }

  lemma PatchedSlice(data: seq<byte>, now: i64, lo: nat, hi: nat)
    requires DLMM_EXIT_DATA_LEN <= |data| && lo <= hi <= |data|
    requires hi <= STATUS_OFFSET || (STATUS_OFFSET < lo && hi <= COMPLETED_AT_OFFSET) || COMPLETED_AT_OFFSET + 8 <= lo
    ensures Patched(data, now)[lo..hi] == data[lo..hi]
  {
    forall k | lo <= k < hi ensures Patched(data, now)[k] == data[k] { PatchedAt(data, now, k); }
  }

  lemma PatchedTime(data: seq<byte>, now: i64)
    requires DLMM_EXIT_DATA_LEN <= |data|
    ensures Patched(data, now)[COMPLETED_AT_OFFSET..COMPLETED_AT_OFFSET + 8] == EncodeI64(now)
  {
  }

  /** Decoding a patched buffer gives the old record, terminated now. */
  lemma DecodePatched(data: seq<byte>, disc: Discriminator, poolKey: Pubkey, now: i64)
    requires Matches(data, disc, poolKey) && DLMM_EXIT_TOTAL_ACCOUNT_SIZE <= |data|
    ensures Decode(data).Decoded? && Decode(data).view.status == ACTIVE
    ensures Decode(Patched(data, now)) == Decoded(Decode(data).view.(status := TERMINATED, completedAt := now))
  {
    PatchedSlice(data, now, 8, 40);
    PatchedSlice(data, now, 40, 72);
    PatchedSlice(data, now, 72, 104);
    PatchedSlice(data, now, 104, 136);
    PatchedSlice(data, now, 136, 168);
    PatchedSlice(data, now, 168, 176);
    PatchedSlice(data, now, 177, 185);
    PatchedSlice(data, now, 193, 201);
    PatchedAt(data, now, STATUS_OFFSET);
    PatchedAt(data, now, 201);
    PatchedTime(data, now);
    I64RoundTrip(now);
    hide Patched, DecodeU64, DecodeI64, EncodeI64;
  }

  /** A patched buffer no longer matches, so meeting it twice changes nothing. */
  lemma PatchedOnce(data: seq<byte>, disc: Discriminator, poolKey: Pubkey, now: i64)
    requires DLMM_EXIT_DATA_LEN <= |data|
    ensures !Matches(Patched(data, now), disc, poolKey)
  {
  }

  lemma MatchesTyped(disc: Discriminator, e: DlmmExit, poolKey: Pubkey)
    requires WellKeyed(e)
    ensures Matches(Encode(disc, e), disc, poolKey) <==> e.pool == poolKey && e.status == ACTIVE
  {
  }

  /** Patching the bytes of an exit gives the bytes of the exit, terminated now. */
  lemma PatchIsTyped(disc: Discriminator, e: DlmmExit, now: i64)
    requires WellKeyed(e)
    ensures Patched(Encode(disc, e), now) == Encode(disc, Finished(e, TERMINATED, now))
  {
  }
}
