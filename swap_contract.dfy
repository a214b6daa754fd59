/**
 * The on-chain swap program: the `SwapPool` account, the account constraints
 * of its three instructions (`Initialize`, `Faucet`, `Swap`), and the three
 * handlers as transitions over the cluster state. The handlers are given
 * twice: as pure step functions, about which the lemmas speak, and as the
 * methods of `Cluster`, which update the state in place and are proved to
 * agree with the steps.
 */
module SwapContract {
  import opened Wrappers
  import opened Token

  /** The program account written by `initialize`: five keys. */
  datatype SwapPool = SwapPool(
    tokenAMint: Pubkey,
    tokenBMint: Pubkey,
    tokenAAccount: Pubkey,
    tokenBAccount: Pubkey,
    owner: Pubkey)

  // ---------------------------------------------------------------------
  // Account layout
  // ---------------------------------------------------------------------

  const DISCRIMINATOR_LEN := 8

  /** The space `initialize` allocates for a pool account. */
  const POOL_SPACE := 8 + 32 * 5

  /** The 8-byte account-type tag that precedes an account's fields. */
  type Discriminator = d: seq<bv8> | |d| == DISCRIMINATOR_LEN witness seq(8, _ => 0)

  /** The stored form of a pool: the tag, then the five keys in declaration order. */
  function Serialize(disc: Discriminator, p: SwapPool): (bytes: seq<bv8>)
    ensures |bytes| == POOL_SPACE
    ensures bytes[..DISCRIMINATOR_LEN] == disc
  {
    disc + p.tokenAMint + p.tokenBMint + p.tokenAAccount + p.tokenBAccount + p.owner
  }

  /** The key stored in the `i`-th 32-byte slot after the tag. */
  function Slot(bytes: seq<bv8>, i: nat): Pubkey
    requires i < 5 && |bytes| >= POOL_SPACE
  {
    bytes[DISCRIMINATOR_LEN + KEY_LEN * i .. DISCRIMINATOR_LEN + KEY_LEN * (i + 1)]
  }

  /** Reading a pool back: the data must be long enough and carry the tag. */
  function Deserialize(disc: Discriminator, bytes: seq<bv8>): (r: Option<SwapPool>)
    ensures r.Some? <==> |bytes| >= POOL_SPACE && bytes[..DISCRIMINATOR_LEN] == disc
  {
    if |bytes| < POOL_SPACE || bytes[..DISCRIMINATOR_LEN] != disc then None
    else Some(SwapPool(Slot(bytes, 0), Slot(bytes, 1), Slot(bytes, 2), Slot(bytes, 3), Slot(bytes, 4)))
  }

  /** The allocated space holds exactly a stored pool, and reading it back gives the pool. */
  lemma PoolRoundTrip(disc: Discriminator, p: SwapPool)
    ensures Deserialize(disc, Serialize(disc, p)) == Some(p)
  {
    var b := Serialize(disc, p);
    assert Slot(b, 0) == p.tokenAMint;
    assert Slot(b, 1) == p.tokenBMint;
    assert Slot(b, 2) == p.tokenAAccount;
    assert Slot(b, 3) == p.tokenBAccount;
    assert Slot(b, 4) == p.owner;
  }

  // ---------------------------------------------------------------------
  // Cluster state and account constraints
  // ---------------------------------------------------------------------

  /** The accounts the program sees: its pools, the token accounts, the mints. */
  datatype Chain = Chain(pools: map<Pubkey, SwapPool>, tokens: Ledger, mints: set<Pubkey>)

  predicate InUse(c: Chain, k: Pubkey)
  {
    k in c.pools || k in c.tokens || k in c.mints
  }

  /** Which accounts of a transaction carry a signature and which are writable. */
  datatype TxMeta = TxMeta(signers: set<Pubkey>, writable: set<Pubkey>)

  /**
   * The account type a field declares: `init` of a new pool, an existing
   * `Account<SwapPool>`, `Account<Mint>`, `Account<TokenAccount>`, or an
   * account of any type (`Signer`).
   */
  datatype Kind = NewPool | Pool | Mint | TokenAcct | AnyAccount

  /** One field of an accounts struct: its name, the key passed for it and its constraints. */
  datatype Check = Check(role: string, key: Pubkey, kind: Kind, signer: bool, writable: bool)

  datatype ProgramError =
    | AlreadyInUse(role: string)
    | NotInitialized(role: string)
    | NotSigner(role: string)
    | NotWritable(role: string)
    | TokenFailed(cause: TokenError)

  /** The first constraint of one field that the passed account violates, if any. */
  function CheckAccount(c: Chain, meta: TxMeta, ch: Check): Option<ProgramError>
  {
    if ch.kind == NewPool && InUse(c, ch.key) then Some(AlreadyInUse(ch.role))
    else if ch.kind == Pool && ch.key !in c.pools then Some(NotInitialized(ch.role))
    else if ch.kind == Mint && ch.key !in c.mints then Some(NotInitialized(ch.role))
    else if ch.kind == TokenAcct && ch.key !in c.tokens then Some(NotInitialized(ch.role))
    else if ch.signer && ch.key !in meta.signers then Some(NotSigner(ch.role))
    else if ch.writable && ch.key !in meta.writable then Some(NotWritable(ch.role))
    else None
  }

  /** An account meets every constraint its field declares. */
  predicate Meets(c: Chain, meta: TxMeta, ch: Check)
  {
    (ch.kind == NewPool ==> !InUse(c, ch.key)) &&
    (ch.kind == Pool ==> ch.key in c.pools) &&
    (ch.kind == Mint ==> ch.key in c.mints) &&
    (ch.kind == TokenAcct ==> ch.key in c.tokens) &&
    (ch.signer ==> ch.key in meta.signers) &&
    (ch.writable ==> ch.key in meta.writable)
  }

  /**
   * Account validation before the handler runs: the fields are checked in
   * declaration order and the first violation is the instruction's error.
   */
  function Validate(c: Chain, meta: TxMeta, checks: seq<Check>): (r: Option<ProgramError>)
    ensures r.None? <==> forall i :: 0 <= i < |checks| ==> Meets(c, meta, checks[i])
    ensures r.Some? ==> exists i :: 0 <= i < |checks| && CheckAccount(c, meta, checks[i]) == r
  {
    if checks == [] then None
    else
      var e := CheckAccount(c, meta, checks[0]);
      if e.Some? then e
      else
        var rest := Validate(c, meta, checks[1..]);
        assert forall i :: 1 <= i < |checks| ==> checks[i] == checks[1..][i - 1];
        rest
  }

  /** The keys the constraints require to sign. */
  function RequiredSigners(checks: seq<Check>): set<Pubkey>
  {
    set i | 0 <= i < |checks| && checks[i].signer :: checks[i].key
  }

  /** The keys the constraints require to be writable. */
  function RequiredWritable(checks: seq<Check>): set<Pubkey>
  {
    set i | 0 <= i < |checks| && checks[i].writable :: checks[i].key
  }

  /** Validation succeeds only if every key required to sign has signed. */
  lemma ValidatedSigners(c: Chain, meta: TxMeta, checks: seq<Check>)
    requires Validate(c, meta, checks).None?
    ensures RequiredSigners(checks) <= meta.signers
    ensures RequiredWritable(checks) <= meta.writable
  {
  }

  /** Validation only asks which accounts exist, never what a pool account holds. */
  lemma {:induction false} ValidateIgnoresPoolData(c: Chain, c': Chain, meta: TxMeta, checks: seq<Check>)
    requires c.pools.Keys == c'.pools.Keys && c.tokens.Keys == c'.tokens.Keys && c.mints == c'.mints
    ensures Validate(c, meta, checks) == Validate(c', meta, checks)
  {
    if checks != [] {
      ValidateIgnoresPoolData(c, c', meta, checks[1..]);
    }
  }

  // ---------------------------------------------------------------------
  // The three instructions
  // ---------------------------------------------------------------------

  datatype InitializeAccounts = InitializeAccounts(
    swapPool: Pubkey,
    tokenAMint: Pubkey,
    tokenBMint: Pubkey,
    tokenAAccount: Pubkey,
    tokenBAccount: Pubkey,
    owner: Pubkey)

  datatype FaucetAccounts = FaucetAccounts(
    swapPool: Pubkey,
    poolTokenAccount: Pubkey,
    userTokenAccount: Pubkey,
    owner: Pubkey)

  datatype SwapAccounts = SwapAccounts(
    swapPool: Pubkey,
    user: Pubkey,
    userFromAccount: Pubkey,
    userToAccount: Pubkey,
    poolFromAccount: Pubkey,
    poolToAccount: Pubkey,
    owner: Pubkey)

  /**
   * The `Initialize` struct: the pool is created (`init`, so it must not
   * exist yet, and being created it signs and is written); the mints and the
   * token accounts are only typed; `owner` is a mutable signer (the payer).
   */
  function InitializeChecks(a: InitializeAccounts): seq<Check>
  {
    [ Check("swap_pool", a.swapPool, NewPool, true, true),
      Check("token_a_mint", a.tokenAMint, Mint, false, false),
      Check("token_b_mint", a.tokenBMint, Mint, false, false),
      Check("token_a_account", a.tokenAAccount, TokenAcct, false, false),
      Check("token_b_account", a.tokenBAccount, TokenAcct, false, false),
      Check("owner", a.owner, AnyAccount, true, true) ]
  }

  /** The `Faucet` struct: every account mutable, `owner` a signer. */
  function FaucetChecks(a: FaucetAccounts): seq<Check>
  {
    [ Check("swap_pool", a.swapPool, Pool, false, true),
      Check("pool_token_account", a.poolTokenAccount, TokenAcct, false, true),
      Check("user_token_account", a.userTokenAccount, TokenAcct, false, true),
      Check("owner", a.owner, AnyAccount, true, true) ]
  }

  /** The `Swap` struct: `user` and `owner` signers, the pool and the four token accounts mutable. */
  function SwapChecks(a: SwapAccounts): seq<Check>
  {
    [ Check("swap_pool", a.swapPool, Pool, false, true),
      Check("user", a.user, AnyAccount, true, false),
      Check("user_from_account", a.userFromAccount, TokenAcct, false, true),
      Check("user_to_account", a.userToAccount, TokenAcct, false, true),
      Check("pool_from_account", a.poolFromAccount, TokenAcct, false, true),
      Check("pool_to_account", a.poolToAccount, TokenAcct, false, true),
      Check("owner", a.owner, AnyAccount, true, false) ]
  }

  /** The signer sets the three structs declare. */
  lemma DeclaredSigners(i: InitializeAccounts, f: FaucetAccounts, s: SwapAccounts)
    ensures RequiredSigners(InitializeChecks(i)) == {i.swapPool, i.owner}
    ensures RequiredSigners(FaucetChecks(f)) == {f.owner}
    ensures RequiredSigners(SwapChecks(s)) == {s.user, s.owner}
  {
    var ic, fc, sc := InitializeChecks(i), FaucetChecks(f), SwapChecks(s);
    assert ic[0].signer && ic[5].signer;
    assert fc[3].signer;
    assert sc[1].signer && sc[6].signer;
  }

  /** The transfer `faucet` performs: pool account to user account, authorised by `owner`. */
  function FaucetTransfer(a: FaucetAccounts, amount: U64): TransferCall
  {
    TransferCall(a.poolTokenAccount, a.userTokenAccount, a.owner, amount)
  }

  /** The first leg of `swap`: the user pays `amount` into the pool, authorised by `user`. */
  function SwapInLeg(a: SwapAccounts, amount: U64): TransferCall
  {
    TransferCall(a.userFromAccount, a.poolFromAccount, a.user, amount)
  }

  /** The second leg of `swap`: the pool pays the same `amount` out, authorised by `owner`. */
  function SwapOutLeg(a: SwapAccounts, amount: U64): TransferCall
  {
    TransferCall(a.poolToAccount, a.userToAccount, a.owner, amount)
  }

  /** The outcome of an instruction and the state it leaves. */
  datatype Exec = Exec(result: Result<(), ProgramError>, chain: Chain)

  /** One `token::transfer` CPI followed by `?`. */
  function TransferStep(c: Chain, t: TransferCall, refuses: TransferCall -> bool): Exec
  {
    match Transfer(c.tokens, t, refuses)
    case Ok(l) => Exec(Ok(()), c.(tokens := l))
    case Err(e) => Exec(Err(TokenFailed(e)), c)
  }

  function InitializeStep(c: Chain, a: InitializeAccounts, meta: TxMeta): Exec
  {
    var v := Validate(c, meta, InitializeChecks(a));
    if v.Some? then Exec(Err(v.value), c)
    else
      var pool := SwapPool(a.tokenAMint, a.tokenBMint, a.tokenAAccount, a.tokenBAccount, a.owner);
      Exec(Ok(()), c.(pools := c.pools[a.swapPool := pool]))
  }

  function FaucetStep(c: Chain, a: FaucetAccounts, meta: TxMeta, amount: U64, refuses: TransferCall -> bool): Exec
  {
    var v := Validate(c, meta, FaucetChecks(a));
    if v.Some? then Exec(Err(v.value), c)
    else TransferStep(c, FaucetTransfer(a, amount), refuses)
  }

  function SwapStep(c: Chain, a: SwapAccounts, meta: TxMeta, amount: U64, refuses: TransferCall -> bool): Exec
  {
    var v := Validate(c, meta, SwapChecks(a));
    if v.Some? then Exec(Err(v.value), c)
    else
      var first := TransferStep(c, SwapInLeg(a, amount), refuses);
      if first.result.Err? then first
      else TransferStep(first.chain, SwapOutLeg(a, amount), refuses)
  }

  // ---------------------------------------------------------------------
  // Properties of the instructions
  // ---------------------------------------------------------------------

  /**
   * `initialize` stores exactly the five supplied keys in a pool account that
   * did not exist, and touches nothing else; on failure nothing changes.
   */
  lemma InitializeRecordsKeys(c: Chain, a: InitializeAccounts, meta: TxMeta)
    ensures var e := InitializeStep(c, a, meta);
      e.result.Ok? ==>
        && a.swapPool !in c.pools
        && a.swapPool in e.chain.pools
        && e.chain.pools[a.swapPool].tokenAMint == a.tokenAMint
        && e.chain.pools[a.swapPool].tokenBMint == a.tokenBMint
        && e.chain.pools[a.swapPool].tokenAAccount == a.tokenAAccount
        && e.chain.pools[a.swapPool].tokenBAccount == a.tokenBAccount
        && e.chain.pools[a.swapPool].owner == a.owner
        && e.chain.pools.Keys == c.pools.Keys + {a.swapPool}
        && (forall k :: k in c.pools ==> e.chain.pools[k] == c.pools[k])
        && e.chain.tokens == c.tokens && e.chain.mints == c.mints
    ensures InitializeStep(c, a, meta).result.Err? ==> InitializeStep(c, a, meta).chain == c
  {
  }

  /**
   * A successful `faucet` is one the token program accepted as a transfer of
   * `amount` from the pool token account to the user token account with
   * `owner` as its authority, and `owner` signed the transaction.
   */
  lemma FaucetAuthorisedByOwner(c: Chain, a: FaucetAccounts, meta: TxMeta, amount: U64, refuses: TransferCall -> bool)
    requires FaucetStep(c, a, meta, amount, refuses).result.Ok?
    ensures !refuses(TransferCall(a.poolTokenAccount, a.userTokenAccount, a.owner, amount))
    ensures a.owner in meta.signers
  {
    assert Meets(c, meta, FaucetChecks(a)[3]);
  }

  /**
   * A successful `swap` is one the token program accepted as two transfers
   * of the same `amount`: user-from to pool-from with `user` as authority,
   * and pool-to to user-to with `owner` as authority.
   */
  lemma SwapAuthorisedByUserAndOwner(c: Chain, a: SwapAccounts, meta: TxMeta, amount: U64, refuses: TransferCall -> bool)
    requires SwapStep(c, a, meta, amount, refuses).result.Ok?
    ensures !refuses(TransferCall(a.userFromAccount, a.poolFromAccount, a.user, amount))
    ensures !refuses(TransferCall(a.poolToAccount, a.userToAccount, a.owner, amount))
  {
  }

  /** `initialize` succeeds only when signed by the new pool account and by `owner`. */
  lemma InitializeNeedsOwner(c: Chain, a: InitializeAccounts, meta: TxMeta)
    requires InitializeStep(c, a, meta).result.Ok?
    ensures a.owner in meta.signers && a.swapPool in meta.signers
  {
    assert Meets(c, meta, InitializeChecks(a)[0]);
    assert Meets(c, meta, InitializeChecks(a)[5]);
  }

  /**
   * `faucet` moves `amount` from the pool token account to the user token
   * account, changes no other balance and no pool; on failure nothing
   * changes.
   */
  lemma FaucetMovesAmount(c: Chain, a: FaucetAccounts, meta: TxMeta, amount: U64, refuses: TransferCall -> bool)
    ensures var e := FaucetStep(c, a, meta, amount, refuses);
      && e.chain.pools == c.pools && e.chain.mints == c.mints
      && (e.result.Err? ==> e.chain == c)
      && (e.result.Ok? ==>
            && a.owner in meta.signers
            && e.chain.tokens.Keys == c.tokens.Keys
            && (forall k :: k in c.tokens && k != a.poolTokenAccount && k != a.userTokenAccount ==>
                  e.chain.tokens[k] == c.tokens[k])
            && (a.poolTokenAccount != a.userTokenAccount ==>
                  && e.chain.tokens[a.poolTokenAccount].amount == c.tokens[a.poolTokenAccount].amount - amount
                  && e.chain.tokens[a.userTokenAccount].amount == c.tokens[a.userTokenAccount].amount + amount))
  {
    var e := FaucetStep(c, a, meta, amount, refuses);
    if e.result.Ok? {
      assert Meets(c, meta, FaucetChecks(a)[3]);
    }
  }

  /**
   * `swap` takes `amount` from the user's from-account into the pool's
   * from-account and pays the same `amount` from the pool's to-account into
   * the user's to-account; no other balance and no pool changes.
   */
  lemma SwapMovesAmount(c: Chain, a: SwapAccounts, meta: TxMeta, amount: U64, refuses: TransferCall -> bool)
    requires a.userFromAccount != a.poolFromAccount && a.poolToAccount != a.userToAccount
    requires {a.userFromAccount, a.poolFromAccount} !! {a.poolToAccount, a.userToAccount}
    ensures var e := SwapStep(c, a, meta, amount, refuses);
      && e.chain.pools == c.pools && e.chain.mints == c.mints
      && (e.result.Ok? ==>
            && e.chain.tokens.Keys == c.tokens.Keys
            && e.chain.tokens[a.userFromAccount].amount == c.tokens[a.userFromAccount].amount - amount
            && e.chain.tokens[a.poolFromAccount].amount == c.tokens[a.poolFromAccount].amount + amount
            && e.chain.tokens[a.poolToAccount].amount == c.tokens[a.poolToAccount].amount - amount
            && e.chain.tokens[a.userToAccount].amount == c.tokens[a.userToAccount].amount + amount
            && forall k :: k in c.tokens && k !in {a.userFromAccount, a.poolFromAccount, a.poolToAccount, a.userToAccount} ==>
                 e.chain.tokens[k] == c.tokens[k])
  {
  }

  /** `swap` succeeds only when both `user` and `owner` have signed. */
  lemma SwapNeedsBothSigners(c: Chain, a: SwapAccounts, meta: TxMeta, amount: U64, refuses: TransferCall -> bool)
    requires a.user !in meta.signers || a.owner !in meta.signers
    ensures SwapStep(c, a, meta, amount, refuses).result.Err?
    ensures SwapStep(c, a, meta, amount, refuses).chain == c
  {
    var checks := SwapChecks(a);
    if a.user !in meta.signers {
      assert !Meets(c, meta, checks[1]);
    } else {
      assert !Meets(c, meta, checks[6]);
    }
  }

  /**
   * Errors propagate with `?`: if the first leg fails, `swap` returns its
   * error and the second leg is never run (no balance changes); if the
   * second fails, `swap` returns that error.
   */
  lemma SwapPropagatesErrors(c: Chain, a: SwapAccounts, meta: TxMeta, amount: U64, refuses: TransferCall -> bool)
    requires Validate(c, meta, SwapChecks(a)).None?
    ensures var e := SwapStep(c, a, meta, amount, refuses);
      var first := Transfer(c.tokens, SwapInLeg(a, amount), refuses);
      && (first.Err? ==> e.result == Err(TokenFailed(first.error)) && e.chain == c)
      && (first.Ok? && Transfer(first.value, SwapOutLeg(a, amount), refuses).Err? ==>
            e.result == Err(TokenFailed(Transfer(first.value, SwapOutLeg(a, amount), refuses).error)))
      && (e.result.Ok? <==> first.Ok? && Transfer(first.value, SwapOutLeg(a, amount), refuses).Ok?)
  {
  }

  /** A transfer step preserves the supply of every mint, whatever its outcome. */
  lemma TransferStepConserves(c: Chain, t: TransferCall, refuses: TransferCall -> bool, mint: Pubkey)
    ensures Supply(TransferStep(c, t, refuses).chain.tokens, mint) == Supply(c.tokens, mint)
  {
    if Transfer(c.tokens, t, refuses).Ok? {
      TransferConservesSupply(c.tokens, t, refuses, mint);
    }
  }

  /** `faucet` preserves the supply of every mint. */
  lemma FaucetConserves(c: Chain, a: FaucetAccounts, meta: TxMeta, amount: U64, refuses: TransferCall -> bool, mint: Pubkey)
    ensures Supply(FaucetStep(c, a, meta, amount, refuses).chain.tokens, mint) == Supply(c.tokens, mint)
  {
    TransferStepConserves(c, FaucetTransfer(a, amount), refuses, mint);
  }

  /** `swap` preserves the supply of every mint, on success and on either leg's failure. */
  lemma SwapConserves(c: Chain, a: SwapAccounts, meta: TxMeta, amount: U64, refuses: TransferCall -> bool, mint: Pubkey)
    ensures Supply(SwapStep(c, a, meta, amount, refuses).chain.tokens, mint) == Supply(c.tokens, mint)
  {
    var first := TransferStep(c, SwapInLeg(a, amount), refuses);
    TransferStepConserves(c, SwapInLeg(a, amount), refuses, mint);
    TransferStepConserves(first.chain, SwapOutLeg(a, amount), refuses, mint);
  }

  /**
   * `faucet` does not read the pool record: replacing what the pool account
   * stores changes neither its outcome nor the balances, so the token
   * accounts passed in are never compared with the stored keys.
   */
  lemma FaucetIgnoresPoolRecord(c: Chain, p: SwapPool, a: FaucetAccounts, meta: TxMeta,
                                amount: U64, refuses: TransferCall -> bool)
    requires a.swapPool in c.pools
    ensures var e := FaucetStep(c, a, meta, amount, refuses);
      var e' := FaucetStep(c.(pools := c.pools[a.swapPool := p]), a, meta, amount, refuses);
      e.result == e'.result && e.chain.tokens == e'.chain.tokens
  {
    var c' := c.(pools := c.pools[a.swapPool := p]);
    ValidateIgnoresPoolData(c, c', meta, FaucetChecks(a));
  }

  /** `swap` does not read the pool record either. */
  lemma SwapIgnoresPoolRecord(c: Chain, p: SwapPool, a: SwapAccounts, meta: TxMeta,
                              amount: U64, refuses: TransferCall -> bool)
    requires a.swapPool in c.pools
    ensures var e := SwapStep(c, a, meta, amount, refuses);
      var e' := SwapStep(c.(pools := c.pools[a.swapPool := p]), a, meta, amount, refuses);
      e.result == e'.result && e.chain.tokens == e'.chain.tokens
  {
    var c' := c.(pools := c.pools[a.swapPool := p]);
    ValidateIgnoresPoolData(c, c', meta, SwapChecks(a));
    var first, first' := TransferStep(c, SwapInLeg(a, amount), refuses), TransferStep(c', SwapInLeg(a, amount), refuses);
    assert first.result == first'.result && first.chain.tokens == first'.chain.tokens;
  }

  // ---------------------------------------------------------------------
  // The program as state updated in place
  // ---------------------------------------------------------------------

  /** The accounts of the cluster, which the instructions update. */
  class Cluster {
    var pools: map<Pubkey, SwapPool>
    var tokens: Ledger
    var mints: set<Pubkey>

    function State(): Chain
      reads this
    {
      Chain(pools, tokens, mints)
    }

    constructor (c: Chain)
      ensures State() == c
    {
      pools, tokens, mints := c.pools, c.tokens, c.mints;
    }

    /** `token::transfer(ctx, amount)?`: the ledger changes only on success. */
    method TokenTransfer(t: TransferCall, refuses: TransferCall -> bool) returns (r: Result<(), ProgramError>)
      modifies this`tokens
      ensures Exec(r, State()) == TransferStep(old(State()), t, refuses)
      ensures r.Err? ==> tokens == old(tokens)
    {
      var outcome := Transfer(tokens, t, refuses);
      if outcome.Err? {
        return Err(TokenFailed(outcome.error));
      }
      tokens := outcome.value;
      return Ok(());
    }

    method Initialize(a: InitializeAccounts, meta: TxMeta) returns (r: Result<(), ProgramError>)
      modifies this`pools
      ensures Exec(r, State()) == InitializeStep(old(State()), a, meta)
    {
      var v := Validate(State(), meta, InitializeChecks(a));
      if v.Some? {
        return Err(v.value);
      }
      var pool := SwapPool(a.tokenAMint, a.tokenBMint, a.tokenAAccount, a.tokenBAccount, a.owner);
      pools := pools[a.swapPool := pool];
      return Ok(());
    }

    method Faucet(a: FaucetAccounts, meta: TxMeta, amount: U64, refuses: TransferCall -> bool)
      returns (r: Result<(), ProgramError>)
      modifies this`tokens
      ensures Exec(r, State()) == FaucetStep(old(State()), a, meta, amount, refuses)
      ensures pools == old(pools)
    {
      var v := Validate(State(), meta, FaucetChecks(a));
      if v.Some? {
        return Err(v.value);
      }
      r := TokenTransfer(FaucetTransfer(a, amount), refuses);
    }

    method Swap(a: SwapAccounts, meta: TxMeta, amount: U64, refuses: TransferCall -> bool)
      returns (r: Result<(), ProgramError>)
      modifies this`tokens
      ensures Exec(r, State()) == SwapStep(old(State()), a, meta, amount, refuses)
      ensures pools == old(pools)
    {
      var v := Validate(State(), meta, SwapChecks(a));
      if v.Some? {
        return Err(v.value);
      }
      r := TokenTransfer(SwapInLeg(a, amount), refuses);
      if r.Err? {
        return;
      }
      r := TokenTransfer(SwapOutLeg(a, amount), refuses);
    }
  }
}
