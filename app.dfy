/**
 * The front end's choice of accounts: which mint and pool token account a
 * faucet request names, which mints and accounts a swap names in each
 * direction, and the request each handler submits (or that it submits
 * none). The associated-token-address derivation is the parameter `ata`,
 * a deterministic function of (mint, owner) that the model does not open.
 */
module App {
  import opened Wrappers
  import opened Token
  import opened SwapContract

  /** The fixed addresses the front end is built with. */
  datatype Deployment = Deployment(
    tokenAMint: Pubkey,
    tokenBMint: Pubkey,
    poolTokenAAccount: Pubkey,
    poolTokenBAccount: Pubkey,
    swapPool: Pubkey,
    owner: Pubkey)

  /** The pool token account that holds `mint`, as the deployment pairs them. */
  function PoolAccountFor(d: Deployment, mint: Pubkey): Pubkey
  {
    if mint == d.tokenAMint then d.poolTokenAAccount else d.poolTokenBAccount
  }

  /** The amount every faucet request asks for. */
  const FAUCET_AMOUNT: U64 := 1000

  /** `faucetToken`'s choice of (mint, pool token account): "A" picks token A, anything else token B. */
  function FaucetTarget(d: Deployment, token: string): (r: (Pubkey, Pubkey))
    ensures r.0 == d.tokenAMint || r.0 == d.tokenBMint
    ensures r.1 == d.poolTokenAAccount || r.1 == d.poolTokenBAccount
    ensures d.tokenAMint != d.tokenBMint ==> (r.0 == d.tokenAMint <==> token == "A")
    ensures d.tokenAMint != d.tokenBMint ==> r.1 == PoolAccountFor(d, r.0)
  {
    var mint := if token == "A" then d.tokenAMint else d.tokenBMint;
    var poolTokenAccount := if token == "A" then d.poolTokenAAccount else d.poolTokenBAccount;
    (mint, poolTokenAccount)
  }

  /** The mints and pool accounts of one swap direction. */
  datatype Route = Route(fromMint: Pubkey, toMint: Pubkey, poolFrom: Pubkey, poolTo: Pubkey)

  /** `swapTokens`'s choice for `fromToken`: "A" swaps A for B, anything else B for A. */
  function SwapRoute(d: Deployment, fromToken: string): (r: Route)
    ensures {r.fromMint, r.toMint} == {d.tokenAMint, d.tokenBMint}
    ensures {r.poolFrom, r.poolTo} == {d.poolTokenAAccount, d.poolTokenBAccount}
    ensures d.tokenAMint != d.tokenBMint ==>
              && r.fromMint != r.toMint
              && (r.fromMint == d.tokenAMint <==> fromToken == "A")
              && r.poolFrom == PoolAccountFor(d, r.fromMint)
              && r.poolTo == PoolAccountFor(d, r.toMint)
    ensures d.poolTokenAAccount != d.poolTokenBAccount ==> r.poolFrom != r.poolTo
  {
    var fromMint := if fromToken == "A" then d.tokenAMint else d.tokenBMint;
    var toMint := if fromToken == "A" then d.tokenBMint else d.tokenAMint;
    var poolFrom := if fromToken == "A" then d.poolTokenAAccount else d.poolTokenBAccount;
    var poolTo := if fromToken == "A" then d.poolTokenBAccount else d.poolTokenAAccount;
    Route(fromMint, toMint, poolFrom, poolTo)
  }

  /** The two directions mirror each other, and every letter other than "A" means B. */
  lemma RouteDirections(d: Deployment, t: string)
    ensures SwapRoute(d, "B").fromMint == SwapRoute(d, "A").toMint
    ensures SwapRoute(d, "B").toMint == SwapRoute(d, "A").fromMint
    ensures SwapRoute(d, "B").poolFrom == SwapRoute(d, "A").poolTo
    ensures SwapRoute(d, "B").poolTo == SwapRoute(d, "A").poolFrom
    ensures t != "A" ==> SwapRoute(d, t) == SwapRoute(d, "B") && FaucetTarget(d, t) == FaucetTarget(d, "B")
  {
  }

  /** The injected wallet; its `publicKey` may be unset. */
  datatype Wallet = Wallet(publicKey: Option<Pubkey>)

  /** The keys of the account map `faucetToken` passes, in order. */
  const FAUCET_ACCOUNT_NAMES := ["swap_pool", "pool_token_account", "user_token_account", "owner", "token_program"]

  /** The keys the test script passes for the same faucet accounts. */
  const TEST_FAUCET_ACCOUNT_NAMES := ["swapPool", "poolTokenAccount", "userTokenAccount", "owner", "tokenProgram"]

  /** The keys of the account map `swapTokens` passes, in order. */
  const SWAP_ACCOUNT_NAMES :=
    ["swapPool", "user", "userFromAccount", "userToAccount", "poolFromAccount", "poolToAccount", "owner", "tokenProgram"]

  /**
   * A submitted instruction: its amount, the accounts by role, the keys of
   * the account map as written, and the keys whose signatures the
   * transaction carries (the wallet always signs as fee payer).
   */
  datatype Rpc =
    | FaucetRpc(amount: U64, faucet: FaucetAccounts, names: seq<string>, signers: set<Pubkey>)
    | SwapRpc(amount: U64, swap: SwapAccounts, names: seq<string>, signers: set<Pubkey>)

  /** What a handler does: alert and return, return silently, fail inside its `try`, or submit. */
  datatype Action = Alerted | Returned | Failed | Submitted(rpc: Rpc)

  /** `faucetToken(token)`. */
  function FaucetToken(d: Deployment, ata: (Pubkey, Pubkey) -> Pubkey, wallet: Option<Wallet>,
                       programLoaded: bool, token: string): (act: Action)
    ensures act.Submitted? <==> wallet.Some? && wallet.value.publicKey.Some? && programLoaded
    ensures !act.Submitted? ==> act == Alerted
    ensures act.Submitted? ==>
              var w := wallet.value.publicKey.value;
              var (mint, pool) := FaucetTarget(d, token);
              && act.rpc.FaucetRpc?
              && act.rpc.amount == FAUCET_AMOUNT
              && act.rpc.faucet == FaucetAccounts(d.swapPool, pool, ata(mint, w), d.owner)
              && act.rpc.signers == {d.owner, w}
  {
    if wallet.None? || wallet.value.publicKey.None? || !programLoaded then Alerted
    else
      var w := wallet.value.publicKey.value;
      var (mint, poolTokenAccount) := FaucetTarget(d, token);
      var userTokenAccount := ata(mint, w);
      Submitted(FaucetRpc(FAUCET_AMOUNT, FaucetAccounts(d.swapPool, poolTokenAccount, userTokenAccount, d.owner),
                          FAUCET_ACCOUNT_NAMES, {d.owner, w}))
  }

  /**
   * `swapTokens(fromToken, amount)`. Without a wallet or program it returns
   * silently; a wallet without a public key makes the address derivation
   * throw, which the handler catches.
   */
  function SwapTokens(d: Deployment, ata: (Pubkey, Pubkey) -> Pubkey, wallet: Option<Wallet>,
                      programLoaded: bool, fromToken: string, amount: U64): (act: Action)
    ensures wallet.None? || !programLoaded ==> act == Returned
    ensures wallet.Some? && wallet.value.publicKey.None? && programLoaded ==> act == Failed
    ensures act.Submitted? <==> wallet.Some? && wallet.value.publicKey.Some? && programLoaded
    ensures act.Submitted? ==>
              var w := wallet.value.publicKey.value;
              var r := SwapRoute(d, fromToken);
              && act.rpc.SwapRpc?
              && act.rpc.amount == amount
              && act.rpc.swap.user == w && act.rpc.swap.owner == w
              && act.rpc.swap.userFromAccount == ata(r.fromMint, w)
              && act.rpc.swap.userToAccount == ata(r.toMint, w)
              && act.rpc.swap.poolFromAccount == r.poolFrom
              && act.rpc.swap.poolToAccount == r.poolTo
              && act.rpc.signers == {w}
  {
    if wallet.None? || !programLoaded then Returned
    else if wallet.value.publicKey.None? then Failed
    else
      var w := wallet.value.publicKey.value;
      var r := SwapRoute(d, fromToken);
      var userFromAccount := ata(r.fromMint, w);
      var userToAccount := ata(r.toMint, w);
      Submitted(SwapRpc(amount, SwapAccounts(d.swapPool, w, userFromAccount, userToAccount, r.poolFrom, r.poolTo, w),
                        SWAP_ACCOUNT_NAMES, {w}))
  }

  /**
   * `swapTokens` with the owner role filled as the faucet handler and the
   * test script fill it: the deployment's owner key, which co-signs.
   */
  function SwapTokensOwnerSigned(d: Deployment, ata: (Pubkey, Pubkey) -> Pubkey, wallet: Option<Wallet>,
                                 programLoaded: bool, fromToken: string, amount: U64): (act: Action)
    ensures wallet.None? || !programLoaded ==> act == Returned
    ensures wallet.Some? && wallet.value.publicKey.None? && programLoaded ==> act == Failed
    ensures act.Submitted? <==> wallet.Some? && wallet.value.publicKey.Some? && programLoaded
    ensures act.Submitted? ==>
              var w := wallet.value.publicKey.value;
              var r := SwapRoute(d, fromToken);
              && act.rpc.SwapRpc?
              && act.rpc.amount == amount
              && act.rpc.swap.user == w && act.rpc.swap.owner == d.owner
              && act.rpc.swap.userFromAccount == ata(r.fromMint, w)
              && act.rpc.swap.userToAccount == ata(r.toMint, w)
              && act.rpc.swap.poolFromAccount == r.poolFrom
              && act.rpc.swap.poolToAccount == r.poolTo
              && act.rpc.signers == {w, d.owner}
  {
    if wallet.None? || !programLoaded then Returned
    else if wallet.value.publicKey.None? then Failed
    else
      var w := wallet.value.publicKey.value;
      var r := SwapRoute(d, fromToken);
      var userFromAccount := ata(r.fromMint, w);
      var userToAccount := ata(r.toMint, w);
      Submitted(SwapRpc(amount, SwapAccounts(d.swapPool, w, userFromAccount, userToAccount, r.poolFrom, r.poolTo, d.owner),
                        SWAP_ACCOUNT_NAMES, {w, d.owner}))
  }

  /** The faucet's account map uses snake_case keys where the test and the swap handler use camelCase. */
  lemma FaucetAccountNamesDiffer()
    ensures |FAUCET_ACCOUNT_NAMES| == |TEST_FAUCET_ACCOUNT_NAMES|
    ensures forall i :: 0 <= i < |FAUCET_ACCOUNT_NAMES| ==>
              (FAUCET_ACCOUNT_NAMES[i] == TEST_FAUCET_ACCOUNT_NAMES[i] <==> i == 3)
    ensures forall i, j :: 0 <= i < |FAUCET_ACCOUNT_NAMES| && 0 <= j < |SWAP_ACCOUNT_NAMES| ==>
              (FAUCET_ACCOUNT_NAMES[i] == SWAP_ACCOUNT_NAMES[j] <==>
                 FAUCET_ACCOUNT_NAMES[i] == "owner" && SWAP_ACCOUNT_NAMES[j] == "owner")
  {
  }
}
