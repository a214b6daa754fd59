/**
 * The front end's requests fed to the program: what a swap or a faucet
 * request built by the handlers does to the balances once the program runs
 * it.
 */
module EndToEnd {
  import opened Wrappers
  import opened Token
  import opened SwapContract
  import opened App

  /**
   * The metadata a request reaches the program with: the signatures the
   * transaction carries, and as writable the accounts the instruction
   * declares `mut` (the client marks them from the interface description).
   */
  function FaucetMeta(rpc: Rpc): TxMeta
    requires rpc.FaucetRpc?
  {
    TxMeta(rpc.signers, RequiredWritable(FaucetChecks(rpc.faucet)))
  }

  function SwapMeta(rpc: Rpc): TxMeta
    requires rpc.SwapRpc?
  {
    TxMeta(rpc.signers, RequiredWritable(SwapChecks(rpc.swap)))
  }

  /** Both legs of a swap the front end submits are authorised by the connected wallet. */
  lemma UiSwapAuthorisedByWallet(d: Deployment, ata: (Pubkey, Pubkey) -> Pubkey, w: Pubkey, fromToken: string, x: U64)
    ensures var act := SwapTokens(d, ata, Some(Wallet(Some(w))), true, fromToken, x);
      && act.Submitted?
      && SwapInLeg(act.rpc.swap, x).authority == w
      && SwapOutLeg(act.rpc.swap, x).authority == w
  {
  }

  /** A faucet request the front end submits is authorised by the deployment's owner key. */
  lemma UiFaucetAuthorisedByOwner(d: Deployment, ata: (Pubkey, Pubkey) -> Pubkey, w: Pubkey, token: string)
    ensures var act := FaucetToken(d, ata, Some(Wallet(Some(w))), true, token);
      && act.Submitted?
      && FaucetTransfer(act.rpc.faucet, act.rpc.amount).authority == d.owner
      && FaucetTransfer(act.rpc.faucet, act.rpc.amount).amount == FAUCET_AMOUNT
  {
  }

  /** The token accounts a swap route touches are distinct and hold the right mints. */
  predicate SwapReady(d: Deployment, c: Chain, r: Route, userFrom: Pubkey, userTo: Pubkey)
  {
    && d.swapPool in c.pools
    && userFrom != userTo
    && {userFrom, userTo} !! {r.poolFrom, r.poolTo}
    && userFrom in c.tokens && userTo in c.tokens && r.poolFrom in c.tokens && r.poolTo in c.tokens
    && c.tokens[userFrom].mint == c.tokens[r.poolFrom].mint == r.fromMint
    && c.tokens[userTo].mint == c.tokens[r.poolTo].mint == r.toMint
  }

  /**
   * A swap of `x` requested in the front end, once the token program
   * accepts both legs and the balances allow them, takes `x` of the from-mint
   * from the user's associated account into the pool's account for that
   * mint, and pays `x` of the other mint from the pool's account for it into
   * the user's associated account for it.
   */
  lemma UiSwapMovesTokens(d: Deployment, ata: (Pubkey, Pubkey) -> Pubkey, w: Pubkey, fromToken: string,
                          x: U64, c: Chain, refuses: TransferCall -> bool)
    requires d.tokenAMint != d.tokenBMint && d.poolTokenAAccount != d.poolTokenBAccount
    requires SwapReady(d, c, SwapRoute(d, fromToken), ata(SwapRoute(d, fromToken).fromMint, w),
                       ata(SwapRoute(d, fromToken).toMint, w))
    requires x <= c.tokens[ata(SwapRoute(d, fromToken).fromMint, w)].amount
    requires x <= c.tokens[SwapRoute(d, fromToken).poolTo].amount
    requires c.tokens[SwapRoute(d, fromToken).poolFrom].amount + x <= U64_MAX
    requires c.tokens[ata(SwapRoute(d, fromToken).toMint, w)].amount + x <= U64_MAX
    requires !refuses(TransferCall(ata(SwapRoute(d, fromToken).fromMint, w), SwapRoute(d, fromToken).poolFrom, w, x))
    requires !refuses(TransferCall(SwapRoute(d, fromToken).poolTo, ata(SwapRoute(d, fromToken).toMint, w), w, x))
    ensures var act := SwapTokens(d, ata, Some(Wallet(Some(w))), true, fromToken, x);
      var fromMint := if fromToken == "A" then d.tokenAMint else d.tokenBMint;
      var toMint := if fromToken == "A" then d.tokenBMint else d.tokenAMint;
      && act.Submitted?
      && var e := SwapStep(c, act.rpc.swap, SwapMeta(act.rpc), x, refuses);
      && e.result.Ok?
      && e.chain.tokens[ata(fromMint, w)].amount == c.tokens[ata(fromMint, w)].amount - x
      && e.chain.tokens[PoolAccountFor(d, fromMint)].amount == c.tokens[PoolAccountFor(d, fromMint)].amount + x
      && e.chain.tokens[PoolAccountFor(d, toMint)].amount == c.tokens[PoolAccountFor(d, toMint)].amount - x
      && e.chain.tokens[ata(toMint, w)].amount == c.tokens[ata(toMint, w)].amount + x
  {
    var act := SwapTokens(d, ata, Some(Wallet(Some(w))), true, fromToken, x);
    var a := act.rpc.swap;
    var meta := SwapMeta(act.rpc);
    var checks := SwapChecks(a);
    forall i | 0 <= i < |checks| ensures Meets(c, meta, checks[i]) {
      if checks[i].writable {
        assert checks[i].key in RequiredWritable(checks);
      }
    }
    SwapMovesAmount(c, a, meta, x, refuses);
  }

  /**
   * A faucet request for `token`, once the token program accepts it and the
   * pool account holds enough, moves 1000 of that token from the pool's
   * account into the user's associated account.
   */
  lemma UiFaucetMovesTokens(d: Deployment, ata: (Pubkey, Pubkey) -> Pubkey, w: Pubkey, token: string,
                            c: Chain, refuses: TransferCall -> bool)
    requires d.tokenAMint != d.tokenBMint
    requires d.swapPool in c.pools
    requires FaucetTarget(d, token).1 != ata(FaucetTarget(d, token).0, w)
    requires FaucetTarget(d, token).1 in c.tokens && ata(FaucetTarget(d, token).0, w) in c.tokens
    requires c.tokens[FaucetTarget(d, token).1].mint == c.tokens[ata(FaucetTarget(d, token).0, w)].mint
    requires FAUCET_AMOUNT <= c.tokens[FaucetTarget(d, token).1].amount
    requires c.tokens[ata(FaucetTarget(d, token).0, w)].amount + FAUCET_AMOUNT <= U64_MAX
    requires !refuses(TransferCall(FaucetTarget(d, token).1, ata(FaucetTarget(d, token).0, w), d.owner, FAUCET_AMOUNT))
    ensures var act := FaucetToken(d, ata, Some(Wallet(Some(w))), true, token);
      var mint := if token == "A" then d.tokenAMint else d.tokenBMint;
      && act.Submitted?
      && var e := FaucetStep(c, act.rpc.faucet, FaucetMeta(act.rpc), act.rpc.amount, refuses);
      && e.result.Ok?
      && e.chain.tokens[PoolAccountFor(d, mint)].amount == c.tokens[PoolAccountFor(d, mint)].amount - FAUCET_AMOUNT
      && e.chain.tokens[ata(mint, w)].amount == c.tokens[ata(mint, w)].amount + FAUCET_AMOUNT
  {
  }

  /**
   * The token program's rule for who may move tokens: a transfer is refused
   * unless its authority owns the debited account (delegates aside).
   * Transfers never change owners, so the rule read off the ledger before
   * an instruction holds for all of its legs.
   */
  function OwnerRule(l: Ledger): TransferCall -> bool
  {
    (t: TransferCall) => t.from in l && l[t.from].owner != t.authority
  }

  /**
   * As written, the front end's swap names the wallet as `owner`, so the
   * second leg, which spends the pool's account, is authorised by the
   * wallet: when the wallet does not own that account the owner rule
   * refuses it and the program returns `Refused`. The state the model
   * leaves is the one the program's `?` stops at, with the first leg's
   * debit of the user applied; the runtime then rolls the failed
   * transaction back, which this model does not include.
   */
  lemma UiSwapRefusedByOwnerRule(d: Deployment, ata: (Pubkey, Pubkey) -> Pubkey, w: Pubkey, fromToken: string,
                                 x: U64, c: Chain)
    requires d.tokenAMint != d.tokenBMint && d.poolTokenAAccount != d.poolTokenBAccount
    requires SwapReady(d, c, SwapRoute(d, fromToken), ata(SwapRoute(d, fromToken).fromMint, w),
                       ata(SwapRoute(d, fromToken).toMint, w))
    requires c.tokens[ata(SwapRoute(d, fromToken).fromMint, w)].owner == w
    requires c.tokens[SwapRoute(d, fromToken).poolTo].owner != w
    requires x <= c.tokens[ata(SwapRoute(d, fromToken).fromMint, w)].amount
    requires x <= c.tokens[SwapRoute(d, fromToken).poolTo].amount
    requires c.tokens[SwapRoute(d, fromToken).poolFrom].amount + x <= U64_MAX
    ensures var act := SwapTokens(d, ata, Some(Wallet(Some(w))), true, fromToken, x);
      && act.Submitted?
      && var e := SwapStep(c, act.rpc.swap, SwapMeta(act.rpc), x, OwnerRule(c.tokens));
      && e.result == Err(TokenFailed(Refused))
      && e.chain.tokens[act.rpc.swap.userFromAccount].amount == c.tokens[act.rpc.swap.userFromAccount].amount - x
  {
  }

  /**
   * With the owner key filling the owner role and co-signing, the swap goes
   * through under the owner rule whenever the pool's accounts belong to the
   * owner, the user's accounts to the wallet, and the balances allow it.
   */
  lemma OwnerSignedSwapMovesTokens(d: Deployment, ata: (Pubkey, Pubkey) -> Pubkey, w: Pubkey, fromToken: string,
                                   x: U64, c: Chain)
    requires d.tokenAMint != d.tokenBMint && d.poolTokenAAccount != d.poolTokenBAccount
    requires SwapReady(d, c, SwapRoute(d, fromToken), ata(SwapRoute(d, fromToken).fromMint, w),
                       ata(SwapRoute(d, fromToken).toMint, w))
    requires c.tokens[ata(SwapRoute(d, fromToken).fromMint, w)].owner == w
    requires c.tokens[SwapRoute(d, fromToken).poolTo].owner == d.owner
    requires x <= c.tokens[ata(SwapRoute(d, fromToken).fromMint, w)].amount
    requires x <= c.tokens[SwapRoute(d, fromToken).poolTo].amount
    requires c.tokens[SwapRoute(d, fromToken).poolFrom].amount + x <= U64_MAX
    requires c.tokens[ata(SwapRoute(d, fromToken).toMint, w)].amount + x <= U64_MAX
    ensures var act := SwapTokensOwnerSigned(d, ata, Some(Wallet(Some(w))), true, fromToken, x);
      var fromMint := if fromToken == "A" then d.tokenAMint else d.tokenBMint;
      var toMint := if fromToken == "A" then d.tokenBMint else d.tokenAMint;
      && act.Submitted?
      && var e := SwapStep(c, act.rpc.swap, SwapMeta(act.rpc), x, OwnerRule(c.tokens));
      && e.result.Ok?
      && e.chain.tokens[ata(fromMint, w)].amount == c.tokens[ata(fromMint, w)].amount - x
      && e.chain.tokens[PoolAccountFor(d, fromMint)].amount == c.tokens[PoolAccountFor(d, fromMint)].amount + x
      && e.chain.tokens[PoolAccountFor(d, toMint)].amount == c.tokens[PoolAccountFor(d, toMint)].amount - x
      && e.chain.tokens[ata(toMint, w)].amount == c.tokens[ata(toMint, w)].amount + x
  {
    var act := SwapTokensOwnerSigned(d, ata, Some(Wallet(Some(w))), true, fromToken, x);
    var a := act.rpc.swap;
    var meta := SwapMeta(act.rpc);
    var checks := SwapChecks(a);
    forall i | 0 <= i < |checks| ensures Meets(c, meta, checks[i]) {
      if checks[i].writable {
        assert checks[i].key in RequiredWritable(checks);
      }
    }
    var first := Transfer(c.tokens, SwapInLeg(a, x), OwnerRule(c.tokens));
    assert first.Ok?;
    assert first.value[a.poolToAccount] == c.tokens[a.poolToAccount];
    SwapMovesAmount(c, a, meta, x, OwnerRule(c.tokens));
  }
}
