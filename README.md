# Token swap: on-chain program and client account selection

This project models the two pieces of the token-swap demo that hold logic.

- **The on-chain swap program** (`programs/swap_contract/src/lib.rs`). It is an Anchor program with three instructions:
  - `initialize` writes five keys into a `SwapPool` account.
  - `faucet` moves `amount` from a pool token account to a user token account.
  - `swap` runs two transfers of the same `amount`. The first goes user-from → pool-from, authorised by `user`. The second goes pool-to → user-to, authorised by `owner`.
  The model also covers the signer, writable and account-type constraints of the `Initialize`, `Faucet` and `Swap` account structs.
- **The front end's account selection** (`swap-frontend/src/App.js`). `faucetToken` and `swapTokens` turn a token letter or a swap direction into mints, pool accounts and associated token accounts. They then submit a request, or return early when the wallet or program is missing.

Files:

- `wrappers.dfy`: `Option` and `Result`.
- `token.dfy`: the SPL Token side.
  - Token accounts, and a ledger `map<Pubkey, TokenAccount>` with u64 balances.
  - `token::transfer`, specified by its contract: it debits `from` and credits `to` by `amount`, or returns an error and changes nothing.
  - The supply of each mint as a sum over the ledger, and the proof that a transfer preserves it.
- `swap_contract.dfy`: the program. It has three parts:
  - The `SwapPool` record and its stored layout.
  - The account-constraint tables and their validation.
  - Each instruction as a pure step function over a `Chain` state, with lemmas about each step. The class `Cluster` holds that state in mutable fields. Its methods run the instructions in place and are proved equal to the step functions.
- `app.dfy`: the client-side selection and the two handlers, as functions.
- `end_to_end.dfy`: feeds the requests the handlers build into the program's steps.

The transfer's body is not in this repository, so its outcome is split in two:
- The model's `Transfer` spells out the checks a per-mint u64 ledger needs: the account is missing, funds are insufficient, the mints differ, or the credit overflows.
- Every other refusal comes from the parameter `refuses: TransferCall -> bool`. This covers the authority's ownership or delegation, a missing signature and a frozen account.

`getAssociatedTokenAddress` is the parameter `ata: (Pubkey, Pubkey) -> Pubkey`. It is deterministic by construction and is otherwise left unopened.

The swap rate is a fixed 1:1: both transfers of `swap` carry the same `amount` (lib.rs lines 45-61). The handlers only call `.rpc()`. They do no blockhash handling, signature preparation or retries, so the model has none.

## Model

| member | source | states |
|---|---|---|
| Token.Transfer | programs/swap_contract/src/lib.rs:28-35 | On success the ledger keeps the same accounts. `from` loses `amount` and `to` gains it (no change when `from == to`). No other account, mint or owner changes. Success requires both accounts to exist, hold the same mint and be accepted by the token program. |
| Token.TransferConservesSupply | programs/swap_contract/src/lib.rs:35 | A successful transfer leaves the total supply of every mint over the whole ledger unchanged. |
| SwapContract.Serialize | programs/swap_contract/src/lib.rs:128-135 | A stored pool is exactly `8 + 32 * 5` bytes: the 8-byte discriminator, then the five keys. |
| SwapContract.Deserialize | programs/swap_contract/src/lib.rs:128-135 | Reading a pool succeeds exactly when the data has at least `8 + 32 * 5` bytes and starts with the discriminator. |
| SwapContract.PoolRoundTrip | programs/swap_contract/src/lib.rs:69 | The space allocated by `init` holds the record: reading back a stored pool gives the same five keys. |
| SwapContract.Validate | programs/swap_contract/src/lib.rs:67-126 | Account validation succeeds if and only if every field's constraint holds. Otherwise the error is one of the failing fields' errors. |
| SwapContract.ValidatedSigners | programs/swap_contract/src/lib.rs:67-126 | After successful validation, every key a struct requires to sign has signed, and every key it declares `mut` is writable. |
| SwapContract.DeclaredSigners | programs/swap_contract/src/lib.rs:67-126 | `Initialize` requires the new pool and `owner` to sign. `Faucet` requires `owner`. `Swap` requires `user` and `owner`. |
| SwapContract.ValidateIgnoresPoolData | programs/swap_contract/src/lib.rs:85-126 | Validation depends only on which accounts exist, not on what a pool account stores. |
| SwapContract.SwapAuthorisedByUserAndOwner | programs/swap_contract/src/lib.rs:44-61 | A successful swap is one the token program accepted as two transfers of the same amount: user-from → pool-from with `user` as authority, and pool-to → user-to with `owner` as authority. |
| SwapContract.InitializeRecordsKeys | programs/swap_contract/src/lib.rs:11-21 | On success the new pool account (absent before) holds exactly the five supplied keys, and no other pool, balance or mint changes. On failure nothing changes. |
| SwapContract.InitializeNeedsOwner | programs/swap_contract/src/lib.rs:67-79 | `initialize` succeeds only when `owner` and the new pool account have signed. |
| SwapContract.FaucetAuthorisedByOwner | programs/swap_contract/src/lib.rs:28-35 | A successful faucet is one the token program accepted as a transfer of `amount` from `pool_token_account` to `user_token_account` with `owner` as authority, and `owner` signed. |
| SwapContract.FaucetMovesAmount | programs/swap_contract/src/lib.rs:24-37 | Pools and mints never change. On failure nothing changes. On success `owner` has signed, only the two named balances change, and they move by −amount and +amount. |
| SwapContract.SwapMovesAmount | programs/swap_contract/src/lib.rs:40-64 | Pools never change. On success the same amount moves each way (the 1:1 rate): user-from −amount, pool-from +amount, pool-to −amount, user-to +amount, and no other balance changes. |
| SwapContract.SwapNeedsBothSigners | programs/swap_contract/src/lib.rs:102-126 | If `user` or `owner` has not signed, `swap` fails and nothing changes. |
| SwapContract.SwapPropagatesErrors | programs/swap_contract/src/lib.rs:52-61 | A failing first leg is returned and nothing changes: the second leg never runs. A failing second leg's error is returned. The swap succeeds if and only if both legs do. |
| SwapContract.TransferStepConserves | programs/swap_contract/src/lib.rs:35 | A transfer followed by `?` preserves every mint's supply, whatever the outcome. |
| SwapContract.FaucetConserves | programs/swap_contract/src/lib.rs:24-37 | `faucet` preserves every mint's supply. |
| SwapContract.SwapConserves | programs/swap_contract/src/lib.rs:40-64 | `swap` preserves every mint's supply: on success, and on failure of either leg. |
| SwapContract.FaucetIgnoresPoolRecord | programs/swap_contract/src/lib.rs:24-37 | Replacing the stored pool record changes neither the outcome nor the balances of `faucet`. The stored keys are never compared with the passed accounts. |
| SwapContract.SwapIgnoresPoolRecord | programs/swap_contract/src/lib.rs:40-64 | The same holds for `swap`. |
| SwapContract.Cluster.TokenTransfer | programs/swap_contract/src/lib.rs:35 | In place: the ledger takes the transfer's result on success and stays as it was on error. |
| SwapContract.Cluster.Initialize | programs/swap_contract/src/lib.rs:11-21 | In place: the result and the new state are those of `InitializeStep` on the old state. |
| SwapContract.Cluster.Faucet | programs/swap_contract/src/lib.rs:24-37 | In place: equal to `FaucetStep` on the old state. The pools are untouched. |
| SwapContract.Cluster.Swap | programs/swap_contract/src/lib.rs:40-64 | In place: equal to `SwapStep` on the old state (two transfers with early return). The pools are untouched. |
| App.FaucetTarget | swap-frontend/src/App.js:90-92 | Picks one of the two mints and one of the two pool accounts. With distinct mints, it picks token A exactly for "A", and the pool account is the one paired with the chosen mint. |
| App.SwapRoute | swap-frontend/src/App.js:123-138 | From-mint and to-mint are the two mints, and the pool accounts are the two pool accounts. With distinct mints, the from-mint is A exactly for "A", the mints differ, and each pool account is the one paired with its mint. With distinct pool accounts, pool-from ≠ pool-to. |
| App.RouteDirections | swap-frontend/src/App.js:123-138 | Direction "B" exchanges from and to, for mints and for pool accounts. Any letter other than "A" acts as "B", for swaps and for the faucet. |
| App.FaucetToken | swap-frontend/src/App.js:83-110 | Submits if and only if the wallet, its public key and the program are all present; otherwise it alerts. A submission asks for 1000 of the chosen token, from its pool account to `ata(mint, wallet)`, with the deployment's owner as authority, signed by owner and wallet. |
| App.SwapTokens | swap-frontend/src/App.js:119-152 | Returns silently without a wallet or program. It fails when the wallet has no key. Otherwise it submits with `user = owner = wallet`, the user accounts `ata(fromMint, wallet)` and `ata(toMint, wallet)`, the route's pool accounts and the given amount, signed by the wallet alone. |
| App.SwapTokensOwnerSigned | tests/swap_contract.js:133-145 | The corrected handler: the same as `SwapTokens`, except that `owner` is the deployment's owner key, which co-signs. |
| App.FaucetAccountNamesDiffer | swap-frontend/src/App.js:102-108 | The faucet's account-map keys are snake_case and match the camelCase keys used by the test script and the swap handler only at `owner`. |
| EndToEnd.UiSwapAuthorisedByWallet | swap-frontend/src/App.js:140-152 | Both legs of a front-end swap, including the leg that spends the pool's account, are authorised by the connected wallet. |
| EndToEnd.UiFaucetAuthorisedByOwner | swap-frontend/src/App.js:100-110 | A front-end faucet transfer is authorised by the deployment's owner key and moves 1000. |
| EndToEnd.UiSwapMovesTokens | swap-frontend/src/App.js:119-152 | Suppose the token program accepts both legs and the balances allow them. Then a front-end swap of x moves x of the from-mint from the user's associated account into the pool's account for that mint, and x of the other mint from the pool's account into the user's associated account. |
| EndToEnd.UiFaucetMovesTokens | swap-frontend/src/App.js:83-110 | Suppose the client library accepts the faucet's account map, the token program accepts the transfer, and the pool account holds enough. Then a front-end faucet request, as the program receives it by role, moves 1000 of the chosen token from its pool account into the user's associated account. |
| EndToEnd.UiSwapRefusedByOwnerRule | swap-frontend/src/App.js:140-152 | Under the rule that the authority must own the debited account, a front-end swap by a wallet that does not own the pool-to account makes the program return `Refused` on the second leg. The state the model leaves is where the program's `?` stops, with the first leg applied; the runtime then reverts the failed transaction. |
| EndToEnd.OwnerSignedSwapMovesTokens | tests/swap_contract.js:133-145 | Under the same rule, the corrected handler's swap succeeds and moves x each way, when the pool accounts belong to the owner and the user accounts to the wallet. |

## Left out

- Transaction atomicity: when a later leg fails, the Solana runtime rolls back the whole transaction. The model stops at the program's own `?`. On a second-leg failure, the model's state is the state after the first leg.
- SPL Token internals: owner, delegate, signature and frozen checks are the parameter `refuses`, not modelled rules. Which error the token program reports when several checks fail is the model's own order.
- The `Program<'info, Token>`, `Program<'info, System>` and `Sysvar<'info, Rent>` checks: the model assumes the program passed is the token program.
- Lamports: rent paid by `owner` for the new pool account is not modelled.
- Account ownership by programs: `Account<'info, T>` typing is modelled as membership in the cluster's pool, token-account or mint maps. "Already in use" looks only at those maps.
- Validation order: the model reports the first failing field in declaration order. Anchor's own error precedence (typing before constraints) is not modelled.
- The discriminator bytes: they are a hash of the account name, which the model takes as a parameter.
- `initializePool`'s fetch-then-initialize flow (App.js lines 49-81): network-dependent, and `fetch` throws for a missing account.
- Wallet connection, the RPC connection, provider construction, `.rpc()` submission and confirmation, and the React components: network I/O and third-party code.
- `getAssociatedTokenAddress`: derivation by hashing is not modelled. The model uses the parameter `ata`; where distinct addresses matter, the lemmas assume them.
- Account-map resolution: the Anchor client's lookup of account-map keys is third-party code. The faucet's snake_case keys are recorded (`App.FaucetAccountNamesDiffer`), but what the client library does with them is not modelled.
- EndToEnd.UiFaucetMovesTokens: assumes the faucet's snake_case account-map keys reach the program as the faucet's roles. The lemma feeds the request to the program by role and never reads its keys. If the interface description uses the camelCase names of the test script, the client library cannot resolve `swapPool`, and no request is sent.
- Amount conversions: JavaScript `Number` and `BN` conversions of the swap amount, and the UI's float parsing, are not modelled. Amounts are u64 values.
- The hard-coded keys and secret material: the deployment's addresses are a `Deployment` value.
- SwapContract.SwapMovesAmount: states the four balance changes only when user-from ≠ pool-from, pool-to ≠ user-to, and the two pairs are disjoint. With aliased accounts the changes add up differently. `SwapConserves` still holds.

## Findings

| source | as written | input that shows it | evidently intended | confidence | as-written member | corrected member |
|---|---|---|---|---|---|---|
| swap-frontend/src/App.js:149 | `swapTokens` passes `wallet.publicKey` as the `owner` account and gets no owner signature, so the pool-to leg is authorised by the connected wallet | a wallet that does not own the pool's token accounts (they belong to the deployment owner), with a token program that refuses an authority not owning the debited account | pass the deployment owner's key as `owner` and have it co-sign, as `faucetToken` (App.js:106-109) and the test script (tests/swap_contract.js:141-144) do | medium; not executed | EndToEnd.UiSwapRefusedByOwnerRule | EndToEnd.OwnerSignedSwapMovesTokens |
