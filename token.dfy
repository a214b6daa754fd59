/**
 * The part of the SPL Token program that the swap program reaches through
 * `token::transfer`: token accounts, the ledger of their balances, and the
 * transfer instruction, specified by its contract (debit `from` and credit
 * `to` by `amount`, or fail and change nothing).
 */
module Token {
  import opened Wrappers

  const KEY_LEN := 32
  const U64_MAX := 0xFFFF_FFFF_FFFF_FFFF

  /** A 32-byte public key or program-derived address. */
  type Pubkey = k: seq<bv8> | |k| == KEY_LEN witness seq(32, _ => 0)

  /** The Rust `u64` amounts are unbounded integers restricted to its range. */
  type U64 = x: int | 0 <= x <= U64_MAX

  /** A token account: which mint it holds, who may spend it, and its balance. */
  datatype TokenAccount = TokenAccount(mint: Pubkey, owner: Pubkey, amount: U64)

  /** Every token account of the cluster, by address. */
  type Ledger = map<Pubkey, TokenAccount>

  /** The accounts of an `anchor_spl::token::Transfer` CPI together with its amount. */
  datatype TransferCall = TransferCall(from: Pubkey, to: Pubkey, authority: Pubkey, amount: U64)

  /**
   * `Refused` stands for every check of the token program that the model
   * does not spell out (the authority's ownership or delegation, its
   * signature, a frozen account); which transfers it refuses is the
   * parameter `refuses`.
   */
  datatype TokenError = UninitializedAccount | InsufficientFunds | MintMismatch | Refused | Overflow

  /** The debit half of a transfer. */
  function Debit(l: Ledger, k: Pubkey, x: U64): Ledger
    requires k in l && x <= l[k].amount
  {
    l[k := l[k].(amount := l[k].amount - x)]
  }

  /**
   * `token::transfer`: on success the new ledger; on failure the error, the
   * caller keeping the old ledger. The amount is debited first and then
   * credited, so a transfer of an account to itself leaves it as it was.
   */
  function Transfer(l: Ledger, t: TransferCall, refuses: TransferCall -> bool): (r: Result<Ledger, TokenError>)
    ensures r.Ok? ==> t.from in l && t.to in l && l[t.from].mint == l[t.to].mint && !refuses(t)
    ensures r.Ok? ==> r.value.Keys == l.Keys
    ensures r.Ok? && t.from != t.to ==>
              r.value[t.from].amount == l[t.from].amount - t.amount &&
              r.value[t.to].amount == l[t.to].amount + t.amount
    ensures r.Ok? && t.from == t.to ==> r.value == l
    ensures r.Ok? ==> forall k :: k in l && k != t.from && k != t.to ==> r.value[k] == l[k]
    ensures r.Ok? ==> forall k :: k in l ==> r.value[k].mint == l[k].mint && r.value[k].owner == l[k].owner
  {
    if t.from !in l || t.to !in l then Err(UninitializedAccount)
    else if l[t.from].amount < t.amount then Err(InsufficientFunds)
    else if l[t.from].mint != l[t.to].mint then Err(MintMismatch)
    else if refuses(t) then Err(Refused)
    else
      var debited := Debit(l, t.from, t.amount);
      var dst := debited[t.to];
      if dst.amount + t.amount > U64_MAX then Err(Overflow)
      else Ok(debited[t.to := dst.(amount := dst.amount + t.amount)])
  }

  /** What an account contributes to the supply of `mint`. */
  function Held(a: TokenAccount, mint: Pubkey): nat
  {
    if a.mint == mint then a.amount else 0
  }

  /** The total balance of `mint` over the accounts `keys` of the ledger. */
  ghost function SupplyOver(l: Ledger, keys: set<Pubkey>, mint: Pubkey): nat
    requires keys <= l.Keys
    decreases keys
  {
    if keys == {} then 0
    else
      var k :| k in keys;
      Held(l[k], mint) + SupplyOver(l, keys - {k}, mint)
  }

  /** The total balance of `mint` over the whole ledger. */
  ghost function Supply(l: Ledger, mint: Pubkey): nat
  {
    SupplyOver(l, l.Keys, mint)
  }

  /** Any account of `keys` can be taken out of the sum first. */
  lemma {:induction false} SupplyOverRemove(l: Ledger, keys: set<Pubkey>, k: Pubkey, mint: Pubkey)
    requires keys <= l.Keys && k in keys
    ensures SupplyOver(l, keys, mint) == Held(l[k], mint) + SupplyOver(l, keys - {k}, mint)
    decreases keys
  {
    var j :| j in keys && SupplyOver(l, keys, mint) == Held(l[j], mint) + SupplyOver(l, keys - {j}, mint);
    if j != k {
      SupplyOverRemove(l, keys - {j}, k, mint);
      SupplyOverRemove(l, keys - {k}, j, mint);
      assert keys - {j} - {k} == keys - {k} - {j};
    }
  }

  /** The sum only depends on the accounts it ranges over. */
  lemma {:induction false} SupplyOverFrame(l: Ledger, l': Ledger, keys: set<Pubkey>, mint: Pubkey)
    requires keys <= l.Keys && keys <= l'.Keys
    requires forall k :: k in keys ==> l[k] == l'[k]
    ensures SupplyOver(l, keys, mint) == SupplyOver(l', keys, mint)
    decreases keys
  {
    if keys != {} {
      var k :| k in keys && SupplyOver(l, keys, mint) == Held(l[k], mint) + SupplyOver(l, keys - {k}, mint);
      SupplyOverFrame(l, l', keys - {k}, mint);
      SupplyOverRemove(l', keys, k, mint);
    }
  }

  /** A successful transfer neither creates nor destroys tokens of any mint. */
  lemma TransferConservesSupply(l: Ledger, t: TransferCall, refuses: TransferCall -> bool, mint: Pubkey)
    requires Transfer(l, t, refuses).Ok?
    ensures Supply(Transfer(l, t, refuses).value, mint) == Supply(l, mint)
  {
    var l' := Transfer(l, t, refuses).value;
    if t.from != t.to {
      var rest := l.Keys - {t.from} - {t.to};
      SupplyOverRemove(l, l.Keys, t.from, mint);
      SupplyOverRemove(l, l.Keys - {t.from}, t.to, mint);
      SupplyOverRemove(l', l'.Keys, t.from, mint);
      SupplyOverRemove(l', l'.Keys - {t.from}, t.to, mint);
      SupplyOverFrame(l, l', rest, mint);
    }
  }
}
