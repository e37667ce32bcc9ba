/**
 The DogeNear fungible token: a single-token balance ledger with an allowance
 registry. The mutating operations are pure transitions that yield either a
 success value with the next ledger or an error, after which the ledger stays
 as it was; those that read the caller take it as an explicit argument. The
 reads are plain functions of the ledger.
 */
module Token {
  import opened MapSum

  /** Account identifiers are opaque strings chosen by the host. */
  type AccountId = string

  /** Bound of the contract's unsigned 64-bit amounts. */
  const U64Limit: nat := 0x1_0000_0000_0000_0000

  /** An unsigned 64-bit amount, the type of every `tokens` argument. */
  type u64 = x: nat | x < U64Limit

  /** The fixed total supply, allocated once to the initial owner. */
  const Supply: u64 := 1000000

  /** Separator between owner and spender in an allowance key. */
  const KeySeparator: char := ':'

  /**
   The persistent state of the contract: stored balances, stored allowances
   (keyed by the concatenated string of `AllowanceKey`) and the init marker.
   */
  datatype Ledger = Ledger(balances: map<AccountId, nat>, approves: map<string, nat>, initDone: bool)

  /** The state of a freshly deployed contract: nothing stored. */
  const Genesis: Ledger := Ledger(map[], map[], false)

  /** The reasons a call aborts, one per `assert` of the contract. */
  datatype Error = AlreadyInitialized | InsufficientBalance | InsufficientAllowance

  /** Outcome of a mutating call. A failure carries no state: the host reverts the call. */
  datatype Outcome<T> = Success(value: T, next: Ledger) | Failure(error: Error)

  /** The ledger an observer sees after the call: the new one, or the old one on failure. */
  function StateAfter<T>(s: Ledger, o: Outcome<T>): Ledger
  {
    match o
    case Success(_, next) => next
    case Failure(_) => s
  }

  /**
   The conservation invariant: before init no tokens exist, and afterwards the
   stored balances add up to exactly the total supply.
   */
  ghost predicate Valid(s: Ledger)
  {
    Sum(s.balances) == if s.initDone then Supply else 0
  }

  /**
   Reference description of a move of `tokens` from `src` to `dst` as every
   account sees it: the source loses them, the destination gains them, a move
   to oneself changes nothing, and every other account is untouched.
   */
  ghost predicate Moved(b: map<AccountId, nat>, b': map<AccountId, nat>, src: AccountId, dst: AccountId, tokens: nat)
  {
    && b'.Keys == b.Keys + {src, dst}
    && (src != dst ==> Get(b', src) + tokens == Get(b, src) && Get(b', dst) == Get(b, dst) + tokens)
    && (src == dst ==> Get(b', src) == Get(b, src))
    && forall a :: a != src && a != dst ==> Get(b', a) == Get(b, a)
  }

  /**
   The balance update shared by `transfer` and `transferFrom`: write the
   debited source balance, then re-read the destination's effective balance
   and write it credited. The re-read is what makes a self-move a no-op.
   */
  function Move(b: map<AccountId, nat>, src: AccountId, dst: AccountId, tokens: u64): (r: map<AccountId, nat>)
    requires tokens <= Get(b, src)
    ensures Moved(b, r, src, dst, tokens)
  {
    var debited := b[src := Get(b, src) - tokens];
    debited[dst := Get(debited, dst) + tokens]
  }

  /** The allowance key of an (owner, spender) pair: the two ids joined by ':'. */
  function AllowanceKey(owner: AccountId, spender: AccountId): (k: string)
    ensures |k| == |owner| + 1 + |spender|
    ensures k[..|owner|] == owner && k[|owner|] == KeySeparator && k[|owner| + 1..] == spender
  {
    owner + [KeySeparator] + spender
  }

  /**
   `init`: allocate the whole supply to `initialOwner`, exactly once.
   */
  function Init(s: Ledger, initialOwner: AccountId): (r: Outcome<()>)
    ensures s.initDone <==> r.Failure?
    ensures r.Failure? ==> r.error == AlreadyInitialized
    ensures r.Success? ==>
              && r.next.initDone
              && Get(r.next.balances, initialOwner) == Supply
              && r.next.balances.Keys == s.balances.Keys + {initialOwner}
              && (forall a :: a != initialOwner ==> Get(r.next.balances, a) == Get(s.balances, a))
              && r.next.approves == s.approves
  {
    if s.initDone then Failure(AlreadyInitialized)
    else Success((), Ledger(s.balances[initialOwner := Supply], s.approves, true))
  }

  /** `totalSupply`: the fixed supply, which the balances add up to once initialized. */
  function TotalSupply(s: Ledger): (r: u64)
    ensures r == 1000000
    ensures Valid(s) && s.initDone ==> r == Sum(s.balances)
    ensures Valid(s) && !s.initDone ==> r > Sum(s.balances)
  {
    Supply
  }

  /** `getBalance`: the effective balance of `owner`. */
  function GetBalance(s: Ledger, owner: AccountId): (r: nat)
    ensures owner !in s.balances ==> r == 0
    ensures owner in s.balances ==> r == s.balances[owner]
    ensures r <= Sum(s.balances)
  {
    EntryBelowSum(s.balances, owner);
    Get(s.balances, owner)
  }

  /** `balanceOf`: the stored balance of `tokenOwner`, or 0 when there is none. */
  function BalanceOf(s: Ledger, tokenOwner: AccountId): (r: nat)
    ensures r == GetBalance(s, tokenOwner)
    ensures Valid(s) ==> r <= Supply
  {
    EntryBelowSum(s.balances, tokenOwner);
    if tokenOwner !in s.balances then 0 else s.balances[tokenOwner]
  }

  /** `allowance`: the stored allowance under the pair's key, or 0 when there is none. */
  function Allowance(s: Ledger, tokenOwner: AccountId, spender: AccountId): (r: nat)
    ensures AllowanceKey(tokenOwner, spender) !in s.approves ==> r == 0
    ensures AllowanceKey(tokenOwner, spender) in s.approves ==> r == s.approves[AllowanceKey(tokenOwner, spender)]
  {
    var key := AllowanceKey(tokenOwner, spender);
    if key !in s.approves then 0 else s.approves[key]
  }

  /**
   `transfer`: `caller` sends `tokens` of its own balance to `to`.
   */
  function Transfer(s: Ledger, caller: AccountId, to: AccountId, tokens: u64): (r: Outcome<bool>)
    ensures r.Failure? <==> GetBalance(s, caller) < tokens
    ensures r.Failure? ==> r.error == InsufficientBalance
    ensures r.Success? ==>
              && r.value
              && Moved(s.balances, r.next.balances, caller, to, tokens)
              && r.next.approves == s.approves
              && r.next.initDone == s.initDone
  {
    var fromAmount := GetBalance(s, caller);
    if fromAmount < tokens then Failure(InsufficientBalance)
    else Success(true, s.(balances := Move(s.balances, caller, to, tokens)))
  }

  /**
   `approve`: `caller` sets, not adds to, the allowance of `spender` over
   its tokens.
   */
  function Approve(s: Ledger, caller: AccountId, spender: AccountId, tokens: u64): (r: Outcome<bool>)
    ensures r.Success? && r.value
    ensures Allowance(r.next, caller, spender) == tokens
    ensures forall k :: k != AllowanceKey(caller, spender) ==> Get(r.next.approves, k) == Get(s.approves, k)
    ensures r.next.balances == s.balances && r.next.initDone == s.initDone
  {
    Success(true, s.(approves := s.approves[AllowanceKey(caller, spender) := tokens]))
  }

  /**
   `transferFrom`: move `tokens` from `from` to `to` under an allowance. As
   written, the allowance consulted is the one `from` granted to `to` (the
   recipient), the caller is never looked at, and the allowance is not
   decremented.
   */
  function TransferFrom(s: Ledger, caller: AccountId, from: AccountId, to: AccountId, tokens: u64): (r: Outcome<bool>)
    ensures r.Success? <==> tokens <= GetBalance(s, from) && tokens <= Allowance(s, from, to)
    ensures r.Failure? && GetBalance(s, from) < tokens ==> r.error == InsufficientBalance
    ensures r.Failure? && tokens <= GetBalance(s, from) ==> r.error == InsufficientAllowance
    ensures r.Success? ==>
              && r.value
              && Moved(s.balances, r.next.balances, from, to, tokens)
              && r.next.approves == s.approves
              && r.next.initDone == s.initDone
  {
    var fromAmount := GetBalance(s, from);
    if fromAmount < tokens then Failure(InsufficientBalance)
    else
      var approvedAmount := Allowance(s, from, to);
      if approvedAmount < tokens then Failure(InsufficientAllowance)
      else Success(true, s.(balances := Move(s.balances, from, to, tokens)))
  }
}
