/**
 Properties of the token ledger operations: supply conservation, absence of
 64-bit overflow, the exactly-once init, the transfer boundaries, allowance
 overwrite and the allowance-key collisions that the concatenated key allows.
 */
module TokenProperties {
  import opened MapSum
  import opened Token

  /** A move neither creates nor destroys tokens. */
  lemma MoveConserves(b: map<AccountId, nat>, src: AccountId, dst: AccountId, tokens: u64)
    requires tokens <= Get(b, src)
    ensures Sum(Move(b, src, dst, tokens)) == Sum(b)
  {
    var debited := b[src := Get(b, src) - tokens];
    SumUpdate(b, src, Get(b, src) - tokens);
    SumUpdate(debited, dst, Get(debited, dst) + tokens);
  }

  /**
   The credit written by a move, the destination's balance re-read after the
   debit plus `tokens`, never exceeds the sum of the balances before the move.
   */
  lemma MoveCreditBelowSum(b: map<AccountId, nat>, src: AccountId, dst: AccountId, tokens: u64)
    requires tokens <= Get(b, src)
    ensures Get(b[src := Get(b, src) - tokens], dst) + tokens <= Sum(b)
  {
    if src == dst {
      EntryBelowSum(b, src);
    } else {
      TwoEntriesBelowSum(b, src, dst);
    }
  }

  /** Before init every effective balance is zero. */
  lemma NoTokensBeforeInit(s: Ledger, a: AccountId)
    requires Valid(s) && !s.initDone
    ensures GetBalance(s, a) == 0
  {
  }

  /** The freshly deployed contract satisfies the conservation invariant. */
  lemma GenesisValid()
    ensures Valid(Genesis)
  {
  }

  /** `init` turns a ledger holding no tokens into one holding exactly the supply. */
  lemma InitPreservesValid(s: Ledger, initialOwner: AccountId)
    requires Valid(s)
    ensures Valid(StateAfter(s, Init(s, initialOwner)))
  {
    if !s.initDone {
      EntryBelowSum(s.balances, initialOwner);
      SumUpdate(s.balances, initialOwner, Supply);
    }
  }

  /** `transfer` preserves the conservation invariant. */
  lemma TransferPreservesValid(s: Ledger, caller: AccountId, to: AccountId, tokens: u64)
    requires Valid(s)
    ensures Valid(StateAfter(s, Transfer(s, caller, to, tokens)))
  {
    if tokens <= GetBalance(s, caller) {
      MoveConserves(s.balances, caller, to, tokens);
    }
  }

  /** `approve` preserves the conservation invariant. */
  lemma ApprovePreservesValid(s: Ledger, caller: AccountId, spender: AccountId, tokens: u64)
    requires Valid(s)
    ensures Valid(StateAfter(s, Approve(s, caller, spender, tokens)))
  {
  }

  /** `transferFrom` preserves the conservation invariant. */
  lemma TransferFromPreservesValid(s: Ledger, caller: AccountId, from: AccountId, to: AccountId, tokens: u64)
    requires Valid(s)
    ensures Valid(StateAfter(s, TransferFrom(s, caller, from, to, tokens)))
  {
    if tokens <= GetBalance(s, from) {
      MoveConserves(s.balances, from, to, tokens);
    }
  }

  /** Under the invariant every balance fits in an unsigned 64-bit integer. */
  lemma BalancesFitU64(s: Ledger, a: AccountId)
    requires Valid(s)
    ensures GetBalance(s, a) <= Supply < U64Limit
  {
  }

  /**
   The addition `getBalance(to) + tokens` performed by a successful `transfer`
   or `transferFrom` on a valid ledger stays within the supply, so the
   contract's u64 arithmetic never wraps.
   */
  lemma CreditNeverOverflows(s: Ledger, src: AccountId, dst: AccountId, tokens: u64)
    requires Valid(s)
    requires tokens <= GetBalance(s, src)
    ensures Get(s.balances[src := GetBalance(s, src) - tokens], dst) + tokens <= Supply < U64Limit
  {
    MoveCreditBelowSum(s.balances, src, dst, tokens);
  }

  /** Once `init` has succeeded, any later `init` fails with `AlreadyInitialized` and allocates nothing. */
  lemma SecondInitFails(s: Ledger, first: AccountId, second: AccountId)
    requires Init(s, first).Success?
    ensures Init(Init(s, first).next, second) == Failure(AlreadyInitialized)
  {
  }

  /** From deployment, `init(A)` then `init(B)` leaves B with nothing when B differs from A. */
  lemma GenesisInitTwice(first: AccountId, second: AccountId)
    requires first != second
    ensures var s1 := Init(Genesis, first).next;
            && Init(Genesis, first).Success?
            && Init(s1, second).Failure?
            && BalanceOf(StateAfter(s1, Init(s1, second)), second) == 0
            && BalanceOf(s1, first) == TotalSupply(s1)
  {
  }

  /** Sending the whole balance to someone else succeeds and leaves the sender with exactly 0. */
  lemma TransferWholeBalance(s: Ledger, caller: AccountId, to: AccountId)
    requires caller != to
    requires GetBalance(s, caller) < U64Limit
    ensures var r := Transfer(s, caller, to, GetBalance(s, caller));
            r == Success(true, r.next) && BalanceOf(r.next, caller) == 0
  {
  }

  /** Sending one token more than the balance fails and changes nothing. */
  lemma TransferOneTooMany(s: Ledger, caller: AccountId, to: AccountId)
    requires GetBalance(s, caller) + 1 < U64Limit
    ensures var r := Transfer(s, caller, to, GetBalance(s, caller) + 1);
            r == Failure(InsufficientBalance) && StateAfter(s, r) == s
  {
  }

  /** A transfer to oneself leaves every effective balance as it was. */
  lemma SelfTransferNoOp(s: Ledger, caller: AccountId, tokens: u64)
    requires tokens <= GetBalance(s, caller)
    ensures forall a :: BalanceOf(StateAfter(s, Transfer(s, caller, caller, tokens)), a) == BalanceOf(s, a)
  {
  }

  /** A transfer of zero tokens always succeeds and leaves every effective balance as it was. */
  lemma ZeroTransferNoOp(s: Ledger, caller: AccountId, to: AccountId)
    ensures Transfer(s, caller, to, 0).Success?
    ensures forall a :: BalanceOf(Transfer(s, caller, to, 0).next, a) == BalanceOf(s, a)
  {
  }

  /** `approve` overwrites: of two approvals for the same pair, the last one wins. */
  lemma ApproveOverwrites(s: Ledger, caller: AccountId, spender: AccountId, first: u64, second: u64)
    ensures var s1 := Approve(s, caller, spender, first).next;
            Allowance(Approve(s1, caller, spender, second).next, caller, spender) == second
  {
  }

  /**
   After `approve`, the allowance of any pair is the new amount exactly when
   that pair's key coincides with the approved pair's key, and is unchanged
   otherwise.
   */
  lemma ApproveEffectOnPairs(s: Ledger, caller: AccountId, spender: AccountId, tokens: u64, owner: AccountId, other: AccountId)
    ensures Allowance(Approve(s, caller, spender, tokens).next, owner, other)
            == if AllowanceKey(owner, other) == AllowanceKey(caller, spender) then tokens else Allowance(s, owner, other)
  {
  }

  /** Two different pairs can share an allowance key when an id contains ':'. */
  lemma AllowanceKeyCollides()
    ensures ("a:b", "c") != ("a", "b:c")
    ensures AllowanceKey("a:b", "c") == AllowanceKey("a", "b:c")
  {
  }

  /**
   Consequently an `approve` by "a" for spender "b:c" also sets the allowance
   that "a:b" granted to "c".
   */
  lemma ApproveLeaksAcrossPairs(s: Ledger, tokens: u64)
    ensures Allowance(Approve(s, "a", "b:c", tokens).next, "a:b", "c") == tokens
  {
    AllowanceKeyCollides();
  }

  /** When owners contain no ':', the allowance key identifies the pair. */
  lemma AllowanceKeyInjective(o1: AccountId, s1: AccountId, o2: AccountId, s2: AccountId)
    requires KeySeparator !in o1 && KeySeparator !in o2
    requires AllowanceKey(o1, s1) == AllowanceKey(o2, s2)
    ensures o1 == o2 && s1 == s2
  {
  }

  /** `transferFrom` never depends on who calls it. */
  lemma TransferFromIgnoresCaller(s: Ledger, c1: AccountId, c2: AccountId, from: AccountId, to: AccountId, tokens: u64)
    ensures TransferFrom(s, c1, from, to, tokens) == TransferFrom(s, c2, from, to, tokens)
  {
  }

  /**
   `transferFrom` leaves the allowance in place, so it can be repeated as long
   as `from` still holds enough tokens.
   */
  lemma TransferFromRepeatable(s: Ledger, caller: AccountId, from: AccountId, to: AccountId, tokens: u64)
    requires TransferFrom(s, caller, from, to, tokens).Success?
    ensures var s1 := TransferFrom(s, caller, from, to, tokens).next;
            && (forall o, sp :: Allowance(s1, o, sp) == Allowance(s, o, sp))
            && (tokens <= GetBalance(s1, from) ==> TransferFrom(s1, caller, from, to, tokens).Success?)
  {
  }

  /**
   A worked run: alice receives the supply and sends bob 300000; alice then
   approves carol for 100000. A `transferFrom(alice, dave, 50000)` called by
   carol fails for want of an allowance from alice to dave, whereas
   `transferFrom(alice, carol, 50000)` succeeds whoever calls it.
   */
  lemma AliceBobCarolScenario()
    ensures var s1 := Init(Genesis, "alice").next;
            var s2 := Transfer(s1, "alice", "bob", 300000).next;
            var s3 := Approve(s2, "alice", "carol", 100000).next;
            && Transfer(s1, "alice", "bob", 300000).Success?
            && BalanceOf(s2, "alice") == 700000 && BalanceOf(s2, "bob") == 300000
            && Allowance(s3, "alice", "carol") == 100000
            && TransferFrom(s3, "carol", "alice", "dave", 50000) == Failure(InsufficientAllowance)
            && TransferFrom(s3, "dave", "alice", "carol", 50000).Success?
  {
    var s1 := Init(Genesis, "alice").next;
    assert "bob" != "alice" by { assert "bob"[0] != "alice"[0]; }
    assert AllowanceKey("alice", "dave") != AllowanceKey("alice", "carol") by {
      assert AllowanceKey("alice", "dave")[6] != AllowanceKey("alice", "carol")[6];
    }
  }
}
