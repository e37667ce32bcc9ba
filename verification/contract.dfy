/**
 The contract as the host drives it: a sequence of calls, each made by an
 authenticated caller and executed to completion one after another. A call
 that aborts is reverted, so the next call sees the state before it.
 */
module Contract {
  import opened MapSum
  import opened Token
  import TokenProperties

  /** A mutating entry point of the contract with its arguments. */
  datatype Call =
    | Init(initialOwner: AccountId)
    | Transfer(to: AccountId, tokens: u64)
    | Approve(spender: AccountId, tokens: u64)
    | TransferFrom(from: AccountId, to: AccountId, tokens: u64)

  /** One call together with the account that makes it. */
  datatype Tx = Tx(caller: AccountId, call: Call)

  /** Whether the call of `tx` aborts when made on `s`. */
  predicate Aborts(s: Ledger, tx: Tx)
  {
    match tx.call
    case Init(owner) => Token.Init(s, owner).Failure?
    case Transfer(to, tokens) => Token.Transfer(s, tx.caller, to, tokens).Failure?
    case Approve(spender, tokens) => Token.Approve(s, tx.caller, spender, tokens).Failure?
    case TransferFrom(from, to, tokens) => Token.TransferFrom(s, tx.caller, from, to, tokens).Failure?
  }

  /** The ledger after executing `tx` on `s`, with an aborted call reverted. */
  function Step(s: Ledger, tx: Tx): (r: Ledger)
    ensures Aborts(s, tx) ==> r == s
    ensures s.initDone ==> r.initDone
    ensures !tx.call.Init? ==> r.initDone == s.initDone
  {
    match tx.call
    case Init(owner) => StateAfter(s, Token.Init(s, owner))
    case Transfer(to, tokens) => StateAfter(s, Token.Transfer(s, tx.caller, to, tokens))
    case Approve(spender, tokens) => StateAfter(s, Token.Approve(s, tx.caller, spender, tokens))
    case TransferFrom(from, to, tokens) => StateAfter(s, Token.TransferFrom(s, tx.caller, from, to, tokens))
  }

  /** The ledger after executing `txs` in order from `s`. */
  function Run(s: Ledger, txs: seq<Tx>): (r: Ledger)
    ensures s.initDone ==> r.initDone
    decreases |txs|
  {
    if |txs| == 0 then s else Run(Step(s, txs[0]), txs[1..])
  }

  /** How many of the calls in `txs`, executed from `s`, are inits that succeed. */
  function SuccessfulInits(s: Ledger, txs: seq<Tx>): nat
    decreases |txs|
  {
    if |txs| == 0 then 0
    else
      var here := if txs[0].call.Init? && !Aborts(s, txs[0]) then 1 else 0;
      here + SuccessfulInits(Step(s, txs[0]), txs[1..])
  }

  /** Every call, aborted or not, preserves the conservation invariant. */
  lemma StepPreservesValid(s: Ledger, tx: Tx)
    requires Valid(s)
    ensures Valid(Step(s, tx))
  {
    match tx.call
    case Init(owner) => TokenProperties.InitPreservesValid(s, owner);
    case Transfer(to, tokens) => TokenProperties.TransferPreservesValid(s, tx.caller, to, tokens);
    case Approve(spender, tokens) => TokenProperties.ApprovePreservesValid(s, tx.caller, spender, tokens);
    case TransferFrom(from, to, tokens) => TokenProperties.TransferFromPreservesValid(s, tx.caller, from, to, tokens);
  }

  /** Any sequence of calls preserves the conservation invariant. */
  lemma {:induction false} RunPreservesValid(s: Ledger, txs: seq<Tx>)
    requires Valid(s)
    ensures Valid(Run(s, txs))
    decreases |txs|
  {
    if |txs| > 0 {
      StepPreservesValid(s, txs[0]);
      RunPreservesValid(Step(s, txs[0]), txs[1..]);
    }
  }

  /**
   Conservation from deployment: after any sequence of calls the balances add
   up to the total supply if init has run, and to zero otherwise; in
   particular no balance ever exceeds the supply or the u64 range.
   */
  lemma Conservation(txs: seq<Tx>, a: AccountId)
    ensures var s := Run(Genesis, txs);
            && Sum(s.balances) == (if s.initDone then TotalSupply(s) else 0)
            && BalanceOf(s, a) <= Supply < U64Limit
  {
    TokenProperties.GenesisValid();
    RunPreservesValid(Genesis, txs);
  }

  /** Once init has run, no later init succeeds. */
  lemma {:induction false} NoInitAfterInit(s: Ledger, txs: seq<Tx>)
    requires s.initDone
    ensures SuccessfulInits(s, txs) == 0
    decreases |txs|
  {
    if |txs| > 0 {
      NoInitAfterInit(Step(s, txs[0]), txs[1..]);
    }
  }

  /** In any sequence of calls from any state, at most one init succeeds. */
  lemma {:induction false} InitAtMostOnce(s: Ledger, txs: seq<Tx>)
    ensures SuccessfulInits(s, txs) <= 1
    decreases |txs|
  {
    if |txs| > 0 {
      var s1 := Step(s, txs[0]);
      if txs[0].call.Init? && !Aborts(s, txs[0]) {
        NoInitAfterInit(s1, txs[1..]);
      } else {
        InitAtMostOnce(s1, txs[1..]);
      }
    }
  }

  /** A sequence of calls from deployment has run init exactly when one of its inits succeeded. */
  lemma {:induction false} InitDoneIffInitSucceeded(s: Ledger, txs: seq<Tx>)
    requires !s.initDone
    ensures Run(s, txs).initDone <==> SuccessfulInits(s, txs) == 1
    decreases |txs|
  {
    if |txs| > 0 {
      var s1 := Step(s, txs[0]);
      if txs[0].call.Init? && !Aborts(s, txs[0]) {
        NoInitAfterInit(s1, txs[1..]);
      } else {
        InitDoneIffInitSucceeded(s1, txs[1..]);
      }
    }
  }
}
