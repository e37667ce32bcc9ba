# DogeNear fungible token — a Dafny model

This project models the `DogeNearFungibleToken` contract: a ledger for a single
token with a fixed total supply of 1000000, plus an allowance registry shaped
like EIP-20. The contract's comments call the interface NEP141. The contract
state has three parts:

- `_balances`: account id to token count;
- `_approves`: allowance key to approved amount;
- the `"init"` storage marker.

The model keeps these as an immutable `Token.Ledger` record with two
`map<string, nat>` fields and a `bool`. The contract's methods become pure
functions of the ledger:

- `Transfer`, `Approve` and `TransferFrom` take the calling account (`context.sender`) as an explicit argument.
- `Init` takes no caller, because `init` never reads `context.sender`: any account may call it.
- Each of these four returns either `Success(value, next)` or `Failure(error)`. A failed `assert` aborts the call and the host reverts it, so `Token.StateAfter` maps a failure back to the unchanged ledger.
- The reads `TotalSupply`, `BalanceOf`, `Allowance` and `GetBalance` return plain values and no new ledger.

Files:

- `map_sum.dfy` (`MapSum`): effective lookup, where an absent key reads as 0, and the ghost sum of a finite map, with its update and bound lemmas.
- `token.dfy` (`Token`): the ledger, the error kinds (one per `assert` of the contract), and the eight operations of the class.
- `token_properties.dfy` (`TokenProperties`): conservation, no u64 overflow, exactly-once init, the transfer boundaries, approve overwrite, and allowance-key collisions.
- `contract.dfy` (`Contract`): a sequence of calls as the host runs them. It proves conservation and at-most-once init over any such sequence.

The model follows the code as written, including behaviour that departs from
EIP-20 or from the contract's own doc comments:

- The allowance key is the string `owner + ":" + spender`. Two different pairs can share a key when an id contains `:`, so approving one pair can change another pair's allowance (`AllowanceKeyCollides`, `ApproveLeaksAcrossPairs`).
- `transferFrom` checks `allowance(from, to)`. That is the allowance `from` gave to the recipient, not to the caller. The caller is never consulted (`TransferFromIgnoresCaller`).
- `transferFrom` never decrements the allowance, although the doc comments at `assembly/index.ts:24` and `:52-54` say it is deducted. A successful call can therefore be repeated while `from`'s balance lasts (`TransferFromRepeatable`).
- `transferFrom` checks the balance before the allowance, so when both are short the error is `InsufficientBalance`.
- Both transfers write the debited source balance first. They then re-read the destination's balance and write it credited. This is why a self-transfer leaves the balance unchanged (`SelfTransferNoOp`).
- Both transfers store explicit entries for the source and the destination, even when zero tokens move (`Token.Moved` says `b'.Keys == b.Keys + {src, dst}`).
- Before init, `totalSupply` reports 1000000 while every balance is 0. The doc comment at `assembly/index.ts:10` calls the result "the amount of tokens in existence", but no tokens exist until `init` runs (`Token.TotalSupply`, `NoTokensBeforeInit`).

## Model

| member | source | states |
|---|---|---|
| Token.Move | assembly/index.ts:104-105 | the shared balance update moves `tokens` from source to destination: the source loses them, the destination gains them, a self-move changes nothing, every other account is untouched, and the source and destination keys become stored |
| Token.AllowanceKey | assembly/index.ts:93 | the allowance key is the owner id, then `:`, then the spender id, in that layout and length |
| Token.Init | assembly/index.ts:72-77 | init fails with `AlreadyInitialized` exactly when the marker is set; otherwise the initial owner holds the supply, the marker is set, and all other balances and all allowances are unchanged |
| Token.TotalSupply | assembly/index.ts:79-81 | the reported supply is always 1000000; it equals the sum of all balances once initialized, and exceeds it (which is 0) before init |
| Token.GetBalance | assembly/index.ts:125-127 | the effective balance is the stored one, or 0 for an absent account, and never exceeds the sum of all balances |
| Token.BalanceOf | assembly/index.ts:83-90 | `balanceOf` agrees with `getBalance` for every account, and on a valid ledger never exceeds the supply |
| Token.Allowance | assembly/index.ts:92-98 | the allowance of a pair is the value stored under the pair's concatenated key, or 0 when absent |
| Token.Transfer | assembly/index.ts:100-107 | transfer fails with `InsufficientBalance` exactly when the caller's effective balance is below `tokens`; on success it returns true, moves the tokens as `Moved` describes, and leaves allowances and the init marker unchanged |
| Token.Approve | assembly/index.ts:109-113 | approve always returns true, sets the caller's allowance for the spender to exactly `tokens`, changes no other allowance key, and leaves balances and the marker unchanged |
| Token.TransferFrom | assembly/index.ts:115-123 | transferFrom succeeds exactly when `from` has at least `tokens` and `allowance(from, to)` is at least `tokens`; the balance shortfall is reported first; on success it moves the tokens like transfer and leaves every allowance unchanged |
| TokenProperties.MoveConserves | assembly/index.ts:120-121 | the shared balance update leaves the sum of all balances unchanged |
| TokenProperties.MoveCreditBelowSum | assembly/index.ts:105 | the re-read destination balance plus `tokens` never exceeds the sum of balances before the move |
| TokenProperties.NoTokensBeforeInit | assembly/index.ts:72-77 | on a valid ledger before init, every account's balance is 0 |
| TokenProperties.GenesisValid | assembly/index.ts:69-70 | the freshly deployed contract, with empty maps and no marker, satisfies the conservation invariant |
| TokenProperties.InitPreservesValid | assembly/index.ts:72-77 | init takes a ledger with no tokens to one whose balances sum to exactly 1000000 |
| TokenProperties.TransferPreservesValid | assembly/index.ts:100-107 | transfer preserves conservation of the total supply |
| TokenProperties.ApprovePreservesValid | assembly/index.ts:109-113 | approve preserves conservation of the total supply |
| TokenProperties.TransferFromPreservesValid | assembly/index.ts:115-123 | transferFrom preserves conservation of the total supply |
| TokenProperties.BalancesFitU64 | assembly/index.ts:67-69 | on a valid ledger every balance is at most the supply, so it fits the u64 value type |
| TokenProperties.CreditNeverOverflows | assembly/index.ts:121 | on a valid ledger the u64 addition `getBalance(to) + tokens` of a transfer stays within the supply and cannot wrap |
| TokenProperties.SecondInitFails | assembly/index.ts:74 | after one successful init, any later init fails with `AlreadyInitialized` |
| TokenProperties.GenesisInitTwice | assembly/index.ts:72-77 | from deployment, init(A) then init(B) for B different from A: the second fails, B holds 0, and A holds the whole supply |
| TokenProperties.TransferWholeBalance | assembly/index.ts:102-104 | sending exactly one's whole balance to another account succeeds, returns true, and leaves the sender at 0 |
| TokenProperties.TransferOneTooMany | assembly/index.ts:103 | sending one more than the balance fails with `InsufficientBalance` and leaves the ledger unchanged |
| TokenProperties.SelfTransferNoOp | assembly/index.ts:104-105 | a transfer to oneself leaves every account's balance unchanged |
| TokenProperties.ZeroTransferNoOp | assembly/index.ts:100-106 | a transfer of 0 tokens always succeeds and leaves every account's balance unchanged |
| TokenProperties.ApproveOverwrites | assembly/index.ts:111 | a second approve for the same pair replaces the first amount instead of adding to it |
| TokenProperties.ApproveEffectOnPairs | assembly/index.ts:111 | after approve, a pair's allowance is the new amount exactly when its key equals the approved pair's key, and is unchanged otherwise |
| TokenProperties.AllowanceKeyCollides | assembly/index.ts:93 | the distinct pairs ("a:b", "c") and ("a", "b:c") share the key "a:b:c" |
| TokenProperties.ApproveLeaksAcrossPairs | assembly/index.ts:111 | approve by "a" for spender "b:c" also sets the allowance that "a:b" granted to "c" |
| TokenProperties.AllowanceKeyInjective | assembly/index.ts:93 | when neither owner id contains `:`, equal allowance keys mean equal owners and equal spenders |
| TokenProperties.TransferFromIgnoresCaller | assembly/index.ts:115-123 | transferFrom gives the same outcome whichever account calls it |
| TokenProperties.TransferFromRepeatable | assembly/index.ts:118-122 | after a successful transferFrom every allowance is unchanged, so the same call succeeds again while `from` still holds enough |
| TokenProperties.AliceBobCarolScenario | assembly/index.ts:72-123 | alice gets the supply and sends bob 300000, leaving 700000 and 300000; after alice approves carol for 100000, carol's transferFrom(alice, dave, 50000) fails with `InsufficientAllowance`, while transferFrom(alice, carol, 50000) succeeds |
| Contract.Step | assembly/index.ts:72-123 | one call either aborts and leaves the ledger unchanged, or applies; no call clears the init marker, and only init sets it |
| Contract.Run | assembly/index.ts:74-76 | executing a sequence of calls never clears the init marker |
| Contract.StepPreservesValid | assembly/index.ts:72-123 | every call, whether it aborts or not, preserves conservation |
| Contract.RunPreservesValid | assembly/index.ts:72-123 | any sequence of calls preserves conservation |
| Contract.Conservation | assembly/index.ts:67-123 | after any sequence of calls from deployment, the balances sum to `totalSupply()` if init ran and to 0 otherwise, and no balance exceeds the supply or the u64 range |
| Contract.NoInitAfterInit | assembly/index.ts:74 | once the marker is set, no init in any later sequence of calls succeeds |
| Contract.InitAtMostOnce | assembly/index.ts:72-77 | in any sequence of calls from any state, at most one init succeeds |
| Contract.InitDoneIffInitSucceeded | assembly/index.ts:74-76 | starting before init, the marker ends up set exactly when one init in the sequence succeeded |

## Left out

- Logging: the `logging.log` calls (`assembly/index.ts:73, 84, 101, 110`) are diagnostic output with no effect on state.
- Runtime: `context`, `storage` and `PersistentMap` from near-sdk-as are replaced by the fields of `Token.Ledger`. The caller is passed as an argument. The `"init"` storage entry, holding `"done"` or absent, is a `bool`.
- Revert: the host's panic-and-revert is modelled abstractly. A `Failure` carries only the error, and `StateAfter` returns the ledger from before the call.
- Interface: the `StandardFungibleTokenNEP141` interface (`assembly/index.ts:7-60`) declares types and doc comments only, with no behaviour.
- Names: `_name` and `_symbol` are constants that no operation reads.
- Token.Move: stored balances are unbounded `nat`s, and the u64 wrap-around of the credit addition is not modelled. `CreditNeverOverflows` and `Contract.Conservation` prove that the addition never leaves the u64 range on a ledger reachable from deployment.
- Reads: `totalSupply`, `balanceOf`, `allowance` and `getBalance` are pure functions of the ledger. They cannot change it, so "reads leave the state unchanged" holds by construction and has no lemma of its own.
