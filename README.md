# ink! token ledger and to-do list, modelled in Dafny

This project models two small ink! smart contracts.

- `token` is a per-account `u128` balance ledger with three messages:
  - `mint(to, amount)` is unrestricted and checks for overflow.
  - `balance_of(account)` reads a balance, defaulting to 0.
  - `transfer(to, amount)` moves tokens from the caller to `to`. It fails with
    `InsufficientBalance` when the caller holds less than `amount`.
- `todo_list` keeps an ordered list of items with a description and a
  `completed` flag. It also records the account that instantiated it as
  `owner`. Its messages are `add_item`, `get_items`, `mark_completed` and
  `clear_completed`.

Files:

- `ink_env.dfy` (module `InkEnv`) holds the environment's primitive types:
  - `AccountId`, a 32-byte identity;
  - `u128` and `u32` as bounded naturals;
  - `Option`, with `unwrap_or`.
- `token.dfy` (module `TokenContract`) holds:
  - the class `Token`, whose `balances` map the messages reassign;
  - one pure step function per message (`MintStep`, `TransferStep`), which the
    class methods are proved against;
  - the ghost total supply `Total` and the lemmas about it;
  - a run of messages, for the conservation lemmas;
  - the contract's unit tests, written as client methods of the class.
- `todo_list.dfy` (module `TodoListContract`) holds:
  - the class `TodoList`, with fields `items` and `owner`;
  - the filter `Pending` that specifies `clear_completed`, and lemmas that
    characterise it;
  - the contract's unit tests, written as client methods.

Modelling choices:

- The host's caller, read with `self.env().caller()`, is an explicit parameter.
- A missing `Mapping` entry reads as 0.
- A failing `.expect(...)` panics, and the host then reverts the whole call.
  The model shows this as an outcome `Trapped(panic)` that leaves storage
  unchanged. The panic is `BalanceOverflow` or `BalanceUnderflow`, after the
  `.expect` message.
- The returned error `InsufficientBalance` is `Returned(Err(...))`. Nothing has
  been written when it is returned.
- `clear_completed` uses `Vec::retain`. The model runs it as an in-place
  compaction loop over the item sequence, then truncates.

Where the code and the contract's documentation disagree, the model follows the
code:

- A transfer to oneself is not a no-op. See Findings.
- Overflow in `mint` and `transfer` is a panic, not a returned error.
- `owner` is recorded but never checked. The model does not add access control.

## Model

| member | source | states |
|---|---|---|
| `TokenContract.CheckedAdd` | token/lib.rs:41-42 | returns a value exactly when the sum fits in u128, and that value is the sum |
| `TokenContract.CheckedSub` | token/lib.rs:66-67 | returns a value exactly when the subtrahend is at most the minuend, and that value is the difference |
| `TokenContract.MintStep` | token/lib.rs:39-44 | traps with `BalanceOverflow` exactly when balance + amount reaches 2^128; otherwise the recipient's balance grows by `amount`, every other account is unchanged, and the total supply grows by exactly `amount` |
| `TokenContract.TransferStep` | token/lib.rs:56-75 | the code as written: caller balance below `amount` returns `Err(InsufficientBalance)` with storage unchanged; a recipient overflow traps (no underflow trap is reachable); otherwise returns `Ok`, with others unchanged; for distinct accounts the caller loses `amount`, the recipient gains it and supply is conserved; for a self-transfer the account ends at old + `amount` |
| `TokenContract.TransferIntended` | token/lib.rs:53-56 | corrected transfer: every committed call conserves total supply; a self-transfer that commits changes nothing; it traps exactly on recipient overflow after the balance check; `Ok` exactly when the caller holds enough |
| `TokenContract.TransferAsIntendedBetweenDistinct` | token/lib.rs:64-72 | for a caller different from the recipient, the code and the corrected transfer give the same outcome and state |
| `TokenContract.SelfTransferCredits` | token/lib.rs:58-72 | a self-transfer of `amount` that passes the checks returns `Ok` and raises total supply by `amount`, because the second insert overwrites the first |
| `TokenContract.DeliverSupply` | token/lib.rs:39-75 | a single message (reverted if it traps) changes the supply by exactly the amount it mints, when it is not a self-transfer |
| `TokenContract.RunConservesSupply` | token/lib.rs:39-75 | over any sequence of messages with no self-transfer, the final supply is the initial supply plus the amounts of the mints that returned |
| `TokenContract.SupplyIsMinted` | token/lib.rs:24-75 | from a fresh ledger, after any such sequence the supply equals the total successfully minted |
| `TokenContract.Token.New` | token/lib.rs:24-28 | the new ledger has no entries, so every balance reads 0 |
| `TokenContract.Token.Default` | token/lib.rs:15-34 | `default` gives the same empty ledger as `new` |
| `TokenContract.Token.BalanceOf` | token/lib.rs:49-51 | returns the stored balance, or 0 for an account without an entry; changes no state |
| `TokenContract.Token.Mint` | token/lib.rs:39-44 | outcome and new storage are those of `MintStep`; a trap leaves `balances` as it was |
| `TokenContract.Token.Transfer` | token/lib.rs:56-75 | outcome and new storage are those of `TransferStep`: both new balances are checked before either write, so an error or a trap leaves `balances` as it was |
| `TokenContract.DefaultWorks` | token/lib.rs:95-100 | a fresh ledger reports 0 for Alice |
| `TokenContract.MintWorks` | token/lib.rs:104-115 | minting 100 and then 50 gives 100 and then 150 |
| `TokenContract.TransferWorks` | token/lib.rs:119-136 | after minting 100 to Alice, her transfer of 30 to Bob returns `Ok`, leaving 70 and 30 |
| `TokenContract.TransferInsufficientBalance` | token/lib.rs:140-151 | Alice with nothing sending 100 gets `Err(InsufficientBalance)`, and both balances stay 0 |
| `TodoListContract.Pending` | todo_list/lib.rs:60 | the items kept by the filter: never more than the input, and none of them completed |
| `TodoListContract.PendingPositionsInRange` | todo_list/lib.rs:60 | there is one position per kept item, and each position lies inside the list |
| `TodoListContract.PendingAtPositions` | todo_list/lib.rs:60 | the j-th kept item is the original item at the j-th position |
| `TodoListContract.PendingPositionsIncrease` | todo_list/lib.rs:60 | the positions strictly increase, so survivors keep their relative order |
| `TodoListContract.PendingPositionsExact` | todo_list/lib.rs:60 | a position is kept exactly when the item there is not completed |
| `TodoListContract.PendingOfOpen` | todo_list/lib.rs:60 | a list with no completed item is left unchanged |
| `TodoListContract.PendingIdempotent` | todo_list/lib.rs:60 | clearing twice gives the same list as clearing once |
| `TodoListContract.TodoList.New` | todo_list/lib.rs:26-31 | no items, and the instantiating caller is the owner |
| `TodoListContract.TodoList.Default` | todo_list/lib.rs:33-36 | the same as `new` |
| `TodoListContract.TodoList.AddItem` | todo_list/lib.rs:39-44 | the list becomes the old list followed by `{description, completed: false}`; owner unchanged |
| `TodoListContract.TodoList.GetItems` | todo_list/lib.rs:47-49 | returns exactly the current items and changes nothing |
| `TodoListContract.TodoList.MarkCompleted` | todo_list/lib.rs:52-56 | length unchanged; an in-range index sets that item's flag and keeps its description; every other item is unchanged, so an out-of-range index changes nothing; owner unchanged |
| `TodoListContract.TodoList.ClearCompleted` | todo_list/lib.rs:59-61 | the in-place compaction leaves exactly `Pending` of the old list; owner unchanged |
| `TodoListContract.DefaultWorks` | todo_list/lib.rs:69-72 | a fresh list has no items |
| `TodoListContract.AddItemWorks` | todo_list/lib.rs:75-81 | after one `add_item`, one item with that description, not completed |
| `TodoListContract.MarkCompletedWorks` | todo_list/lib.rs:84-89 | `mark_completed(0)` completes the only item |
| `TodoListContract.MarkPastEndIgnored` | todo_list/lib.rs:52-56 | `mark_completed(999)` on a one-item list leaves it as it was |
| `TodoListContract.ClearCompletedWorks` | todo_list/lib.rs:92-100 | adding "write tests" and "deploy contract", completing the first and clearing leaves only `{"deploy contract", false}` |

## Left out

- The ink! code-generation attributes (`#[ink::contract]`, `#[ink(storage)]`,
  `#[ink(message)]`, `#[ink(constructor)]`) and the SCALE codec, type-info and
  storage-layout derives: they are generated code from libraries outside the
  model.
- The host's caller (`self.env().caller()`, `Self::env().caller()`) is a
  parameter. The model does not cover how the host authenticates it.
- `ink::storage::Mapping` persistence and lazy loading: storage is an in-memory
  map that reads 0 on a miss.
- Panic unwinding and the host's revert mechanism: a panic is only an outcome
  that leaves storage unchanged.
- The end-to-end tests (token/lib.rs:160-260) are left out. They exercise a
  running node, not the contract logic.
- Strings are sequences of characters, not UTF-8 byte vectors.
- `Vec` capacity and allocation failure are not modelled.
- The model does not show the `index as usize` conversion. On the 32-bit
  target, every `u32` fits in `usize`.
- The model adds no access control on `owner`, because the code has none. It
  only proves that no message changes `owner`.

## Findings

| source | as written | input that shows it | evidently intended | confidence | as-written member | corrected member |
|---|---|---|---|---|---|---|
| token/lib.rs:58-72 | `transfer` reads the caller's balance `b` once. For `to == caller` it also reads `to_balance == b`. It then inserts `b - amount` and then `b + amount` under the same key, and the second insert wins. | An account holding 100 calls `transfer` to itself with 30. The call returns `Ok`, the account holds 130, and total supply rises by 30. | A transfer "from the caller to another account" moves value and never creates it. So a transfer to oneself should leave the balance unchanged. | not executed; follows from the code | `TokenContract.SelfTransferCredits` | `TokenContract.TransferIntended` |

The class `Token` keeps the code's behaviour, so `Token.Transfer` follows
`TransferStep`. `TransferIntended` is the corrected definition. It conserves
supply on every committed call. It agrees with `TransferStep` whenever the
caller and the recipient differ (`TransferAsIntendedBetweenDistinct`). For that
reason the conservation lemmas over runs of messages (`RunConservesSupply`,
`SupplyIsMinted`) assume that the run has no self-transfer.
