/**
  The `token` contract: a per-account u128 balance ledger with unrestricted
  minting and caller-to-recipient transfer.

  The storage `Mapping<AccountId, u128>` is a Dafny map in which a missing
  entry reads as 0. The ambient caller of `transfer` is an explicit parameter.
  A failing `.expect(...)` panics, and the host then reverts every write the
  message made; a message outcome is therefore either a returned value or a
  trap, and a trap leaves storage as it was.
*/
module TokenContract {
  import opened InkEnv

  /** The contract's only user-visible error. */
  datatype Error = InsufficientBalance

  datatype Result<+T> = Ok(value: T) | Err(error: Error)

  /** The panic message of the `.expect` that failed. */
  datatype Panic = BalanceOverflow | BalanceUnderflow

  /** What the caller of a message observes. */
  datatype Outcome<+T> = Returned(value: T) | Trapped(panic: Panic)

  /** The contract storage: account to stored balance. */
  type Balances = map<AccountId, U128>

  /**
    One message as a transition of storage: it commits a new state and returns
    a value, or it traps, in which case the host keeps the prior state.
  */
  datatype Step<+T> = Commit(state: Balances, value: T) | Trap(panic: Panic) {
    function Observed(): Outcome<T> {
      match this
      case Commit(_, v) => Returned(v)
      case Trap(p) => Trapped(p)
    }

    function StateAfter(prior: Balances): Balances {
      if Commit? then state else prior
    }
  }

  /** `Mapping::get`. */
  function Get(balances: Balances, account: AccountId): Option<U128> {
    if account in balances then Some(balances[account]) else None
  }

  /** The balance an account holds: its entry, or 0 when it has none. */
  function BalanceIn(balances: Balances, account: AccountId): U128 {
    Get(balances, account).UnwrapOr(0)
  }

  /** `u128::checked_add`. */
  function CheckedAdd(x: U128, y: U128): (r: Option<U128>)
    ensures r.Some? <==> x + y < U128_LIMIT
    ensures r.Some? ==> r.value == x + y
  {
    if x + y < U128_LIMIT then Some(x + y) else None
  }

  /** `u128::checked_sub`. */
  function CheckedSub(x: U128, y: U128): (r: Option<U128>)
    ensures r.Some? <==> y <= x
    ensures r.Some? ==> r.value + y == x
  {
    if y <= x then Some(x - y) else None
  }

  // ---------------------------------------------------------------------------
  // Total supply

  ghost function Pick(balances: Balances): AccountId
    requires balances != map[]
  {
    var a :| a in balances; a
  }

  /** The total supply: the sum of every stored balance. */
  ghost function Total(balances: Balances): nat
    decreases |balances|
  {
    if balances == map[] then 0
    else
      var a := Pick(balances);
      assert |balances - {a}| < |balances| by {
        assert balances.Keys - {a} < balances.Keys;
      }
      balances[a] + Total(balances - {a})
  }

  /** Any one entry can be taken out of the sum first. */
  lemma {:induction false} TotalWithout(balances: Balances, a: AccountId)
    requires a in balances
    ensures Total(balances) == balances[a] + Total(balances - {a})
    decreases |balances|
  {
    var p := Pick(balances);
    if p != a {
      assert |balances - {p}| < |balances| by {
        assert balances.Keys - {p} < balances.Keys;
      }
      assert |balances - {a}| < |balances| by {
        assert balances.Keys - {a} < balances.Keys;
      }
      TotalWithout(balances - {p}, a);
      TotalWithout(balances - {a}, p);
      assert balances - {p} - {a} == balances - {a} - {p};
    }
  }

  /** Writing `v` for `a` changes the supply by the difference with what `a` held. */
  lemma TotalUpdate(balances: Balances, a: AccountId, v: U128)
    ensures Total(balances[a := v]) + BalanceIn(balances, a) == Total(balances) + v
  {
    var updated := balances[a := v];
    TotalWithout(updated, a);
    assert updated - {a} == balances - {a};
    if a in balances {
      TotalWithout(balances, a);
    } else {
      assert balances - {a} == balances;
    }
  }

  // ---------------------------------------------------------------------------
  // The messages as transitions of storage

  /** `mint(to, amount)`: a checked add to the recipient's balance. */
  function MintStep(balances: Balances, to: AccountId, amount: U128): (r: Step<()>)
    ensures r.Trap? <==> BalanceIn(balances, to) + amount >= U128_LIMIT
    ensures r.Trap? ==> r.panic == BalanceOverflow
    ensures r.Commit? ==>
              && BalanceIn(r.state, to) == BalanceIn(balances, to) + amount
              && (forall a :: a != to ==> BalanceIn(r.state, a) == BalanceIn(balances, a))
              && Total(r.state) == Total(balances) + amount
  {
    var current := BalanceIn(balances, to);
    match CheckedAdd(current, amount)
    case None => Trap(BalanceOverflow)
    case Some(next) =>
      TotalUpdate(balances, to, next);
      Commit(balances[to := next], ())
  }

  /**
    `transfer(to, amount)` as written: both new balances are computed before
    either is written, and the recipient's write comes second.
  */
  function TransferStep(balances: Balances, caller: AccountId, to: AccountId, amount: U128): (r: Step<Result<()>>)
    ensures BalanceIn(balances, caller) < amount ==>
              r == Commit(balances, Err(InsufficientBalance))
    ensures BalanceIn(balances, caller) >= amount && BalanceIn(balances, to) + amount >= U128_LIMIT ==>
              r == Trap(BalanceOverflow)
    ensures BalanceIn(balances, caller) >= amount && BalanceIn(balances, to) + amount < U128_LIMIT ==>
              && r.Commit? && r.value == Ok(())
              && (forall a :: a != caller && a != to ==> BalanceIn(r.state, a) == BalanceIn(balances, a))
              && (caller != to ==>
                    && BalanceIn(r.state, caller) == BalanceIn(balances, caller) - amount
                    && BalanceIn(r.state, to) == BalanceIn(balances, to) + amount
                    && Total(r.state) == Total(balances))
              && (caller == to ==> BalanceIn(r.state, to) == BalanceIn(balances, to) + amount)
  {
    var callerBalance := BalanceIn(balances, caller);
    if callerBalance < amount then Commit(balances, Err(InsufficientBalance))
    else
      var toBalance := BalanceIn(balances, to);
      match CheckedSub(callerBalance, amount)
      case None => Trap(BalanceUnderflow)
      case Some(newCallerBalance) =>
        match CheckedAdd(toBalance, amount)
        case None => Trap(BalanceOverflow)
        case Some(newToBalance) =>
          var debited := balances[caller := newCallerBalance];
          TotalUpdate(balances, caller, newCallerBalance);
          TotalUpdate(debited, to, newToBalance);
          Commit(debited[to := newToBalance], Ok(()))
  }

  /**
    `transfer` as its documentation intends it: a transfer to oneself passes
    the same checks and then changes nothing.
  */
  function TransferIntended(balances: Balances, caller: AccountId, to: AccountId, amount: U128): (r: Step<Result<()>>)
    ensures r.Commit? ==> Total(r.state) == Total(balances)
    ensures caller == to ==> r.Commit? ==> r.state == balances
    ensures r.Trap? <==>
              BalanceIn(balances, caller) >= amount && BalanceIn(balances, to) + amount >= U128_LIMIT
    ensures r.Commit? ==>
              (r.value == Ok(()) <==> BalanceIn(balances, caller) >= amount)
  {
    var callerBalance := BalanceIn(balances, caller);
    if callerBalance < amount then Commit(balances, Err(InsufficientBalance))
    else
      var toBalance := BalanceIn(balances, to);
      match CheckedSub(callerBalance, amount)
      case None => Trap(BalanceUnderflow)
      case Some(newCallerBalance) =>
        match CheckedAdd(toBalance, amount)
        case None => Trap(BalanceOverflow)
        case Some(newToBalance) =>
          if caller == to then Commit(balances, Ok(()))
          else
            var debited := balances[caller := newCallerBalance];
            TotalUpdate(balances, caller, newCallerBalance);
            TotalUpdate(debited, to, newToBalance);
            Commit(debited[to := newToBalance], Ok(()))
  }

  /** Between two distinct accounts the code and the intended behaviour agree. */
  lemma TransferAsIntendedBetweenDistinct(balances: Balances, caller: AccountId, to: AccountId, amount: U128)
    requires caller != to
    ensures TransferStep(balances, caller, to, amount) == TransferIntended(balances, caller, to, amount)
  {
  }

  /**
    A successful transfer to oneself, as written, leaves the account with its
    old balance plus `amount`: it creates `amount` new tokens.
  */
  lemma SelfTransferCredits(balances: Balances, a: AccountId, amount: U128)
    requires amount <= BalanceIn(balances, a)
    requires BalanceIn(balances, a) + amount < U128_LIMIT
    ensures TransferStep(balances, a, a, amount).Commit?
    ensures TransferStep(balances, a, a, amount).value == Ok(())
    ensures Total(TransferStep(balances, a, a, amount).state) == Total(balances) + amount
  {
    var b := BalanceIn(balances, a);
    var r := TransferStep(balances, a, a, amount);
    assert r.state == balances[a := b - amount][a := b + amount];
    assert r.state == balances[a := b + amount];
    TotalUpdate(balances, a, b + amount);
  }

  // ---------------------------------------------------------------------------
  // Runs of messages

  datatype Message =
    | MintMessage(to: AccountId, amount: U128)
    | TransferMessage(caller: AccountId, to: AccountId, amount: U128)

  /** Storage after one message; a trapped message is reverted. */
  function Deliver(balances: Balances, m: Message): Balances {
    match m
    case MintMessage(to, amount) => MintStep(balances, to, amount).StateAfter(balances)
    case TransferMessage(caller, to, amount) => TransferStep(balances, caller, to, amount).StateAfter(balances)
  }

  /** The amount a message mints: that of a mint that returns, 0 otherwise. */
  function MintedBy(balances: Balances, m: Message): nat {
    match m
    case MintMessage(to, amount) => if MintStep(balances, to, amount).Commit? then amount else 0
    case TransferMessage(_, _, _) => 0
  }

  function Run(balances: Balances, ms: seq<Message>): Balances
    decreases |ms|
  {
    if ms == [] then balances else Run(Deliver(balances, ms[0]), ms[1..])
  }

  function MintedDuring(balances: Balances, ms: seq<Message>): nat
    decreases |ms|
  {
    if ms == [] then 0
    else MintedBy(balances, ms[0]) + MintedDuring(Deliver(balances, ms[0]), ms[1..])
  }

  predicate NoSelfTransfer(ms: seq<Message>) {
    forall i :: 0 <= i < |ms| && ms[i].TransferMessage? ==> ms[i].caller != ms[i].to
  }

  /** One message changes the supply by exactly what it mints, unless it is a self-transfer. */
  lemma DeliverSupply(balances: Balances, m: Message)
    requires m.TransferMessage? ==> m.caller != m.to
    ensures Total(Deliver(balances, m)) == Total(balances) + MintedBy(balances, m)
  {
  }

  /**
    Conservation: over any run without self-transfers, the supply grows by
    exactly the amounts of the mints that returned.
  */
  lemma {:induction false} RunConservesSupply(balances: Balances, ms: seq<Message>)
    requires NoSelfTransfer(ms)
    ensures Total(Run(balances, ms)) == Total(balances) + MintedDuring(balances, ms)
    decreases |ms|
  {
    if ms != [] {
      DeliverSupply(balances, ms[0]);
      assert NoSelfTransfer(ms[1..]) by {
        forall i | 0 <= i < |ms[1..]| && ms[1..][i].TransferMessage?
          ensures ms[1..][i].caller != ms[1..][i].to
        {
          assert ms[1..][i] == ms[i + 1];
        }
      }
      RunConservesSupply(Deliver(balances, ms[0]), ms[1..]);
    }
  }

  /** From a fresh ledger, the supply is the sum of what was minted. */
  lemma SupplyIsMinted(ms: seq<Message>)
    requires NoSelfTransfer(ms)
    ensures Total(Run(map[], ms)) == MintedDuring(map[], ms)
  {
    RunConservesSupply(map[], ms);
  }

  // ---------------------------------------------------------------------------
  // The contract

  class Token {
    var balances: Balances

    /** `Token::new`: empty storage. */
    constructor New()
      ensures balances == map[]
    {
      balances := map[];
    }

    /** `Token::default` and `impl Default`: the same as `new`. */
    constructor Default()
      ensures balances == map[]
    {
      balances := map[];
    }

    /** `balance_of`: the stored balance, or 0 for an account without an entry. */
    method BalanceOf(account: AccountId) returns (balance: U128)
      ensures account in balances ==> balance == balances[account]
      ensures account !in balances ==> balance == 0
    {
      balance := Get(balances, account).UnwrapOr(0);
    }

    /** `mint`: reads the recipient's balance, adds with overflow check, writes it back. */
    method Mint(to: AccountId, amount: U128) returns (outcome: Outcome<()>)
      modifies this
      ensures var step := MintStep(old(balances), to, amount);
              outcome == step.Observed() && balances == step.StateAfter(old(balances))
    {
      var currentBalance := Get(balances, to).UnwrapOr(0);
      var newBalance := CheckedAdd(currentBalance, amount);
      if newBalance.None? {
        return Trapped(BalanceOverflow);
      }
      balances := balances[to := newBalance.value];
      return Returned(());
    }

    /**
      `transfer`: checks the caller's balance, computes both new balances with
      checked arithmetic, and only then writes the caller's and the recipient's
      entries, in that order.
    */
    method Transfer(caller: AccountId, to: AccountId, amount: U128) returns (outcome: Outcome<Result<()>>)
      modifies this
      ensures var step := TransferStep(old(balances), caller, to, amount);
              outcome == step.Observed() && balances == step.StateAfter(old(balances))
    {
      var callerBalance := Get(balances, caller).UnwrapOr(0);
      if callerBalance < amount {
        return Returned(Err(InsufficientBalance));
      }
      var toBalance := Get(balances, to).UnwrapOr(0);
      var newCallerBalance := CheckedSub(callerBalance, amount);
      if newCallerBalance.None? {
        return Trapped(BalanceUnderflow);
      }
      var newToBalance := CheckedAdd(toBalance, amount);
      if newToBalance.None? {
        return Trapped(BalanceOverflow);
      }
      balances := balances[caller := newCallerBalance.value];
      balances := balances[to := newToBalance.value];
      return Returned(Ok(()));
    }
  }

  // ---------------------------------------------------------------------------
  // The contract's unit tests, as clients of the class

  /** A fresh ledger reports 0 for any account. */
  method DefaultWorks(alice: AccountId) returns (balance: U128)
    ensures balance == 0
  {
    var token := new Token.Default();
    balance := token.BalanceOf(alice);
  }

  /** Minting 100 and then 50 gives 150. */
  method MintWorks(alice: AccountId) returns (first: U128, second: U128)
    ensures first == 100 && second == 150
  {
    var token := new Token.New();
    var _ := token.Mint(alice, 100);
    first := token.BalanceOf(alice);
    var _ := token.Mint(alice, 50);
    second := token.BalanceOf(alice);
  }

  /** After minting 100 to Alice, Alice sends 30 to Bob. */
  method TransferWorks(alice: AccountId, bob: AccountId)
    returns (result: Outcome<Result<()>>, aliceBalance: U128, bobBalance: U128)
    requires alice != bob
    ensures result == Returned(Ok(()))
    ensures aliceBalance == 70 && bobBalance == 30
  {
    var token := new Token.New();
    var _ := token.Mint(alice, 100);
    result := token.Transfer(alice, bob, 30);
    aliceBalance := token.BalanceOf(alice);
    bobBalance := token.BalanceOf(bob);
  }

  /** Alice holds nothing; sending 100 to Bob fails and changes nothing. */
  method TransferInsufficientBalance(alice: AccountId, bob: AccountId)
    returns (result: Outcome<Result<()>>, aliceBalance: U128, bobBalance: U128)
    ensures result == Returned(Err(InsufficientBalance))
    ensures aliceBalance == 0 && bobBalance == 0
  {
    var token := new Token.New();
    result := token.Transfer(alice, bob, 100);
    aliceBalance := token.BalanceOf(alice);
    bobBalance := token.BalanceOf(bob);
  }
}
