/** The tokens pallet: its storage maps and the operations that update them step by step. */
module Tokens {
  import opened Base
  import opened Words
  import opened Sums
  import L = Ledger

  datatype OptionBalance = Balance | FreeBalance | FreezedBalance

  /** A call carried out `change`: it either reached its ledger or failed with its error, changing nothing. */
  ghost predicate Carried(change: Result<L.Ledger>, r: Result<()>, before: L.Ledger, after: L.Ledger) {
    if change.Ok? then r.Ok? && after == change.value else r == Err(change.error) && after == before
  }

  class TokenLedger {
    var tokens: map<TokenId, nat>
    var owners: map<TokenId, AccountId>
    var balanceOf: map<L.Holding, nat>
    var freeBalanceOf: map<L.Holding, nat>
    var freezedBalanceOf: map<L.Holding, nat>

    ghost function View(): L.Ledger
      reads this
    {
      L.Ledger(tokens, owners, balanceOf, freeBalanceOf, freezedBalanceOf)
    }

    constructor ()
      ensures View() == L.Ledger(map[], map[], map[], map[], map[])
    {
      tokens, owners, balanceOf, freeBalanceOf, freezedBalanceOf := map[], map[], map[], map[], map[];
    }

    /** A missing entry reads as zero. */
    function GetBalance(owner: AccountId, token: TokenId, option: OptionBalance): nat
      reads this
    {
      match option
      case Balance => Get(balanceOf, (owner, token))
      case FreeBalance => Get(freeBalanceOf, (owner, token))
      case FreezedBalance => Get(freezedBalanceOf, (owner, token))
    }

    method UpdateBalance(owner: AccountId, token: TokenId, balance: nat, option: OptionBalance)
      modifies this
      ensures tokens == old(tokens) && owners == old(owners)
      ensures balanceOf == if option.Balance? then old(balanceOf)[(owner, token) := balance] else old(balanceOf)
      ensures freeBalanceOf ==
              if option.FreeBalance? then old(freeBalanceOf)[(owner, token) := balance] else old(freeBalanceOf)
      ensures freezedBalanceOf ==
              if option.FreezedBalance? then old(freezedBalanceOf)[(owner, token) := balance] else old(freezedBalanceOf)
    {
      match option
      case Balance => balanceOf := balanceOf[(owner, token) := balance];
      case FreeBalance => freeBalanceOf := freeBalanceOf[(owner, token) := balance];
      case FreezedBalance => freezedBalanceOf := freezedBalanceOf[(owner, token) := balance];
    }

    function CheckBalanceEnough(owner: AccountId, token: TokenId, amount: nat, option: OptionBalance): Result<nat>
      reads this
    {
      var balance := GetBalance(owner, token, option);
      if balance >= amount then Ok(balance - amount) else Err(BalanceNotEnough)
    }

    /** The pallet compares a `u128` sum with the largest `u128`, so the check passes with whatever sum. */
    function CheckBalanceOverflow(owner: AccountId, token: TokenId, amount: nat, option: OptionBalance): nat
      reads this
    {
      WrappingAdd(GetBalance(owner, token, option), amount)
    }

    /** `token` is the hash that the pallet computes for the new token. */
    method DoIssue(sender: AccountId, token: TokenId, totalSupply: nat)
      requires token !in tokens
      modifies this
      ensures View() == L.Issue(old(View()), sender, token, totalSupply)
    {
      tokens := tokens[token := totalSupply];
      owners := owners[token := sender];
      UpdateBalance(sender, token, totalSupply, Balance);
      UpdateBalance(sender, token, totalSupply, FreeBalance);
    }

    method DoTransfer(from: AccountId, to: AccountId, token: TokenId, amount: nat) returns (r: Result<()>)
      modifies this
      ensures Carried(L.WrappingTransfer(old(View()), from, to, token, amount), r, old(View()), View())
    {
      r := Ok(());
      :- Ensure(token in tokens, NoMatchingToken);
      :- Ensure((from, token) in freeBalanceOf, SenderHaveNoToken);

      var newFromBalance :- CheckBalanceEnough(from, token, amount, Balance);
      var newFromFreeBalance :- CheckBalanceEnough(from, token, amount, FreeBalance);
      var newToBalance := CheckBalanceOverflow(to, token, amount, Balance);
      var newToFreeBalance := CheckBalanceOverflow(to, token, amount, FreeBalance);

      UpdateBalance(from, token, newFromBalance, Balance);
      UpdateBalance(from, token, newFromFreeBalance, FreeBalance);
      UpdateBalance(to, token, newToBalance, Balance);
      UpdateBalance(to, token, newToFreeBalance, FreeBalance);
    }

    method Transfer(from: AccountId, to: AccountId, token: TokenId, amount: nat) returns (r: Result<()>)
      modifies this
      ensures var moved := L.WrappingTransfer(old(View()), from, to, token, amount);
              Carried(if from == to then Err(MustNotTransferYourself) else moved, r, old(View()), View())
    {
      r := Ok(());
      :- Ensure(from != to, MustNotTransferYourself);
      r := DoTransfer(from, to, token, amount);
    }

    method DoFreeze(owner: AccountId, token: TokenId, amount: nat) returns (r: Result<()>)
      modifies this
      ensures Carried(L.WrappingFreeze(old(View()), owner, token, amount), r, old(View()), View())
    {
      r := Ok(());
      :- Ensure(token in tokens, NoMatchingToken);
      :- Ensure((owner, token) in freeBalanceOf, SenderHaveNoToken);

      var newFreeBalance :- CheckBalanceEnough(owner, token, amount, FreeBalance);
      var newFreezedBalance := CheckBalanceOverflow(owner, token, amount, FreezedBalance);

      UpdateBalance(owner, token, newFreeBalance, FreeBalance);
      UpdateBalance(owner, token, newFreezedBalance, FreezedBalance);
    }

    method DoUnfreeze(owner: AccountId, token: TokenId, amount: nat) returns (r: Result<()>)
      modifies this
      ensures Carried(L.WrappingUnfreeze(old(View()), owner, token, amount), r, old(View()), View())
    {
      r := Ok(());
      :- Ensure(token in tokens, NoMatchingToken);
      :- Ensure((owner, token) in freeBalanceOf, SenderHaveNoToken);

      var newFreeBalance := CheckBalanceOverflow(owner, token, amount, FreeBalance);
      var newFreezedBalance :- CheckBalanceEnough(owner, token, amount, FreezedBalance);

      UpdateBalance(owner, token, newFreeBalance, FreeBalance);
      UpdateBalance(owner, token, newFreezedBalance, FreezedBalance);
    }

    method EnsureFreeBalance(sender: AccountId, token: TokenId, amount: nat) returns (r: Result<()>)
      ensures var check := L.EnsureFreeBalance(View(), sender, token, amount);
              r == if check.Pass? then Ok(()) else Err(check.error)
    {
      r := Ok(());
      :- Ensure(token in tokens, NoMatchingToken);
      :- Ensure((sender, token) in freeBalanceOf, SenderHaveNoToken);
      :- Ensure(GetBalance(sender, token, FreeBalance) >= amount, BalanceNotEnough);
    }
  }
}
