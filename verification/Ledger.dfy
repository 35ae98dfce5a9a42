/** The token ledger as a value: what each operation of the tokens pallet does to the three balance
    maps, and what all of them keep. */
module Ledger {
  import opened Base
  import opened Words
  import opened Sums

  type Holding = (AccountId, TokenId)

  datatype Ledger = Ledger(
    supply: map<TokenId, nat>,
    owners: map<TokenId, AccountId>,
    balance: map<Holding, nat>,
    free: map<Holding, nat>,
    frozen: map<Holding, nat>
  )

  // ---------- Operations, up to the first sum that is no `u128` ----------

  // The pallet's overflow check adds in `u128`, so it cannot fail: where the exact sum is no `u128`, the
  // runtime goes on with a wrapped one, or stops if it is built with overflow checks. Here that is the
  // outcome `ArithmeticOverflow`.

  function Known(l: Ledger, owner: AccountId, token: TokenId): Outcome {
    if token !in l.supply then Fail(NoMatchingToken)
    else if (owner, token) !in l.free then Fail(SenderHaveNoToken)
    else Pass
  }

  function Issue(l: Ledger, sender: AccountId, token: TokenId, amount: nat): Ledger {
    Ledger(l.supply[token := amount], l.owners[token := sender],
           l.balance[(sender, token) := amount], l.free[(sender, token) := amount], l.frozen)
  }

  function Transfer(l: Ledger, from: AccountId, to: AccountId, token: TokenId, amount: nat): Result<Ledger> {
    var source, target := (from, token), (to, token);
    if Known(l, from, token).Fail? then Err(Known(l, from, token).error)
    else if Get(l.balance, source) < amount || Get(l.free, source) < amount then Err(BalanceNotEnough)
    else if Get(l.balance, target) + amount > U128_MAX || Get(l.free, target) + amount > U128_MAX then
      Err(ArithmeticOverflow)
    else Ok(l.(
      balance := l.balance[source := Get(l.balance, source) - amount][target := Get(l.balance, target) + amount],
      free := l.free[source := Get(l.free, source) - amount][target := Get(l.free, target) + amount]))
  }

  function Freeze(l: Ledger, owner: AccountId, token: TokenId, amount: nat): Result<Ledger> {
    var h := (owner, token);
    if Known(l, owner, token).Fail? then Err(Known(l, owner, token).error)
    else if Get(l.free, h) < amount then Err(BalanceNotEnough)
    else if Get(l.frozen, h) + amount > U128_MAX then Err(ArithmeticOverflow)
    else Ok(l.(free := l.free[h := l.free[h] - amount], frozen := l.frozen[h := Get(l.frozen, h) + amount]))
  }

  function Unfreeze(l: Ledger, owner: AccountId, token: TokenId, amount: nat): Result<Ledger> {
    var h := (owner, token);
    if Known(l, owner, token).Fail? then Err(Known(l, owner, token).error)
    else if Get(l.free, h) + amount > U128_MAX then Err(ArithmeticOverflow)
    else if Get(l.frozen, h) < amount then Err(BalanceNotEnough)
    else Ok(l.(free := l.free[h := l.free[h] + amount], frozen := l.frozen[h := Get(l.frozen, h) - amount]))
  }

  function EnsureFreeBalance(l: Ledger, owner: AccountId, token: TokenId, amount: nat): Outcome {
    if Known(l, owner, token).Fail? then Known(l, owner, token)
    else if Get(l.free, (owner, token)) < amount then Fail(BalanceNotEnough)
    else Pass
  }

  // ---------- The operations as the runtime carries them out, in wrapping `u128` words ----------

  function WrappingTransfer(l: Ledger, from: AccountId, to: AccountId, token: TokenId, amount: nat): Result<Ledger> {
    var source, target := (from, token), (to, token);
    if Known(l, from, token).Fail? then Err(Known(l, from, token).error)
    else if Get(l.balance, source) < amount || Get(l.free, source) < amount then Err(BalanceNotEnough)
    else Ok(l.(
      balance := l.balance[source := Get(l.balance, source) - amount]
                          [target := WrappingAdd(Get(l.balance, target), amount)],
      free := l.free[source := Get(l.free, source) - amount][target := WrappingAdd(Get(l.free, target), amount)]))
  }

  function WrappingFreeze(l: Ledger, owner: AccountId, token: TokenId, amount: nat): Result<Ledger> {
    var h := (owner, token);
    if Known(l, owner, token).Fail? then Err(Known(l, owner, token).error)
    else if Get(l.free, h) < amount then Err(BalanceNotEnough)
    else Ok(l.(free := l.free[h := l.free[h] - amount],
               frozen := l.frozen[h := WrappingAdd(Get(l.frozen, h), amount)]))
  }

  function WrappingUnfreeze(l: Ledger, owner: AccountId, token: TokenId, amount: nat): Result<Ledger> {
    var h := (owner, token);
    if Known(l, owner, token).Fail? then Err(Known(l, owner, token).error)
    else if Get(l.frozen, h) < amount then Err(BalanceNotEnough)
    else Ok(l.(free := l.free[h := WrappingAdd(l.free[h], amount)],
               frozen := l.frozen[h := Get(l.frozen, h) - amount]))
  }

  /** Where no sum leaves `u128`, the runtime does what exact arithmetic does. */
  lemma WrappingAgrees(l: Ledger, from: AccountId, to: AccountId, token: TokenId, amount: nat)
    ensures Transfer(l, from, to, token, amount) != Err(ArithmeticOverflow) ==>
              WrappingTransfer(l, from, to, token, amount) == Transfer(l, from, to, token, amount)
    ensures Freeze(l, from, token, amount) != Err(ArithmeticOverflow) ==>
              WrappingFreeze(l, from, token, amount) == Freeze(l, from, token, amount)
    ensures Unfreeze(l, from, token, amount) != Err(ArithmeticOverflow) ==>
              WrappingUnfreeze(l, from, token, amount) == Unfreeze(l, from, token, amount)
  {
    hide Wrap;
  }

  /** Between different accounts the runtime moves the amount, modulo 2^128 where it arrives, and checks only what
      the sender has; nothing else changes. */
  lemma WrappingMoves(l: Ledger, from: AccountId, to: AccountId, token: TokenId, amount: nat)
    requires from != to
    ensures var r, source, target := WrappingTransfer(l, from, to, token, amount), (from, token), (to, token);
            && (r.Ok? <==> Known(l, from, token).Pass? &&
                           amount <= Get(l.balance, source) && amount <= Get(l.free, source))
            && (r.Ok? ==>
                  && r.value == l.(balance := r.value.balance, free := r.value.free)
                  && Get(r.value.balance, source) == Get(l.balance, source) - amount
                  && Get(r.value.free, source) == Get(l.free, source) - amount
                  && Get(r.value.balance, target) == (Get(l.balance, target) + amount) % TWO_TO_128
                  && Get(r.value.free, target) == (Get(l.free, target) + amount) % TWO_TO_128
                  && forall h: Holding :: h != source && h != target ==>
                       Get(r.value.balance, h) == Get(l.balance, h) && Get(r.value.free, h) == Get(l.free, h))
  {
    OperatorsWrap(Get(l.balance, (to, token)), amount);
    OperatorsWrap(Get(l.free, (to, token)), amount);
    hide Wrap, WrappingAdd;
  }

  /** Freezing takes the amount off what is free, and unfreezing off what is frozen; it arrives modulo 2^128. */
  lemma WrappingHolds(l: Ledger, owner: AccountId, token: TokenId, amount: nat)
    ensures var r, h := WrappingFreeze(l, owner, token, amount), (owner, token);
            && (r.Ok? <==> Known(l, owner, token).Pass? && amount <= Get(l.free, h))
            && (r.Ok? ==> r.value == l.(free := l.free[h := Get(l.free, h) - amount],
                                        frozen := l.frozen[h := (Get(l.frozen, h) + amount) % TWO_TO_128]))
    ensures var r, h := WrappingUnfreeze(l, owner, token, amount), (owner, token);
            && (r.Ok? <==> Known(l, owner, token).Pass? && amount <= Get(l.frozen, h))
            && (r.Ok? ==> r.value == l.(free := l.free[h := (Get(l.free, h) + amount) % TWO_TO_128],
                                        frozen := l.frozen[h := Get(l.frozen, h) - amount]))
  {
    OperatorsWrap(Get(l.free, (owner, token)), amount);
    OperatorsWrap(Get(l.frozen, (owner, token)), amount);
    hide Wrap, WrappingAdd;
  }

  // ---------- Soundness ----------

  function Slice(m: map<Holding, nat>, token: TokenId): map<Holding, nat> {
    map h | h in m && h.1 == token :: m[h]
  }

  /** All that the accounts together hold of one token. */
  ghost function Total(m: map<Holding, nat>, token: TokenId): nat {
    Sum(Slice(m, token))
  }

  ghost predicate Split(l: Ledger) {
    forall h: Holding :: Get(l.balance, h) == Get(l.free, h) + Get(l.frozen, h)
  }

  ghost predicate TokensKnown(l: Ledger) {
    && l.owners.Keys == l.supply.Keys
    && (forall h <- l.balance.Keys :: h.1 in l.supply)
    && (forall h <- l.free.Keys :: h.1 in l.supply)
    && (forall h <- l.frozen.Keys :: h.1 in l.supply)
  }

  ghost predicate Conserved(l: Ledger) {
    forall t <- l.supply.Keys :: Total(l.balance, t) == l.supply[t] <= U128_MAX
  }

  /** What an account holds of a token is a `u128`. */
  ghost predicate Bounded(l: Ledger) {
    forall h: Holding :: Get(l.balance, h) <= U128_MAX
  }

  /** Everything but conservation: it survives even transfers to oneself. */
  ghost predicate Orderly(l: Ledger) {
    TokensKnown(l) && Split(l) && Bounded(l)
  }

  ghost predicate Sound(l: Ledger) {
    Orderly(l) && Conserved(l)
  }

  /** Some token has more in circulation than its supply. */
  ghost predicate Inflated(l: Ledger) {
    exists t <- l.supply.Keys :: Total(l.balance, t) > l.supply[t]
  }

  lemma TotalUpdate(m: map<Holding, nat>, h: Holding, v: nat, t: TokenId)
    ensures Total(m[h := v], t) == if h.1 == t then Total(m, t) - Get(m, h) + v else Total(m, t)
  {
    if h.1 == t {
      assert Slice(m[h := v], t) == Slice(m, t)[h := v];
      SumUpdate(Slice(m, t), h, v);
    } else {
      assert Slice(m[h := v], t) == Slice(m, t);
    }
  }

  /** No account holds more than the supply, and no two accounts together do. */
  lemma WithinSupply(l: Ledger, a: AccountId, b: AccountId, t: TokenId)
    requires Conserved(l) && t in l.supply
    ensures Get(l.balance, (a, t)) <= l.supply[t] <= U128_MAX
    ensures a != b ==> Get(l.balance, (a, t)) + Get(l.balance, (b, t)) <= l.supply[t]
  {
    SumCovers(Slice(l.balance, t), (a, t));
    if a != b {
      SumCoversTwo(Slice(l.balance, t), (a, t), (b, t));
    }
  }

  /** Conservation is about supplies and balances only. */
  lemma SameMoney(l: Ledger, l': Ledger)
    requires Orderly(l) && Orderly(l') && l'.supply == l.supply && l'.balance == l.balance
    ensures Sound(l') <==> Sound(l)
    ensures Inflated(l') <==> Inflated(l)
  {
    hide Total, Orderly;
  }

  // ---------- Freezing and unfreezing ----------

  /** Freezing and unfreezing move funds inside one account; no sum of theirs ever leaves `u128`. */
  lemma FreezeExact(l: Ledger, owner: AccountId, token: TokenId, amount: nat)
    requires Orderly(l)
    ensures var r := Freeze(l, owner, token, amount);
            && (r.Ok? <==> Known(l, owner, token).Pass? && amount <= Get(l.free, (owner, token)))
            && r != Err(ArithmeticOverflow)
            && (r.Ok? ==> Orderly(r.value) && (Sound(r.value) <==> Sound(l)))
  {
    hide Total;
    var h := (owner, token);
    assert Get(l.balance, h) == Get(l.free, h) + Get(l.frozen, h) <= U128_MAX;
    var r := Freeze(l, owner, token, amount);
    if r.Ok? {
      FreezeOrderly(l, owner, token, amount);
      SameMoney(l, r.value);
    }
  }

  lemma FreezeOrderly(l: Ledger, owner: AccountId, token: TokenId, amount: nat)
    requires Orderly(l) && Freeze(l, owner, token, amount).Ok?
    ensures Orderly(Freeze(l, owner, token, amount).value)
  {
  }

  lemma UnfreezeExact(l: Ledger, owner: AccountId, token: TokenId, amount: nat)
    requires Orderly(l)
    ensures var r := Unfreeze(l, owner, token, amount);
            && (r.Ok? <==> Known(l, owner, token).Pass? && amount <= Get(l.frozen, (owner, token)))
            && (r.Ok? ==> Orderly(r.value) && (Sound(r.value) <==> Sound(l)))
  {
    hide Total;
    var h := (owner, token);
    assert Get(l.balance, h) == Get(l.free, h) + Get(l.frozen, h) <= U128_MAX;
    var r := Unfreeze(l, owner, token, amount);
    if r.Ok? {
      UnfreezeOrderly(l, owner, token, amount);
      SameMoney(l, r.value);
    }
  }

  lemma UnfreezeOrderly(l: Ledger, owner: AccountId, token: TokenId, amount: nat)
    requires Orderly(l) && Unfreeze(l, owner, token, amount).Ok?
    ensures Orderly(Unfreeze(l, owner, token, amount).value)
  {
  }

  // ---------- Transfers ----------

  /** A transfer keeps every total, except that one to oneself creates the transferred amount. */
  lemma TransferTotals(l: Ledger, from: AccountId, to: AccountId, token: TokenId, amount: nat, t: TokenId)
    requires Transfer(l, from, to, token, amount).Ok?
    ensures Total(Transfer(l, from, to, token, amount).value.balance, t)
         == Total(l.balance, t) + if from == to && t == token then amount else 0
  {
    hide Total;
    var source, target := (from, token), (to, token);
    var debited := l.balance[source := Get(l.balance, source) - amount];
    TotalUpdate(l.balance, source, Get(l.balance, source) - amount, t);
    TotalUpdate(debited, target, Get(l.balance, target) + amount, t);
  }

  lemma TransferOrderly(l: Ledger, from: AccountId, to: AccountId, token: TokenId, amount: nat)
    requires Orderly(l) && Transfer(l, from, to, token, amount).Ok?
    ensures Orderly(Transfer(l, from, to, token, amount).value)
  {
  }

  /** A transfer of free funds goes through if and only if the receiver's new balance is a `u128`; it can
      fail for no other reason. */
  lemma TransferExact(l: Ledger, from: AccountId, to: AccountId, token: TokenId, amount: nat)
    requires Orderly(l) && Known(l, from, token).Pass? && amount <= Get(l.free, (from, token))
    ensures var r := Transfer(l, from, to, token, amount);
            && (r.Ok? <==> Get(l.balance, (to, token)) + amount <= U128_MAX)
            && (r.Err? ==> r.error == ArithmeticOverflow)
  {
    hide TokensKnown, Bounded;
    assert Get(l.balance, (from, token)) == Get(l.free, (from, token)) + Get(l.frozen, (from, token));
    assert Get(l.balance, (to, token)) == Get(l.free, (to, token)) + Get(l.frozen, (to, token));
  }

  /** Soundness survives a successful transfer if and only if it is not a positive one to oneself. */
  lemma TransferSound(l: Ledger, from: AccountId, to: AccountId, token: TokenId, amount: nat)
    requires Sound(l) && Transfer(l, from, to, token, amount).Ok?
    ensures Sound(Transfer(l, from, to, token, amount).value) <==> from != to || amount == 0
  {
    TransferOrderly(l, from, to, token, amount);
    hide Orderly, Total;
    TransferTotals(l, from, to, token, amount, token);
    assert token in l.supply;
    if from != to || amount == 0 {
      forall t | t in l.supply
        ensures Total(Transfer(l, from, to, token, amount).value.balance, t) == l.supply[t]
      {
        TransferTotals(l, from, to, token, amount, t);
      }
    }
  }

  /** Between different accounts a transfer succeeds exactly when the sender has the free funds. */
  lemma TransferSucceeds(l: Ledger, from: AccountId, to: AccountId, token: TokenId, amount: nat)
    requires Sound(l) && from != to
    ensures Transfer(l, from, to, token, amount).Ok? <==>
              Known(l, from, token).Pass? && amount <= Get(l.free, (from, token))
  {
    hide Conserved, TokensKnown, Bounded;
    if Known(l, from, token).Pass? && amount <= Get(l.free, (from, token)) {
      WithinSupply(l, from, to, token);
      assert Get(l.balance, (from, token)) >= Get(l.free, (from, token));
      TransferExact(l, from, to, token, amount);
    }
  }

  /** What the runtime makes of a transfer to oneself, whether its sums wrap or not: it creates the amount,
      less 2^128 if the balance wraps; and balance, free and frozen stay in step unless the balance wraps
      while the free balance does not. */
  lemma WrappingToItself(l: Ledger, a: AccountId, token: TokenId, amount: nat)
    requires Orderly(l) && Known(l, a, token).Pass? && amount <= Get(l.free, (a, token))
    ensures var h, r := (a, token), WrappingTransfer(l, a, a, token, amount);
            && r.Ok?
            && Total(r.value.balance, token) == Total(l.balance, token) + amount
                 - (if Get(l.balance, h) + amount <= U128_MAX then 0 else TWO_TO_128)
            && (Orderly(r.value) <==> Get(l.balance, h) + amount <= U128_MAX || Get(l.free, h) + amount > U128_MAX)
  {
    var h := (a, token);
    assert Get(l.balance, h) == Get(l.free, h) + Get(l.frozen, h) <= U128_MAX;
    WrapOnce(Get(l.balance, h), amount);
    WrapOnce(Get(l.free, h), amount);
    var l' := WrappingTransfer(l, a, a, token, amount).value;
    SelfWritten(l, h, Get(l.balance, h) - amount, WrappingAdd(Get(l.balance, h), amount), token);
    hide Total, WrappingAdd, TokensKnown;
    assert l'.balance == l.balance[h := WrappingAdd(Get(l.balance, h), amount)];
    assert l'.free == l.free[h := WrappingAdd(Get(l.free, h), amount)];
    WrittenOrderly(l, l', h);
  }

  lemma WrapOnce(x: nat, amount: nat)
    requires x <= U128_MAX && amount <= U128_MAX
    ensures WrappingAdd(x, amount) == x + amount - if x + amount <= U128_MAX then 0 else TWO_TO_128
  {
  }

  lemma SelfWritten(l: Ledger, h: Holding, v: nat, v': nat, t: TokenId)
    ensures l.balance[h := v][h := v'] == l.balance[h := v']
    ensures h.1 == t ==> Total(l.balance[h := v'], t) == Total(l.balance, t) - Get(l.balance, h) + v'
  {
    TotalUpdate(l.balance, h, v', t);
  }

  /** With one holding rewritten, a ledger is orderly exactly if that holding is. */
  lemma WrittenOrderly(l: Ledger, l': Ledger, h: Holding)
    requires Orderly(l) && h in l.free && h.1 in l.supply
    requires l' == l.(balance := l.balance[h := Get(l'.balance, h)], free := l.free[h := Get(l'.free, h)])
    ensures Orderly(l') <==>
              Get(l'.balance, h) == Get(l'.free, h) + Get(l'.frozen, h) && Get(l'.balance, h) <= U128_MAX
  {
  }

  // ---------- Issuing ----------

  lemma IssueTotals(l: Ledger, sender: AccountId, token: TokenId, amount: nat, t: TokenId)
    requires TokensKnown(l) && token !in l.supply
    ensures Total(l.balance[(sender, token) := amount], t) == if t == token then amount else Total(l.balance, t)
  {
    TotalUpdate(l.balance, (sender, token), amount, t);
    if t == token {
      assert Slice(l.balance, t) == map[];
    }
  }

  lemma IssueOrderly(l: Ledger, sender: AccountId, token: TokenId, amount: nat)
    requires Orderly(l) && token !in l.supply && amount <= U128_MAX
    ensures Orderly(Issue(l, sender, token, amount))
  {
  }

  lemma IssueSound(l: Ledger, sender: AccountId, token: TokenId, amount: nat)
    requires Sound(l) && token !in l.supply && amount <= U128_MAX
    ensures Sound(Issue(l, sender, token, amount))
  {
    IssueOrderly(l, sender, token, amount);
    hide Split, Bounded, Total;
    forall t | t in Issue(l, sender, token, amount).supply
      ensures Total(Issue(l, sender, token, amount).balance, t) == Issue(l, sender, token, amount).supply[t] <= U128_MAX
    {
      IssueTotals(l, sender, token, amount, t);
    }
  }

  // ---------- Whole runs of ledger operations ----------

  datatype Step =
    | Issuing(sender: AccountId, token: TokenId, amount: nat)
    | Transferring(from: AccountId, to: AccountId, token: TokenId, amount: nat)
    | Freezing(owner: AccountId, token: TokenId, amount: nat)
    | Unfreezing(owner: AccountId, token: TokenId, amount: nat)

  function Take(l: Ledger, s: Step): Result<Ledger> {
    match s
    case Issuing(sender, token, amount) => Ok(Issue(l, sender, token, amount))
    case Transferring(from, to, token, amount) => Transfer(l, from, to, token, amount)
    case Freezing(owner, token, amount) => Freeze(l, owner, token, amount)
    case Unfreezing(owner, token, amount) => Unfreeze(l, owner, token, amount)
  }

  /** A step that fails is not taken. */
  function Taken(l: Ledger, s: Step): Ledger {
    if Take(l, s).Ok? then Take(l, s).value else l
  }

  const NOTHING := Ledger(map[], map[], map[], map[], map[])

  function After(steps: seq<Step>): Ledger {
    if steps == [] then NOTHING else Taken(After(steps[..|steps| - 1]), steps[|steps| - 1])
  }

  /** An issued token is new, its amount is a `u128`, and no sum leaves `u128`. */
  ghost predicate Proper(l: Ledger, s: Step) {
    && (s.Issuing? ==> s.token !in l.supply && s.amount <= U128_MAX)
    && Take(l, s) != Err(ArithmeticOverflow)
  }

  /** Whether a step gives an account something that it has given to itself. */
  predicate ToItself(l: Ledger, s: Step) {
    s.Transferring? && s.from == s.to && 0 < s.amount && Take(l, s).Ok?
  }

  lemma StepKeeps(l: Ledger, s: Step)
    requires Proper(l, s)
    ensures Orderly(l) ==> Orderly(Taken(l, s))
    ensures Sound(l) ==> (Sound(Taken(l, s)) <==> !ToItself(l, s))
  {
    hide Orderly, Conserved, Issue, Transfer, Freeze, Unfreeze;
    if Orderly(l) && Take(l, s).Ok? {
      match s
      case Issuing(sender, token, amount) =>
        IssueOrderly(l, sender, token, amount);
        if Sound(l) {
          IssueSound(l, sender, token, amount);
        }
      case Transferring(from, to, token, amount) =>
        TransferOrderly(l, from, to, token, amount);
        if Sound(l) {
          TransferSound(l, from, to, token, amount);
        }
      case Freezing(owner, token, amount) => FreezeExact(l, owner, token, amount);
      case Unfreezing(owner, token, amount) => UnfreezeExact(l, owner, token, amount);
    }
  }

  /** Nothing takes money out of circulation again. */
  lemma StepInflated(l: Ledger, s: Step)
    requires Orderly(l) && Inflated(l) && Proper(l, s)
    ensures Inflated(Taken(l, s))
  {
    var t :| t in l.supply && Total(l.balance, t) > l.supply[t];
    hide Total, Split, Bounded;
    if Take(l, s).Ok? {
      match s
      case Issuing(sender, token, amount) => IssueTotals(l, sender, token, amount, t);
      case Transferring(from, to, token, amount) => TransferTotals(l, from, to, token, amount, t);
      case Freezing(_, _, _) =>
      case Unfreezing(_, _, _) =>
    }
    assert t in Taken(l, s).supply && Total(Taken(l, s).balance, t) > Taken(l, s).supply[t];
  }

  lemma SelfInflates(l: Ledger, s: Step)
    requires Sound(l) && ToItself(l, s)
    ensures Inflated(Taken(l, s))
  {
    hide Total, Split, Bounded;
    TransferTotals(l, s.from, s.to, s.token, s.amount, s.token);
    assert s.token in Taken(l, s).supply;
  }

  lemma InflatedUnsound(l: Ledger)
    requires Inflated(l)
    ensures !Sound(l)
  {
    hide Total;
  }

  /** After any run of ledger operations whose sums are `u128`, all that is held of every token is its supply,
      if and only if nobody has transferred anything to himself. */
  lemma {:induction false} StepsSoundExact(steps: seq<Step>)
    requires forall i :: 0 <= i < |steps| ==> Proper(After(steps[..i]), steps[i])
    ensures Orderly(After(steps))
    ensures Sound(After(steps)) || Inflated(After(steps))
    ensures Sound(After(steps)) <==>
            forall i :: 0 <= i < |steps| ==> !ToItself(After(steps[..i]), steps[i])
  {
    hide Orderly, Sound, Inflated, ToItself, Taken, Proper;
    if steps == [] {
      NothingSound();
    } else {
      var n := |steps| - 1;
      var before, s := steps[..n], steps[n];
      assert forall i :: 0 <= i <= n ==> before[..i] == steps[..i];
      StepsSoundExact(before);
      StepKeeps(After(before), s);
      if Inflated(After(before)) {
        StepInflated(After(before), s);
        InflatedUnsound(After(before));
        InflatedUnsound(After(steps));
      } else if ToItself(After(before), s) {
        SelfInflates(After(before), s);
      }
      assert Sound(After(steps)) <==> Sound(After(before)) && !ToItself(After(before), s);
    }
  }

  lemma NothingSound()
    ensures Orderly(NOTHING) && Sound(NOTHING)
  {
  }
}
