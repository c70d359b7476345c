/** Splitting a sweep of coins into transactions below the standard mass limit. */
module Sweep {
  import opened Arithmetic
  import opened Utxo
  import TxMass

  const EXTRA_MASS: nat := 7000           // for signatures added later
  const MAXIMUM_STANDARD_MASS: nat := 100_000

  datatype Coin = Coin(outpoint: Outpoint, amount: nat)

  /** A transaction of the sweep: its inputs and the value of its one output. */
  datatype Tx = Tx(inputs: seq<Coin>, value: nat)

  /** The mass calculator's rates and the length of the destination's script. */
  datatype Rates = Rates(calculator: TxMass.Calculator, script: TxMass.Length)

  /** What the calculator is given: `n` inputs not signed yet, and one output to the destination. */
  function Tested(r: Rates, n: nat): TxMass.Transaction {
    TxMass.Transaction(0, seq(n, _ => TxMass.Input(0, 1)), [TxMass.Output(r.script)], 0, false)
  }

  function Mass(r: Rates, n: nat): nat {
    (112 + 52 * n + r.script) * r.calculator.massPerTxByte + (2 + r.script) * r.calculator.massPerScriptByte +
    n * r.calculator.massPerSigOp
  }

  lemma MassIsCalculated(r: Rates, n: nat)
    ensures TxMass.MassOf(r.calculator, Tested(r, n)) == Mass(r, n)
  {
    TxMass.UnsignedMass(r.calculator, Tested(r, n), n, r.script);
  }

  /** The source's test, in 64-bit arithmetic. */
  predicate Fits(r: Rates, n: nat) {
    Wrap(Mass(r, n) + EXTRA_MASS) < MAXIMUM_STANDARD_MASS
  }

  /** The mass of `n` inputs in one transaction does not wrap. */
  ghost predicate NoWrap(r: Rates, n: nat) {
    Mass(r, n) + EXTRA_MASS < 0x1_0000_0000_0000_0000
  }

  datatype Result = Splits(txs: seq<Tx>) | NegativeFee | OneInputTooHeavy

  // ----- Sums

  function Total(coins: seq<Coin>): nat
    decreases |coins|
  {
    if coins == [] then 0 else Total(coins[..|coins|-1]) + coins[|coins|-1].amount
  }

  lemma {:induction false} TotalConcat(a: seq<Coin>, b: seq<Coin>)
    ensures Total(a + b) == Total(a) + Total(b)
    decreases |b|
  {
    if b == [] {
      assert a + b == a;
    } else {
      assert (a + b)[..|a + b| - 1] == a + b[..|b|-1];
      TotalConcat(a, b[..|b|-1]);
    }
  }

  function Inputs(txs: seq<Tx>): seq<Coin>
    decreases |txs|
  {
    if txs == [] then [] else Inputs(txs[..|txs|-1]) + txs[|txs|-1].inputs
  }

  function Values(txs: seq<Tx>): nat
    decreases |txs|
  {
    if txs == [] then 0 else Values(txs[..|txs|-1]) + txs[|txs|-1].value
  }

  lemma InputsSnoc(txs: seq<Tx>, tx: Tx)
    ensures Inputs(txs + [tx]) == Inputs(txs) + tx.inputs && Values(txs + [tx]) == Values(txs) + tx.value
  {
  }

  // ----- What one split is

  lemma WrapSub(a: int, b: int)
    ensures Wrap(Wrap(a) - Wrap(b)) == Wrap(a - b) && Wrap(Wrap(a) - b) == Wrap(a - b)
  {
  }

  lemma WrapSum(a: int, b: int, c: int)
    requires Wrap(a) == Wrap(b)
    ensures Wrap(a + Wrap(c)) == Wrap(b + c)
  {
  }

  /** What remains of the inputs after the fee. */
  function Remainder(inputs: seq<Coin>, fee: nat): int {
    Total(inputs) - |inputs| * fee
  }

  /** `fits` says how many inputs a transaction may have. */
  ghost predicate GoodSplit(fits: nat -> bool, fee: nat, tx: Tx) {
    tx.inputs != [] && tx.value == Wrap(Remainder(tx.inputs, fee)) && fits(|tx.inputs|)
  }

  ghost predicate AllGood(fits: nat -> bool, fee: nat, txs: seq<Tx>) {
    forall k :: 0 <= k < |txs| ==> GoodSplit(fits, fee, txs[k])
  }

  /** None of the first `n` splits could have taken one more coin. */
  ghost predicate Full(fits: nat -> bool, txs: seq<Tx>, n: int) {
    forall k :: 0 <= k < n && k < |txs| ==> !fits(|txs[k].inputs| + 1)
  }

  /** An ordered partition of the coins into splits that fit, each but the last as full as it can be. */
  ghost predicate GoodSplits(fits: nat -> bool, fee: nat, coins: seq<Coin>, txs: seq<Tx>) {
    Inputs(txs) == coins && AllGood(fits, fee, txs) && Full(fits, txs, |txs| - 1)
  }

  // ----- The splitting loop

  /** The transaction under test, with the wrapped running total of its inputs. */
  method WithCoin(inputs: seq<Coin>, total: nat, coin: Coin, fee: nat) returns (tx: Tx, total': nat)
    requires total == Wrap(Total(inputs))
    ensures tx == Tx(inputs + [coin], Wrap(Remainder(inputs + [coin], fee)))
    ensures total' == Wrap(Total(inputs + [coin]))
  {
    total' := Wrap(total + coin.amount);
    assert (inputs + [coin])[..|inputs|] == inputs;
    WrapAdd(Total(inputs), coin.amount);
    var more := inputs + [coin];
    var taken := Wrap(|more| * fee);
    WrapSub(Total(more), |more| * fee);
    tx := Tx(more, Wrap(total' - taken));
  }

  /** What the loop keeps before coin `i`: the closed splits and the current transaction hold the coins before `i`,
      the current one has been found to fit, and `lastValid` is a copy of it. */
  ghost predicate LoopInv(fits: nat -> bool, fee: nat, coins: seq<Coin>, i: nat, txs: seq<Tx>, current: seq<Coin>,
                          total: nat, lastValid: Tx)
    requires i <= |coins|
  {
    && Inputs(txs) + current == coins[..i]
    && total == Wrap(Total(current))
    && (i == 0 ==> txs == [] && current == [])
    && (i > 0 ==> fits(1) && lastValid.inputs == current && GoodSplit(fits, fee, lastValid))
    && AllGood(fits, fee, txs) && Full(fits, txs, |txs|)
  }

  function Fitting(r: Rates): nat -> bool {
    (n: nat) => Fits(r, n)
  }

  /** The test on the transaction under test: its calculated mass and the signatures' reserve, in 64 bits. */
  method TestMass(r: Rates, n: nat) returns (ok: bool)
    ensures ok <==> Fitting(r)(n)
  {
    var mass := TxMass.CalculateTransactionMass(r.calculator, Tested(r, n));
    MassIsCalculated(r, n);
    WrapAdd(Mass(r, n), EXTRA_MASS);
    ok := Wrap(mass + 7000) < 100_000;
  }

  /** Puts coin `i` into the current transaction, or, if that makes it too heavy, closes the last valid one and
      carries the coin over to a new transaction. */
  method Place(r: Rates, ghost fits: nat -> bool, fee: nat, coins: seq<Coin>, i: nat, txs: seq<Tx>,
               current: seq<Coin>, total: nat, lastValid: Tx)
    returns (txs': seq<Tx>, tx: Tx, total': nat, tooHeavy: bool)
    requires fits == Fitting(r) && i < |coins| && LoopInv(fits, fee, coins, i, txs, current, total, lastValid)
    ensures tooHeavy <==> i == 0 && !fits(1)
    ensures !tooHeavy ==> fits(1) && Inputs(txs') + tx.inputs == coins[..i+1] && GoodSplit(fits, fee, tx)
    ensures !tooHeavy ==> AllGood(fits, fee, txs') && Full(fits, txs', |txs'|) && total' == Wrap(Total(tx.inputs))
  {
    assert coins[..i+1] == coins[..i] + [coins[i]];
    txs', tooHeavy := txs, false;
    tx, total' := WithCoin(current, total, coins[i], fee);
    var ok := TestMass(r, |tx.inputs|);
    if !ok {
      if |tx.inputs| == 1 {
        tooHeavy := true;
        return;
      }
      InputsSnoc(txs, lastValid);
      txs' := txs + [lastValid];
      assert Total([]) == 0 && [] + [coins[i]] == [coins[i]];
      tx, total' := WithCoin([], 0, coins[i], fee);
    }
  }

  method SplitCoins(r: Rates, ghost fits: nat -> bool, coins: seq<Coin>, fee: nat) returns (result: Result)
    requires fits == Fitting(r)
    ensures !result.NegativeFee? && (result.OneInputTooHeavy? <==> coins != [] && !fits(1))
    ensures result.Splits? ==> GoodSplits(fits, fee, coins, result.txs)
  {
    var txs: seq<Tx> := [];
    var total := 0;
    var lastValid := Tx([], 0);
    var current: seq<Coin> := [];
    for i := 0 to |coins|
      invariant LoopInv(fits, fee, coins, i, txs, current, total, lastValid)
      invariant i == |coins| ==> coins == []
    {
      var tx, tooHeavy;
      txs, tx, total, tooHeavy := Place(r, fits, fee, coins, i, txs, current, total, lastValid);
      if tooHeavy {
        return OneInputTooHeavy;
      }
      if i == |coins| - 1 {
        assert coins[..i+1] == coins;
        InputsSnoc(txs, tx);
        return Splits(txs + [tx]);
      }
      current, lastValid := tx.inputs, tx;
    }
    return Splits(txs);
  }

  method CreateSplitTransactions(r: Rates, coins: seq<Coin>, feePerInput: int) returns (result: Result)
    ensures result.NegativeFee? <==> feePerInput < 0
    ensures result.OneInputTooHeavy? <==> feePerInput >= 0 && coins != [] && !Fits(r, 1)
    ensures result.Splits? ==> GoodSplits(Fitting(r), feePerInput, coins, result.txs)
    ensures result.Splits? ==> forall k :: 0 <= k < |result.txs| ==> Standard(r, result.txs[k])
  {
    if feePerInput < 0 {
      return NegativeFee;
    }
    result := SplitCoins(r, Fitting(r), coins, feePerInput);
    if result.Splits? {
      forall k | 0 <= k < |result.txs| ensures Standard(r, result.txs[k]) {
        SplitIsStandard(r, feePerInput, result.txs[k]);
      }
    }
  }

  /** With the mass the signatures will add, the calculator puts the transaction below the standard limit. */
  ghost predicate Standard(r: Rates, tx: Tx) {
    Wrap(TxMass.MassOf(r.calculator, Tested(r, |tx.inputs|)) + 7000) < 100_000
  }

  lemma SplitIsStandard(r: Rates, fee: nat, tx: Tx)
    requires GoodSplit(Fitting(r), fee, tx)
    ensures Standard(r, tx)
  {
    MassIsCalculated(r, |tx.inputs|);
  }

  // ----- Conservation

  /** Up to 64-bit wrapping nothing is lost: outputs plus fees are the coins. */
  lemma {:induction false} ValueConservedModulo(fits: nat -> bool, fee: nat, txs: seq<Tx>)
    requires AllGood(fits, fee, txs)
    ensures Wrap(Values(txs)) == Wrap(Remainder(Inputs(txs), fee))
    decreases |txs|
  {
    if txs != [] {
      var front, last := txs[..|txs|-1], txs[|txs|-1];
      ValueConservedModulo(fits, fee, front);
      RemainderConcat(Inputs(front), last.inputs, fee);
      assert last.value == Wrap(Remainder(last.inputs, fee));
      WrapSum(Values(front), Remainder(Inputs(front), fee), Remainder(last.inputs, fee));
    }
  }

  lemma RemainderConcat(a: seq<Coin>, b: seq<Coin>, fee: nat)
    ensures Remainder(a + b, fee) == Remainder(a, fee) + Remainder(b, fee)
  {
    TotalConcat(a, b);
    assert |a + b| * fee == |a| * fee + |b| * fee;
  }

  ghost predicate EachCovers(coins: seq<Coin>, fee: nat) {
    forall i :: 0 <= i < |coins| ==> coins[i].amount >= fee
  }

  lemma PartsCover(a: seq<Coin>, b: seq<Coin>, fee: nat)
    requires EachCovers(a + b, fee)
    ensures EachCovers(a, fee) && EachCovers(b, fee)
  {
    assert forall i :: 0 <= i < |a| ==> a[i] == (a + b)[i];
    assert forall i :: 0 <= i < |b| ==> b[i] == (a + b)[|a| + i];
  }

  lemma {:induction false} FeeCovered(coins: seq<Coin>, fee: nat)
    requires EachCovers(coins, fee)
    ensures 0 <= Remainder(coins, fee) <= Total(coins)
    decreases |coins|
  {
    if coins != [] {
      var front := coins[..|coins|-1];
      FeeCovered(front, fee);
      assert |coins| * fee == |front| * fee + fee;
    }
  }

  lemma ExactPayout(fits: nat -> bool, fee: nat, tx: Tx)
    requires GoodSplit(fits, fee, tx) && Total(tx.inputs) < 0x1_0000_0000_0000_0000
    requires EachCovers(tx.inputs, fee)
    ensures tx.value == Remainder(tx.inputs, fee)
  {
    FeeCovered(tx.inputs, fee);
  }

  /** When every coin covers its fee and the coins' total fits 64 bits, no subtraction wraps: each output is exactly
      its inputs minus their fees, and outputs plus fees are exactly the coins. */
  lemma {:induction false} ValueConserved(fits: nat -> bool, fee: nat, coins: seq<Coin>, txs: seq<Tx>)
    requires Inputs(txs) == coins && AllGood(fits, fee, txs)
    requires Total(coins) < 0x1_0000_0000_0000_0000 && EachCovers(coins, fee)
    ensures forall k :: 0 <= k < |txs| ==> txs[k].value == Remainder(txs[k].inputs, fee)
    ensures Values(txs) == Remainder(coins, fee)
    decreases |txs|
  {
    if txs != [] {
      var front, last := txs[..|txs|-1], txs[|txs|-1];
      var rest := Inputs(front);
      TotalConcat(rest, last.inputs);
      RemainderConcat(rest, last.inputs, fee);
      PartsCover(rest, last.inputs, fee);
      ValueConserved(fits, fee, rest, front);
      ExactPayout(fits, fee, last);
      forall k | 0 <= k < |txs| ensures txs[k].value == Remainder(txs[k].inputs, fee) {
        assert k < |front| ==> txs[k] == front[k];
      }
    }
  }

  // ----- Fewest transactions

  lemma MassRises(r: Rates, n: nat)
    ensures Mass(r, n) <= Mass(r, n + 1)
  {
    var c := r.calculator;
    assert (n + 1) * c.massPerSigOp == n * c.massPerSigOp + c.massPerSigOp;
    var size := 112 + 52 * n + r.script;
    assert (size + 52) * c.massPerTxByte == size * c.massPerTxByte + 52 * c.massPerTxByte;
  }

  lemma {:induction false} MassBelow(r: Rates, m: nat, n: nat)
    requires m <= n
    ensures Mass(r, m) <= Mass(r, n)
    decreases n - m
  {
    if m < n {
      MassRises(r, n - 1);
      MassBelow(r, m, n - 1);
    }
  }

  /** Where nothing wraps, fewer inputs fit if more do. */
  lemma FitsBelow(r: Rates, m: nat, n: nat)
    requires m <= n && NoWrap(r, n) && Fits(r, n)
    ensures Fits(r, m)
  {
    MassBelow(r, m, n);
  }

  lemma {:induction false} SplitAtMostAll(txs: seq<Tx>, k: nat)
    requires k < |txs|
    ensures |txs[k].inputs| <= |Inputs(txs)|
    decreases |txs|
  {
    if k < |txs| - 1 {
      SplitAtMostAll(txs[..|txs|-1], k);
    }
  }

  /** Every closed split is exactly as large as the first one. */
  lemma ClosedSplitsEqual(r: Rates, fee: nat, coins: seq<Coin>, txs: seq<Tx>, k: nat)
    requires GoodSplits(Fitting(r), fee, coins, txs) && k < |txs| && NoWrap(r, |coins|)
    ensures |txs[k].inputs| <= |txs[0].inputs|
    ensures k < |txs| - 1 ==> |txs[k].inputs| == |txs[0].inputs|
  {
    var fits := Fitting(r);
    assert GoodSplit(fits, fee, txs[k]) && GoodSplit(fits, fee, txs[0]);
    var a, b := |txs[0].inputs|, |txs[k].inputs|;
    SplitAtMostAll(txs, 0);
    SplitAtMostAll(txs, k);
    MassBelow(r, a, |coins|);
    MassBelow(r, b, |coins|);
    if 0 < |txs| - 1 && a + 1 <= b { FitsBelow(r, a + 1, b); }
    if k < |txs| - 1 && b + 1 <= a { FitsBelow(r, b + 1, a); }
  }

  lemma {:induction false} SplitSizes(txs: seq<Tx>, full: nat)
    requires forall k :: 0 <= k < |txs| ==> |txs[k].inputs| == full
    ensures |Inputs(txs)| == |txs| * full
    decreases |txs|
  {
    if txs != [] {
      SplitSizes(txs[..|txs|-1], full);
      assert |txs| * full == (|txs| - 1) * full + full;
    }
  }

  lemma {:induction false} SplitSizesAtMost(txs: seq<Tx>, full: nat)
    requires forall k :: 0 <= k < |txs| ==> |txs[k].inputs| <= full
    ensures |Inputs(txs)| <= |txs| * full
    decreases |txs|
  {
    if txs != [] {
      SplitSizesAtMost(txs[..|txs|-1], full);
      assert |txs| * full == (|txs| - 1) * full + full;
    }
  }

  /** The greedy splitting is the best there is: no way of distributing the same number of coins over transactions
      that fit uses fewer transactions. */
  lemma FewestTransactions(r: Rates, fee: nat, coins: seq<Coin>, txs: seq<Tx>, others: seq<Tx>)
    requires GoodSplits(Fitting(r), fee, coins, txs) && coins != [] && NoWrap(r, |coins|)
    requires |Inputs(others)| == |coins| && forall k :: 0 <= k < |others| ==> Fits(r, |others[k].inputs|)
    ensures |txs| <= |others|
  {
    assert others == [] ==> |Inputs(others)| == 0;
    if |txs| > 1 {
      var full := |txs[0].inputs|;
      var last := txs[|txs|-1];
      assert GoodSplit(Fitting(r), fee, last) && !Fits(r, full + 1);
      forall k | 0 <= k < |others| ensures |others[k].inputs| <= full {
        SplitAtMostAll(others, k);
        MassBelow(r, |others[k].inputs|, |coins|);
        if |others[k].inputs| > full { FitsBelow(r, full + 1, |others[k].inputs|); }
      }
      SplitSizesAtMost(others, full);
      var front := txs[..|txs|-1];
      forall k | 0 <= k < |front| ensures |front[k].inputs| == full {
        ClosedSplitsEqual(r, fee, coins, txs, k);
      }
      SplitSizes(front, full);
      assert coins == Inputs(front) + last.inputs;
      if |others| < |txs| {
        MulLe(|others|, |txs| - 1, full);
      }
    }
  }

  lemma MulLe(a: nat, b: nat, c: nat)
    requires a <= b
    ensures a * c <= b * c
  {
  }
}
