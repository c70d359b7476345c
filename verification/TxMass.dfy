/** The mass calculator: a transaction's size, scripts and signature operations, each at its own rate, in 64-bit
    arithmetic. */
module TxMass {
  import opened Arithmetic

  /** The length of a slice. */
  type Length = x: nat | x < 0x8000_0000_0000_0000

  /** What the calculator reads of inputs and outputs. */
  datatype Input = Input(signatureScript: Length, sigOpCount: nat)

  datatype Output = Output(script: Length)

  datatype Transaction = Transaction(
    version: nat,
    inputs: seq<Input>,
    outputs: seq<Output>,
    payload: Length,
    isCoinbase: bool)

  datatype Calculator = Calculator(massPerTxByte: nat, massPerScriptByte: nat, massPerSigOp: nat)

  // ----- The mass as a sum

  function Sum(n: nat, f: nat -> nat): nat {
    if n == 0 then 0 else Sum(n - 1, f) + f(n - 1)
  }

  lemma {:induction false} SumSame(n: nat, f: nat -> nat, value: nat)
    requires forall i: nat :: i < n ==> f(i) == value
    ensures Sum(n, f) == n * value
  {
    if n > 0 {
      SumSame(n - 1, f, value);
      assert n * value == (n - 1) * value + value;
    }
  }

  /** From version 5 on an input is charged less the more of them there are, and so is an output. */
  function Scaled(size: nat, count: nat): nat {
    10 * size / (count + 9)
  }

  function InputSize(tx: Transaction): nat -> nat {
    (i: nat) =>
      if i >= |tx.inputs| then 0
      else if tx.version >= 5 && |tx.inputs| > 1 then Scaled(52 + tx.inputs[i].signatureScript, |tx.inputs|)
      else 52 + tx.inputs[i].signatureScript
  }

  function OutputSize(tx: Transaction): nat -> nat {
    (i: nat) =>
      if i >= |tx.outputs| then 0
      else if tx.version >= 5 && |tx.outputs| > 2 then Scaled(18 + tx.outputs[i].script, |tx.outputs|)
      else 18 + tx.outputs[i].script
  }

  function ScriptSize(tx: Transaction): nat -> nat {
    (i: nat) => if i >= |tx.outputs| then 0 else 2 + tx.outputs[i].script
  }

  function SigOps(tx: Transaction): nat -> nat {
    (i: nat) => if i >= |tx.inputs| then 0 else tx.inputs[i].sigOpCount
  }

  function SizeOf(tx: Transaction): nat {
    94 + Sum(|tx.inputs|, InputSize(tx)) + Sum(|tx.outputs|, OutputSize(tx)) + tx.payload
  }

  function Charge(c: Calculator, size: nat, scriptBytes: nat, sigOps: nat): nat {
    size * c.massPerTxByte + scriptBytes * c.massPerScriptByte + sigOps * c.massPerSigOp
  }

  function MassOf(c: Calculator, tx: Transaction): nat {
    if tx.isCoinbase then 0
    else Charge(c, SizeOf(tx), Sum(|tx.outputs|, ScriptSize(tx)), Sum(|tx.inputs|, SigOps(tx)))
  }

  // ----- The calculator

  lemma WrapMultiple(x: int, k: int)
    ensures Wrap(x + k * 0x1_0000_0000_0000_0000) == Wrap(x)
  {
  }

  lemma WrapMul(a: int, b: int)
    ensures Wrap(Wrap(a) * b) == Wrap(a * b)
  {
    var q := a / 0x1_0000_0000_0000_0000;
    assert a == Wrap(a) + q * 0x1_0000_0000_0000_0000;
    assert a * b == Wrap(a) * b + q * b * 0x1_0000_0000_0000_0000;
    WrapMultiple(Wrap(a) * b, q * b);
  }

  method InputEstimatedSize(input: Input) returns (size: nat)
    ensures size == 52 + input.signatureScript
  {
    size := 32;  // the previous transaction's id
    size := size + 4;
    size := size + 8;
    size := size + input.signatureScript;
    size := size + 8;
  }

  method OutputEstimatedSize(output: Output) returns (size: nat)
    ensures size == 18 + output.script
  {
    size := 8;
    size := size + 2;
    size := size + 8;
    size := size + output.script;
  }

  method InputCharge(tx: Transaction, i: nat) returns (size: nat)
    requires i < |tx.inputs|
    ensures size == InputSize(tx)(i)
  {
    size := InputEstimatedSize(tx.inputs[i]);
    if tx.version >= 5 && |tx.inputs| > 1 {
      size := 10 * size / (|tx.inputs| + 9);
    }
  }

  method OutputCharge(tx: Transaction, i: nat) returns (size: nat)
    requires i < |tx.outputs|
    ensures size == OutputSize(tx)(i)
  {
    size := OutputEstimatedSize(tx.outputs[i]);
    if tx.version >= 5 && |tx.outputs| > 2 {
      size := 10 * size / (|tx.outputs| + 9);
    }
  }

  method AddInputs(tx: Transaction, start: nat) returns (size: nat)
    requires start < 0x1_0000_0000_0000_0000
    ensures size == Wrap(start + Sum(|tx.inputs|, InputSize(tx)))
  {
    size := start;
    for i := 0 to |tx.inputs|
      invariant size == Wrap(start + Sum(i, InputSize(tx)))
    {
      var more := InputCharge(tx, i);
      WrapAdd(start + Sum(i, InputSize(tx)), more);
      size := Wrap(size + more);
    }
  }

  method AddOutputs(tx: Transaction, start: nat) returns (size: nat)
    requires start < 0x1_0000_0000_0000_0000
    ensures size == Wrap(start + Sum(|tx.outputs|, OutputSize(tx)))
  {
    size := start;
    for i := 0 to |tx.outputs|
      invariant size == Wrap(start + Sum(i, OutputSize(tx)))
    {
      var more := OutputCharge(tx, i);
      WrapAdd(start + Sum(i, OutputSize(tx)), more);
      size := Wrap(size + more);
    }
  }

  lemma SizeAdds(inputs: nat, outputs: nat, payload: nat)
    ensures Wrap(Wrap(Wrap(Wrap(Wrap(10 + inputs) + 8) + outputs) + 76) + payload) ==
            Wrap(94 + inputs + outputs + payload)
  {
    WrapAdd(10 + inputs, 8);
    WrapAdd(18 + inputs, outputs);
    WrapAdd(18 + inputs + outputs, 76);
    WrapAdd(94 + inputs + outputs, payload);
  }

  method EstimatedSize(tx: Transaction) returns (size: nat)
    ensures size == if tx.isCoinbase then 0 else Wrap(SizeOf(tx))
  {
    if tx.isCoinbase {
      return 0;
    }
    size := AddInputs(tx, 2 + 8);
    size := AddOutputs(tx, Wrap(size + 8));
    size := Wrap(size + (8 + 20 + 8 + 32 + 8));
    SizeAdds(Sum(|tx.inputs|, InputSize(tx)), Sum(|tx.outputs|, OutputSize(tx)), tx.payload);
    size := Wrap(size + tx.payload);
  }

  method ScriptBytes(tx: Transaction) returns (total: nat)
    ensures total == Wrap(Sum(|tx.outputs|, ScriptSize(tx)))
  {
    total := 0;
    for i := 0 to |tx.outputs|
      invariant total == Wrap(Sum(i, ScriptSize(tx)))
    {
      WrapAdd(Sum(i, ScriptSize(tx)), 2 + tx.outputs[i].script);
      total := Wrap(total + (2 + tx.outputs[i].script));
    }
  }

  method SigOpCount(tx: Transaction) returns (total: nat)
    ensures total == Wrap(Sum(|tx.inputs|, SigOps(tx)))
  {
    total := 0;
    for i := 0 to |tx.inputs|
      invariant total == Wrap(Sum(i, SigOps(tx)))
    {
      WrapAdd(Sum(i, SigOps(tx)), tx.inputs[i].sigOpCount);
      total := Wrap(total + tx.inputs[i].sigOpCount);
    }
  }

  lemma WrapThree(a: nat, b: nat, c: nat)
    ensures Wrap(Wrap(a) + Wrap(b) + Wrap(c)) == Wrap(a + b + c)
  {
    WrapAdd(a, Wrap(b) + Wrap(c));
    WrapAdd(b, a + Wrap(c));
    WrapAdd(c, a + b);
  }

  /** The three parts, each multiplied and wrapped, and their wrapped sum. */
  method Charged(c: Calculator, size: nat, scriptBytes: nat, sigOps: nat, ghost a: nat, ghost b: nat, ghost d: nat)
    returns (mass: nat)
    requires size == Wrap(a) && scriptBytes == Wrap(b) && sigOps == Wrap(d)
    ensures mass == Wrap(Charge(c, a, b, d))
  {
    var massForSize := Wrap(size * c.massPerTxByte);
    var massForScripts := Wrap(scriptBytes * c.massPerScriptByte);
    var massForSigOps := Wrap(sigOps * c.massPerSigOp);
    WrapMul(a, c.massPerTxByte);
    WrapMul(b, c.massPerScriptByte);
    WrapMul(d, c.massPerSigOp);
    WrapThree(a * c.massPerTxByte, b * c.massPerScriptByte, d * c.massPerSigOp);
    mass := Wrap(massForSize + massForScripts + massForSigOps);
  }

  method CalculateTransactionMass(c: Calculator, tx: Transaction) returns (mass: nat)
    ensures mass == Wrap(MassOf(c, tx))
  {
    if tx.isCoinbase {
      return 0;
    }
    var size := EstimatedSize(tx);
    var scriptBytes := ScriptBytes(tx);
    var sigOps := SigOpCount(tx);
    mass := Charged(c, size, scriptBytes, sigOps, SizeOf(tx), Sum(|tx.outputs|, ScriptSize(tx)),
                    Sum(|tx.inputs|, SigOps(tx)));
  }

  // ----- Unsigned transactions

  /** `n` inputs without signatures, each with one signature operation, and one output. */
  ghost predicate Unsigned(tx: Transaction, n: nat, script: nat) {
    && tx.version < 5 && !tx.isCoinbase && tx.payload == 0
    && |tx.inputs| == n && (forall i :: 0 <= i < n ==> tx.inputs[i] == Input(0, 1))
    && |tx.outputs| == 1 && tx.outputs[0].script == script
  }

  lemma UnsignedMass(c: Calculator, tx: Transaction, n: nat, script: nat)
    requires Unsigned(tx, n, script)
    ensures MassOf(c, tx) ==
            (112 + 52 * n + script) * c.massPerTxByte + (2 + script) * c.massPerScriptByte + n * c.massPerSigOp
  {
    SumSame(n, InputSize(tx), 52);
    SumSame(n, SigOps(tx), 1);
    SumSame(1, OutputSize(tx), 18 + script);
    SumSame(1, ScriptSize(tx), 2 + script);
  }
}
