/**
 * The child chain's value types: UTXO references, outputs, the fixed
 * two-in/two-out transaction record, and the arbitrary-precision fee that the
 * transaction must never hand out by reference.
 */
module Types {
  import opened Results

  /** 2^160: an account identity is a 20-byte address, held here as a number. */
  const ADDRESS_SPACE: int := 0x1_0000_0000_0000_0000_0000_0000_0000_0000_0000_0000

  type Address = a: int | 0 <= a < ADDRESS_SPACE

  /** `common.Address{}`: twenty zero bytes. */
  const ZERO_ADDRESS: Address := 0

  /** Where a spendable output lives: block, transaction within the block, output within the transaction. */
  datatype UTXOID = UTXOID(blockNum: nat, txIndex: nat, outIndex: nat)

  /** An output: who owns it and how much it holds (a `*big.Int`, so any integer). */
  datatype TxOut = TxOut(owner: Address, amount: int)

  /** An input: the reference to the output it spends and a copy of that output. */
  datatype UTXO = UTXO(id: UTXOID, txOut: TxOut)

  /** The reserved "no input" reference (0, 0, 0). */
  const ZERO_UTXOID: UTXOID := UTXOID(0, 0, 0)

  /** An unused output slot: zero owner, zero amount. */
  const PADDING_OUT: TxOut := TxOut(ZERO_ADDRESS, 0)

  /** An unused input slot: the reserved reference holding a padding output. */
  const PADDING_UTXO: UTXO := UTXO(ZERO_UTXOID, PADDING_OUT)

  /** An input whose owner is the zero identity needs no signature. */
  predicate IsPaddingInput(u: UTXO) {
    u.txOut.owner == ZERO_ADDRESS
  }

  predicate IsPaddingOut(o: TxOut) {
    o.owner == ZERO_ADDRESS && o.amount == 0
  }

  /**
   * The signing hash of a transaction, held as the tuple it commits to: the
   * chain identifier, the inputs, the outputs and the fee, and never the
   * signatures. Holding the tuple itself makes the hash collision-free.
   */
  datatype Digest = Digest(chainId: int, ins: seq<UTXO>, outs: seq<TxOut>, fee: int)

  /** A recoverable signature, held as the digest it signs and the address its key recovers to. */
  datatype Signature = Signature(digest: Digest, signer: Address)

  /** The transaction's `data` record with slots of any length; `TxData` fixes the shape. */
  datatype TxFields = TxFields(ins: seq<UTXO>, outs: seq<TxOut>, fee: int, sigs: seq<Option<Signature>>)

  /** Exactly two inputs, two outputs and two signature slots, as `[2]*UTXO` and `[2]*TxOut` fix them. */
  type TxData = d: TxFields | |d.ins| == 2 && |d.outs| == 2 && |d.sigs| == 2
    witness TxFields([PADDING_UTXO, PADDING_UTXO], [PADDING_OUT, PADDING_OUT], 0, [None, None])

  /** The value `NewTransaction(in1, in2, out1, out2, fee)` builds: no signatures yet, and no check that values balance. */
  function Unsigned(in1: UTXO, in2: UTXO, out1: TxOut, out2: TxOut, fee: int): (d: TxData)
    ensures d.ins[0] == in1 && d.ins[1] == in2
    ensures d.outs[0] == out1 && d.outs[1] == out2
    ensures d.fee == fee && d.sigs[0].None? && d.sigs[1].None?
  {
    TxFields([in1, in2], [out1, out2], fee, [None, None])
  }

  function TotalIn(d: TxData): int {
    d.ins[0].txOut.amount + d.ins[1].txOut.amount
  }

  function TotalOut(d: TxData): int {
    d.outs[0].amount + d.outs[1].amount
  }

  /** A `*big.Int`: a mutable arbitrary-precision integer, shared by reference. */
  class BigInt {
    var value: int

    /** `big.NewInt(x)` */
    constructor NewInt(x: int)
      ensures value == x
    {
      value := x;
    }

    /** `z.Add(x, y)`: sets the receiver z to x + y and returns z. */
    method Add(x: BigInt, y: BigInt) returns (z: BigInt)
      modifies this
      ensures value == old(x.value) + old(y.value)
      ensures z == this
    {
      value := x.value + y.value;
      z := this;
    }
  }

  /** A transaction: its `data` record, whose fee is a `*big.Int` the record points to. */
  class Transaction {
    var ins: seq<UTXO>
    var outs: seq<TxOut>
    var fee: BigInt
    var sigs: seq<Option<Signature>>

    ghost predicate Valid()
      reads this
    {
      |ins| == 2 && |outs| == 2 && |sigs| == 2
    }

    /** The record's value, the fee read through its pointer. */
    function Data(): TxData
      reads this, fee
      requires Valid()
    {
      TxFields(ins, outs, fee.value, sigs)
    }

    /** `new(Transaction)`: the zero record; nil slots read as padding and the nil fee as 0. */
    constructor Empty()
      ensures Valid() && fresh(fee)
      ensures Data() == Unsigned(PADDING_UTXO, PADDING_UTXO, PADDING_OUT, PADDING_OUT, 0)
    {
      ins := [PADDING_UTXO, PADDING_UTXO];
      outs := [PADDING_OUT, PADDING_OUT];
      fee := new BigInt.NewInt(0);
      sigs := [None, None];
    }

    /** `NewTransaction(in1, in2, out1, out2, fee)`: stores its own copy of the fee. */
    constructor NewTransaction(in1: UTXO, in2: UTXO, out1: TxOut, out2: TxOut, f: BigInt)
      ensures Valid() && fresh(fee)
      ensures Data() == Unsigned(in1, in2, out1, out2, f.value)
    {
      ins := [in1, in2];
      outs := [out1, out2];
      fee := new BigInt.NewInt(f.value);
      sigs := [None, None];
    }

    /** `Fee()`: a fresh copy of the stored fee, so that a caller changing it cannot change the transaction. */
    method Fee() returns (f: BigInt)
      ensures fresh(f) && f.value == fee.value
    {
      f := new BigInt.NewInt(fee.value);
    }
  }
}
