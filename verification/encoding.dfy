/**
 * The JSON form of a transaction, held as the flat list of the values it
 * carries in a fixed order: both inputs (block, tx index, out index, owner,
 * amount), both outputs (owner, amount), the fee, and both signature slots.
 * Unmarshalling fails on a list of the wrong length, a value of the wrong
 * kind, or a number outside its field's range.
 */
module Encoding {
  import opened Results
  import opened Types

  datatype Field = Num(n: int) | Sig(sig: Option<Signature>)

  datatype FormatError = WrongFieldCount(count: nat) | WrongFieldKind(index: nat) | OutOfRange(index: nat)

  /** 2 inputs of 5 values, 2 outputs of 2 values, the fee, 2 signature slots. */
  const FIELD_COUNT: nat := 17

  function MarshalTxOut(o: TxOut): seq<Field> {
    [Num(o.owner), Num(o.amount)]
  }

  function MarshalUTXO(u: UTXO): seq<Field> {
    [Num(u.id.blockNum), Num(u.id.txIndex), Num(u.id.outIndex)] + MarshalTxOut(u.txOut)
  }

  /** `marshalJSON`: every field, padding slots and signatures included. */
  function Marshal(d: TxData): (buf: seq<Field>)
    ensures |buf| == FIELD_COUNT
    ensures buf[14] == Num(d.fee) && buf[15] == Sig(d.sigs[0]) && buf[16] == Sig(d.sigs[1])
  {
    MarshalUTXO(d.ins[0]) + MarshalUTXO(d.ins[1]) + MarshalTxOut(d.outs[0]) + MarshalTxOut(d.outs[1])
      + [Num(d.fee), Sig(d.sigs[0]), Sig(d.sigs[1])]
  }

  function IntAt(buf: seq<Field>, i: nat): Result<int, FormatError>
    requires i < |buf|
  {
    match buf[i]
    case Num(n) => Ok(n)
    case Sig(_) => Err(WrongFieldKind(i))
  }

  function NatAt(buf: seq<Field>, i: nat): Result<nat, FormatError>
    requires i < |buf|
  {
    var n :- IntAt(buf, i);
    if n < 0 then Err(OutOfRange(i)) else Ok(n)
  }

  function AddressAt(buf: seq<Field>, i: nat): Result<Address, FormatError>
    requires i < |buf|
  {
    var n :- IntAt(buf, i);
    if 0 <= n < ADDRESS_SPACE then Ok(n) else Err(OutOfRange(i))
  }

  function SigAt(buf: seq<Field>, i: nat): Result<Option<Signature>, FormatError>
    requires i < |buf|
  {
    match buf[i]
    case Sig(s) => Ok(s)
    case Num(_) => Err(WrongFieldKind(i))
  }

  function UnmarshalTxOut(buf: seq<Field>, at: nat): Result<TxOut, FormatError>
    requires at + 2 <= |buf|
  {
    var owner :- AddressAt(buf, at);
    var amount :- IntAt(buf, at + 1);
    Ok(TxOut(owner, amount))
  }

  function UnmarshalUTXO(buf: seq<Field>, at: nat): Result<UTXO, FormatError>
    requires at + 5 <= |buf|
  {
    var blockNum :- NatAt(buf, at);
    var txIndex :- NatAt(buf, at + 1);
    var outIndex :- NatAt(buf, at + 2);
    var out :- UnmarshalTxOut(buf, at + 3);
    Ok(UTXO(UTXOID(blockNum, txIndex, outIndex), out))
  }

  /** `UnmarshalJSON` on the value level. */
  function Unmarshal(buf: seq<Field>): (r: Result<TxData, FormatError>)
    ensures r.Ok? ==> |buf| == FIELD_COUNT
    ensures |buf| != FIELD_COUNT ==> r == Err(WrongFieldCount(|buf|))
  {
    if |buf| != FIELD_COUNT then Err(WrongFieldCount(|buf|))
    else
      var in1 :- UnmarshalUTXO(buf, 0);
      var in2 :- UnmarshalUTXO(buf, 5);
      var out1 :- UnmarshalTxOut(buf, 10);
      var out2 :- UnmarshalTxOut(buf, 12);
      var fee :- IntAt(buf, 14);
      var sig1 :- SigAt(buf, 15);
      var sig2 :- SigAt(buf, 16);
      Ok(TxFields([in1, in2], [out1, out2], fee, [sig1, sig2]))
  }

  /** Unmarshalling what marshalling produced succeeds, for every transaction, signed or not, padding or not. */
  lemma UnmarshalMarshalSucceeds(d: TxData)
    ensures Unmarshal(Marshal(d)).Ok?
  {
  }

  /** `tx.UnmarshalJSON(buf)`: on success the receiver holds the decoded record; on failure it is left as it was. */
  method UnmarshalJSON(tx: Transaction, buf: seq<Field>) returns (err: Option<FormatError>)
    modifies tx
    ensures Unmarshal(buf).Ok? ==> err.None? && tx.Valid() && fresh(tx.fee) && tx.Data() == Unmarshal(buf).value
    ensures Unmarshal(buf).Err? ==> err == Some(Unmarshal(buf).error) && unchanged(tx)
  {
    var r := Unmarshal(buf);
    if r.Err? {
      err := Some(r.error);
    } else {
      var d := r.value;
      tx.ins, tx.outs, tx.sigs := d.ins, d.outs, d.sigs;
      tx.fee := new BigInt.NewInt(d.fee);
      err := None;
    }
  }
}
