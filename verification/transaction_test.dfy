/** What the transaction tests assert, stated for the model. */
module TransactionTests {
  import opened Results
  import opened Types
  import opened Signing
  import opened Encoding

  /**
   * `TestFee`: the stored fee is 10; the copy `Fee()` returns is increased in
   * place by 1; the stored fee stays 10, so the two differ.
   */
  method TestFee() returns (stored: int, copied: int)
    ensures stored == 10 && copied == 11
  {
    var tx := new Transaction.Empty();
    tx.fee := new BigInt.NewInt(10);
    var fcopy := tx.Fee();
    var one := new BigInt.NewInt(1);
    fcopy := fcopy.Add(fcopy, one);
    stored, copied := tx.fee.value, fcopy.value;
  }

  /**
   * For any transaction and any change to the copy: the changed copy holds
   * the stored fee plus the change, and a second `Fee()` still returns the
   * stored fee.
   */
  method FeeCopyIsIndependent(tx: Transaction, delta: int) returns (mutated: int, refetched: int)
    ensures mutated == tx.fee.value + delta
    ensures refetched == tx.fee.value
  {
    var fcopy := tx.Fee();
    var d := new BigInt.NewInt(delta);
    fcopy := fcopy.Add(fcopy, d);
    mutated := fcopy.value;
    var again := tx.Fee();
    refetched := again.value;
  }

  /**
   * `TestMarshalTx`: the sender owns both inputs (50 and 0), the outputs pay
   * 90 to the receiver and 0 back, the fee is 10. The inputs do not cover the
   * outputs and fee, yet signing with the sender's key in both slots succeeds,
   * the signatures verify, and unmarshalling the marshalled result succeeds.
   */
  lemma TestMarshalTx(senderKey: PrivateKey, receiverKey: PrivateKey)
    ensures var sender, receiver := PubkeyToAddress(senderKey), PubkeyToAddress(receiverKey);
      var tx1 := Unsigned(UTXO(UTXOID(1, 0, 0), TxOut(sender, 50)), UTXO(UTXOID(1, 1, 0), TxOut(sender, 0)),
                          TxOut(receiver, 90), TxOut(sender, 0), 10);
      var signed := SignTx(tx1, EIP155Signer(1), Some(senderKey), Some(senderKey));
      && TotalIn(tx1) < TotalOut(tx1) + tx1.fee
      && signed.Ok?
      && VerifyTx(signed.value, EIP155Signer(1)).Ok?
      && Unmarshal(Marshal(signed.value)).Ok?
  {
    var sender, receiver := PubkeyToAddress(senderKey), PubkeyToAddress(receiverKey);
    var tx1 := Unsigned(UTXO(UTXOID(1, 0, 0), TxOut(sender, 50)), UTXO(UTXOID(1, 1, 0), TxOut(sender, 0)),
                        TxOut(receiver, 90), TxOut(sender, 0), 10);
    SameKeyForBothSlots(tx1, EIP155Signer(1), senderKey);
    UnmarshalMarshalSucceeds(SignTx(tx1, EIP155Signer(1), Some(senderKey), Some(senderKey)).value);
  }

  /**
   * `TestMarshalTxWithKeyStore`: the key's owner holds two inputs of 10 in
   * blocks 1 and 2, pays 14 and 5 and a fee of 1; signing with that key in
   * both slots succeeds, verifies, and round-trips through unmarshalling.
   */
  lemma TestMarshalTxWithKeyStore(key: PrivateKey, receiverKey: PrivateKey)
    ensures var sender, receiver := PubkeyToAddress(key), PubkeyToAddress(receiverKey);
      var tx1 := Unsigned(UTXO(UTXOID(1, 0, 0), TxOut(sender, 10)), UTXO(UTXOID(2, 0, 0), TxOut(sender, 10)),
                          TxOut(receiver, 14), TxOut(sender, 5), 1);
      var signed := SignTx(tx1, EIP155Signer(1), Some(key), Some(key));
      && signed.Ok?
      && VerifyTx(signed.value, EIP155Signer(1)).Ok?
      && Unmarshal(Marshal(signed.value)).Ok?
  {
    var sender, receiver := PubkeyToAddress(key), PubkeyToAddress(receiverKey);
    var tx1 := Unsigned(UTXO(UTXOID(1, 0, 0), TxOut(sender, 10)), UTXO(UTXOID(2, 0, 0), TxOut(sender, 10)),
                        TxOut(receiver, 14), TxOut(sender, 5), 1);
    SameKeyForBothSlots(tx1, EIP155Signer(1), key);
    UnmarshalMarshalSucceeds(SignTx(tx1, EIP155Signer(1), Some(key), Some(key)).value);
  }

  /** The unmarshalling half of both tests, run on the heap: a fresh transaction receives the decoded record. */
  method UnmarshalIntoNewTransaction(signed: TxData) returns (err: Option<FormatError>)
    ensures err.None?
  {
    UnmarshalMarshalSucceeds(signed);
    var tx2 := new Transaction.Empty();
    err := UnmarshalJSON(tx2, Marshal(signed));
  }
}
