/**
 * Signing and verification of a transaction's input slots. The cryptography
 * is symbolic: a signature records the digest it signs and the address of the
 * key that made it, and recovery gives that address back only for that digest.
 */
module Signing {
  import opened Results
  import opened Types

  /** `NewEIP155Signer(chainId)`: signatures are bound to one chain identifier. */
  datatype Signer = EIP155Signer(chainId: int)

  /** A private key, held as its secret scalar. */
  datatype PrivateKey = PrivateKey(secret: nat)

  /** `crypto.PubkeyToAddress(key.PublicKey)`; several keys may share an address. */
  function PubkeyToAddress(k: PrivateKey): Address {
    k.secret % ADDRESS_SPACE
  }

  /** The digest every input slot signs: the chain identifier and the payload, without the signatures. */
  function SigHash(s: Signer, d: TxData): Digest {
    Digest(s.chainId, d.ins, d.outs, d.fee)
  }

  function SignDigest(h: Digest, k: PrivateKey): Signature {
    Signature(h, PubkeyToAddress(k))
  }

  /** The address a signature recovers to over `h`; none when it was made over another digest. */
  function Recover(h: Digest, sig: Signature): Option<Address> {
    if sig.digest == h then Some(sig.signer) else None
  }

  lemma RecoverSignDigest(h: Digest, h': Digest, k: PrivateKey)
    ensures Recover(h, SignDigest(h, k)) == Some(PubkeyToAddress(k))
    ensures h' != h ==> Recover(h', SignDigest(h, k)) == None
  {
  }

  /** The hash commits to the chain identifier and the payload, and ignores the signature slots. */
  lemma SigHashBinding(s: Signer, s': Signer, d: TxData, d': TxData)
    ensures SigHash(s, d) == SigHash(s', d') <==>
      s.chainId == s'.chainId && d.ins == d'.ins && d.outs == d'.outs && d.fee == d'.fee
  {
  }

  datatype SignError = MissingKey(slot: nat)

  /** The key offered for slot 0 or 1. */
  function KeyFor(i: nat, k1: Option<PrivateKey>, k2: Option<PrivateKey>): Option<PrivateKey> {
    if i == 0 then k1 else k2
  }

  /** Every input that is not padding has a key offered for its slot. */
  predicate KeysCover(d: TxData, k1: Option<PrivateKey>, k2: Option<PrivateKey>) {
    forall i | 0 <= i < 2 :: IsPaddingInput(d.ins[i]) || KeyFor(i, k1, k2).Some?
  }

  /** The key offered for slot i belongs to that input's owner, or the input is padding. */
  predicate OwnsSlot(d: TxData, i: nat, k: Option<PrivateKey>)
    requires i < 2
  {
    IsPaddingInput(d.ins[i]) || (k.Some? && PubkeyToAddress(k.value) == d.ins[i].txOut.owner)
  }

  function SignSlot(h: Digest, k: Option<PrivateKey>): Option<Signature> {
    if k.Some? then Some(SignDigest(h, k.value)) else None
  }

  /**
   * `SignTx(tx, signer, key1, key2)` on the transaction's value: each offered
   * key signs the transaction's hash into its own slot; a slot that is not
   * padding and has no key fails. No check that the values balance, and none
   * that the key belongs to the input's owner.
   */
  function SignTx(d: TxData, s: Signer, k1: Option<PrivateKey>, k2: Option<PrivateKey>): (r: Result<TxData, SignError>)
    ensures r.Ok? <==> KeysCover(d, k1, k2)
    ensures r.Ok? ==> r.value.ins == d.ins && r.value.outs == d.outs && r.value.fee == d.fee
    ensures r.Ok? ==> forall i | 0 <= i < 2 ::
      (KeyFor(i, k1, k2).None? ==> r.value.sigs[i].None?) &&
      (KeyFor(i, k1, k2).Some? ==>
         r.value.sigs[i].Some? &&
         Recover(SigHash(s, r.value), r.value.sigs[i].value) == Some(PubkeyToAddress(KeyFor(i, k1, k2).value)))
  {
    if !IsPaddingInput(d.ins[0]) && k1.None? then Err(MissingKey(0))
    else if !IsPaddingInput(d.ins[1]) && k2.None? then Err(MissingKey(1))
    else
      var h := SigHash(s, d);
      Ok(TxFields(d.ins, d.outs, d.fee, [SignSlot(h, k1), SignSlot(h, k2)]))
  }

  /** Why a transaction's signatures do not authorize it, slot by slot. */
  datatype Rejection = MissingSignature(slot: nat) | InvalidSignature(slot: nat) | WrongSigner(slot: nat)

  /** Slot i is authorized: a padding input, or a signature over the hash that recovers to the input's owner. */
  predicate Authorized(s: Signer, d: TxData, i: nat)
    requires i < 2
  {
    IsPaddingInput(d.ins[i]) ||
    (d.sigs[i].Some? && Recover(SigHash(s, d), d.sigs[i].value) == Some(d.ins[i].txOut.owner))
  }

  function CheckSlot(h: Digest, u: UTXO, sig: Option<Signature>, slot: nat): Option<Rejection> {
    if IsPaddingInput(u) then None
    else match sig
      case None => Some(MissingSignature(slot))
      case Some(sg) =>
        match Recover(h, sg)
        case None => Some(InvalidSignature(slot))
        case Some(a) => if a == u.txOut.owner then None else Some(WrongSigner(slot))
  }

  /** Checks each input that is not padding on its own, and names the first slot that fails. */
  function VerifyTx(d: TxData, s: Signer): (r: Result<(), Rejection>)
    ensures r.Ok? <==> Authorized(s, d, 0) && Authorized(s, d, 1)
    ensures r.Err? ==> r.error.slot < 2 && !Authorized(s, d, r.error.slot)
  {
    var h := SigHash(s, d);
    match CheckSlot(h, d.ins[0], d.sigs[0], 0)
    case Some(e) => Err(e)
    case None =>
      match CheckSlot(h, d.ins[1], d.sigs[1], 1)
      case Some(e) => Err(e)
      case None => Ok(())
  }

  /** A transaction signed with the keys offered verifies exactly when each key belongs to its input's owner. */
  lemma SignThenVerify(d: TxData, s: Signer, k1: Option<PrivateKey>, k2: Option<PrivateKey>)
    requires KeysCover(d, k1, k2)
    ensures SignTx(d, s, k1, k2).Ok?
    ensures VerifyTx(SignTx(d, s, k1, k2).value, s).Ok? <==> OwnsSlot(d, 0, k1) && OwnsSlot(d, 1, k2)
  {
  }

  /** When both inputs have the same owner, that owner's one key signs both slots. */
  lemma SameKeyForBothSlots(d: TxData, s: Signer, k: PrivateKey)
    requires d.ins[0].txOut.owner == d.ins[1].txOut.owner == PubkeyToAddress(k)
    ensures SignTx(d, s, Some(k), Some(k)).Ok?
    ensures VerifyTx(SignTx(d, s, Some(k), Some(k)).value, s).Ok?
  {
    SignThenVerify(d, s, Some(k), Some(k));
  }

  /** A key that does not belong to a non-padding input's owner makes verification fail. */
  lemma WrongKeyRejected(d: TxData, s: Signer, k1: Option<PrivateKey>, k2: Option<PrivateKey>, i: nat)
    requires KeysCover(d, k1, k2) && i < 2
    requires !OwnsSlot(d, i, KeyFor(i, k1, k2))
    ensures SignTx(d, s, k1, k2).Ok?
    ensures VerifyTx(SignTx(d, s, k1, k2).value, s).Err?
  {
    SignThenVerify(d, s, k1, k2);
  }

  /** A signature made for one chain identifier does not authorize a non-padding input on another. */
  lemma SignatureBoundToChain(d: TxData, s: Signer, s': Signer, k1: Option<PrivateKey>, k2: Option<PrivateKey>)
    requires KeysCover(d, k1, k2)
    requires s.chainId != s'.chainId
    requires !IsPaddingInput(d.ins[0]) || !IsPaddingInput(d.ins[1])
    ensures SignTx(d, s, k1, k2).Ok?
    ensures VerifyTx(SignTx(d, s, k1, k2).value, s').Err?
  {
  }
}
