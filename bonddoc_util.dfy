/**
 The bond-doc module's message constructors and its non-empty validator.
 The documents a message carries are opaque here: the constructors only
 copy them.
 */
module BondDocUtil {
  import opened Wrappers

  /** A `sovrin.SovrinDid`; the constructors read only its DID and its
      verification key. */
  datatype SovrinDid = SovrinDid(did: string, verifyKey: string)

  /** The document of a create-bond message, carried unchanged. */
  datatype BondDoc = BondDoc(payload: string)

  /** The document of an update-bond-status message, carried unchanged. */
  datatype UpdateBondStatusDoc = UpdateBondStatusDoc(payload: string)

  datatype CreateBondMsg = CreateBondMsg(
    signBytes: string,
    txHash: string,
    senderDid: string,
    bondDid: string,
    pubKey: string,
    data: BondDoc)

  datatype UpdateBondStatusMsg = UpdateBondStatusMsg(
    signBytes: string,
    txHash: string,
    senderDid: string,
    bondDid: string,
    data: UpdateBondStatusDoc)

  /** The SDK errors the validator can return; only the unknown-request
      kind occurs here. */
  datatype SdkError = UnknownRequest(msg: string)

  /** The validator's result pair `(valid, err)`, with `None` for Go's
      `nil` error. */
  datatype Validity = Validity(valid: bool, err: Option<SdkError>)

  /** A create-bond message for a bond document and the bond's DID. It is
      built unsigned: no signature bytes, no transaction hash and no
      sender. */
  function NewCreateBondMsg(bondDoc: BondDoc, bondDid: SovrinDid): (m: CreateBondMsg)
    ensures m.signBytes == "" && m.txHash == "" && m.senderDid == ""
    ensures m.bondDid == bondDid.did && m.pubKey == bondDid.verifyKey
    ensures m.data == bondDoc
  {
    CreateBondMsg("", "", "", bondDid.did, bondDid.verifyKey, bondDoc)
  }

  /** An update-bond-status message. It has no signature bytes; the
      transaction hash and the sender are the caller's. */
  function NewUpdateBondStatusMsg(txHash: string, senderDid: string,
                                  updateBondStatusDoc: UpdateBondStatusDoc,
                                  projectDid: SovrinDid): (m: UpdateBondStatusMsg)
    ensures m.signBytes == ""
    ensures m.txHash == txHash && m.senderDid == senderDid
    ensures m.bondDid == projectDid.did && m.data == updateBondStatusDoc
  {
    UpdateBondStatusMsg("", txHash, senderDid, projectDid.did, updateBondStatusDoc)
  }

  /** The text that ends the error for an empty field. */
  const EmptySuffix: string := " is empty."

  /** The error text for the empty field `name`. */
  function EmptyMessage(name: string): (msg: string)
    ensures |msg| == |name| + |EmptySuffix|
    ensures msg[..|name|] == name && msg[|name|..] == EmptySuffix
  {
    name + EmptySuffix
  }

  /** Reads the field name back out of an empty-field error text, and
      gives `None` for a text that is not one. */
  function EmptyFieldName(msg: string): (name: Option<string>)
  {
    if |msg| >= |EmptySuffix| && msg[|msg| - |EmptySuffix|..] == EmptySuffix then
      Some(msg[..|msg| - |EmptySuffix|])
    else
      None
  }

  /** The error text names its field: the name can be read back from it. */
  lemma EmptyFieldNameOfMessage(name: string)
    ensures EmptyFieldName(EmptyMessage(name)) == Some(name)
  {
  }

  /** Every text from which a field name is read back is that field's
      error text, so the two functions are inverse to each other. */
  lemma EmptyMessageOfFieldName(msg: string)
    ensures EmptyFieldName(msg).Some? ==> EmptyMessage(EmptyFieldName(msg).value) == msg
  {
  }

  /** A text is an empty-field error text, for some field, exactly when
      the field name can be read back out of it. */
  lemma EmptyMessageRange(msg: string)
    ensures (exists name :: EmptyMessage(name) == msg) <==> EmptyFieldName(msg).Some?
  {
    if EmptyFieldName(msg).Some? {
      EmptyMessageOfFieldName(msg);
      assert EmptyMessage(EmptyFieldName(msg).value) == msg;
    } else if name :| EmptyMessage(name) == msg {
      EmptyFieldNameOfMessage(name);
      assert false;
    }
  }

  /** Validates that `value` is not empty. On an empty value the result is
      invalid and carries an unknown-request error that names the field;
      otherwise it is valid and carries no error. */
  function CheckNotEmpty(value: string, name: string): (r: Validity)
    ensures r.valid <==> r.err.None?
    ensures r.valid <==> |value| > 0
    ensures r.err.Some? ==> r.err.value == UnknownRequest(EmptyMessage(name))
    ensures r.err.Some? ==> EmptyFieldName(r.err.value.msg) == Some(name)
  {
    EmptyFieldNameOfMessage(name);
    if |value| == 0 then
      Validity(false, Some(UnknownRequest(EmptyMessage(name))))
    else
      Validity(true, None)
  }
}
