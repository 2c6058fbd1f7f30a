/**
 * `IssuingTransactionNetworkData` (stripe_shared): network data of an issuing transaction; every field is optional.
 *
 * Its builder and `from_value` follow the abort variant: a value that fails
 * its conversion makes the whole parse `None`.
 * A slot of an optional field starts as `Some(None)` (miniserde's
 * `Deserialize::default` for `Option`), so the key may be absent; a slot of a
 * required field starts empty.
 */
module IssuingNetworkData {
  import opened Wrappers
  import opened Json

  datatype NetworkData = NetworkData(authorizationCode: Option<string>, processingDate: Option<string>, transactionId: Option<string>)

  /** The `FromValueOpt` conversion of each field's type; they lie outside this model. */
  datatype Leaves = Leaves(authorizationCode: Value -> Option<Option<string>>, processingDate: Value -> Option<Option<string>>, transactionId: Value -> Option<Option<string>>)

  /** The builder slots, one per field. */
  datatype Field = AuthorizationCodeSlot | ProcessingDateSlot | TransactionIdSlot

  /** The JSON key of each slot. */
  function FieldName(f: Field): string
  {
    match f
    case AuthorizationCodeSlot => "authorization_code"
    case ProcessingDateSlot => "processing_date"
    case TransactionIdSlot => "transaction_id"
  }

  /** Whether `x` converts for the field of slot `f`. */
  predicate Converted(f: Field, x: Value, leaves: Leaves)
  {
    match f
    case AuthorizationCodeSlot => leaves.authorizationCode(x).Some?
    case ProcessingDateSlot => leaves.processingDate(x).Some?
    case TransactionIdSlot => leaves.transactionId(x).Some?
  }

  /** `key`: the slot a key name is routed to; every other name is ignored. */
  function Key(k: string): (r: Option<Field>)
    ensures r.Some? <==> k == "authorization_code" || k == "processing_date" || k == "transaction_id"
    ensures r.Some? ==> FieldName(r.value) == k
  {
    match k
    case "authorization_code" => Some(AuthorizationCodeSlot)
    case "processing_date" => Some(ProcessingDateSlot)
    case "transaction_id" => Some(TransactionIdSlot)
    case _ => None
  }

  /** Every slot's own key is routed back to it. */
  lemma KeyFieldName(f: Field)
    ensures Key(FieldName(f)) == Some(f)
  {
  }

  class Builder {
    var authorizationCode: Option<Option<string>>
    var processingDate: Option<Option<string>>
    var transactionId: Option<Option<string>>

    /** `deser_default`: every field is optional, so every slot holds `Some(None)`. */
    constructor DeserDefault()
      ensures authorizationCode == Some(None) && processingDate == Some(None) && transactionId == Some(None)
    {
      authorizationCode := Some(None);
      processingDate := Some(None);
      transactionId := Some(None);
    }

    /**
     * `take_out`: `Some` exactly when every slot is filled. Slots are read in
     * field order, the first empty one stops the rest, and a slot read with
     * `.take()` is left empty.
     */
    method TakeOut() returns (r: Option<NetworkData>)
      modifies this
      ensures r.Some? <==> old(authorizationCode).Some? && old(processingDate).Some? && old(transactionId).Some?
      ensures r.Some? ==> r.value == NetworkData(old(authorizationCode).value, old(processingDate).value, old(transactionId).value)
      ensures authorizationCode == None
      ensures processingDate == if old(authorizationCode).Some? then None else old(processingDate)
      ensures transactionId == if old(authorizationCode).Some? && old(processingDate).Some? then None else old(transactionId)
    {
      var authorizationCodeOut := authorizationCode;
      authorizationCode := None;
      if authorizationCodeOut.None? { return None; }
      var processingDateOut := processingDate;
      processingDate := None;
      if processingDateOut.None? { return None; }
      var transactionIdOut := transactionId;
      transactionId := None;
      if transactionIdOut.None? { return None; }
      r := Some(NetworkData(authorizationCodeOut.value, processingDateOut.value, transactionIdOut.value));
    }
  }

  /** What `take_out` returns for the given slot contents. */
  function Assemble(authorizationCode: Option<Option<string>>, processingDate: Option<Option<string>>, transactionId: Option<Option<string>>): Option<NetworkData>
  {
    if authorizationCode.Some? && processingDate.Some? && transactionId.Some? then Some(NetworkData(authorizationCode.value, processingDate.value, transactionId.value)) else None
  }

  /** No entry under a known key fails its conversion. */
  predicate AllConvert(es: Entries, leaves: Leaves)
  {
    Converts(es, "authorization_code", leaves.authorizationCode)
    && Converts(es, "processing_date", leaves.processingDate)
    && Converts(es, "transaction_id", leaves.transactionId)
  }

  /** The result of `from_value`, stated over the object's entries. */
  function FromValueSpec(v: Value, leaves: Leaves): Option<NetworkData>
  {
    if !v.Object? || !AllConvert(v.entries, leaves) then None
    else Assemble(Slot(v.entries, "authorization_code", leaves.authorizationCode, Some(None)),
                  Slot(v.entries, "processing_date", leaves.processingDate, Some(None)),
                  Slot(v.entries, "transaction_id", leaves.transactionId, Some(None)))
  }

  /** One more entry: the slot of its key takes its conversion and the other slots stay as they were. */
  lemma EntryStep(es: Entries, i: nat, leaves: Leaves)
    requires i < |es|
    ensures Slot(es[..i + 1], "authorization_code", leaves.authorizationCode, Some(None)) ==
      if es[i].0 == "authorization_code" then leaves.authorizationCode(es[i].1) else Slot(es[..i], "authorization_code", leaves.authorizationCode, Some(None))
    ensures Slot(es[..i + 1], "processing_date", leaves.processingDate, Some(None)) ==
      if es[i].0 == "processing_date" then leaves.processingDate(es[i].1) else Slot(es[..i], "processing_date", leaves.processingDate, Some(None))
    ensures Slot(es[..i + 1], "transaction_id", leaves.transactionId, Some(None)) ==
      if es[i].0 == "transaction_id" then leaves.transactionId(es[i].1) else Slot(es[..i], "transaction_id", leaves.transactionId, Some(None))
    ensures AllConvert(es[..i + 1], leaves) <==>
      AllConvert(es[..i], leaves)
      && (es[i].0 == "authorization_code" ==> leaves.authorizationCode(es[i].1).Some?)
      && (es[i].0 == "processing_date" ==> leaves.processingDate(es[i].1).Some?)
      && (es[i].0 == "transaction_id" ==> leaves.transactionId(es[i].1).Some?)
  {
    PrefixSnoc(es, i);
    LookupSnoc(es[..i], es[i], "authorization_code");
    LookupSnoc(es[..i], es[i], "processing_date");
    LookupSnoc(es[..i], es[i], "transaction_id");
    ConvertsSnoc(es, i, "authorization_code", leaves.authorizationCode);
    ConvertsSnoc(es, i, "processing_date", leaves.processingDate);
    ConvertsSnoc(es, i, "transaction_id", leaves.transactionId);
  }

  /** `from_value`: fill the slots entry by entry, stop at the first value that fails to convert, then `take_out`. */
  method FromValue(v: Value, leaves: Leaves) returns (r: Option<NetworkData>)
    ensures !v.Object? ==> r.None?
    ensures r == FromValueSpec(v, leaves)
  {
    if !v.Object? { return None; }
    var es := v.entries;
    var b := new Builder.DeserDefault();
    var i := 0;
    while i < |es|
      invariant 0 <= i <= |es|
      invariant AllConvert(es[..i], leaves)
      invariant b.authorizationCode == Slot(es[..i], "authorization_code", leaves.authorizationCode, Some(None))
      invariant b.processingDate == Slot(es[..i], "processing_date", leaves.processingDate, Some(None))
      invariant b.transactionId == Slot(es[..i], "transaction_id", leaves.transactionId, Some(None))
    {
      var (k, x) := es[i];
      EntryStep(es, i, leaves);
      match k {
        case "authorization_code" =>
          var c := leaves.authorizationCode(x);
          if c.None? {
            ConvertsFails(es, i, leaves.authorizationCode);
            return None;
          }
          b.authorizationCode := Some(c.value);
        case "processing_date" =>
          var c := leaves.processingDate(x);
          if c.None? {
            ConvertsFails(es, i, leaves.processingDate);
            return None;
          }
          b.processingDate := Some(c.value);
        case "transaction_id" =>
          var c := leaves.transactionId(x);
          if c.None? {
            ConvertsFails(es, i, leaves.transactionId);
            return None;
          }
          b.transactionId := Some(c.value);
        case _ =>
      }
      i := i + 1;
    }
    assert es[..|es|] == es;
    r := b.TakeOut();
  }

  /** An object parses exactly when every known value converts: no key is required, and an absent one reads as `None`. */
  lemma FromValueSome(es: Entries, leaves: Leaves)
    ensures FromValueSpec(Object(es), leaves).Some? <==>
      AllConvert(es, leaves)
    ensures FromValueSpec(Object(es), leaves).Some? && Lookup(es, "authorization_code").None? ==>
      FromValueSpec(Object(es), leaves).value.authorizationCode.None?
    ensures FromValueSpec(Object(es), leaves).Some? && Lookup(es, "processing_date").None? ==>
      FromValueSpec(Object(es), leaves).value.processingDate.None?
    ensures FromValueSpec(Object(es), leaves).Some? && Lookup(es, "transaction_id").None? ==>
      FromValueSpec(Object(es), leaves).value.transactionId.None?
    ensures FromValueSpec(Object(es), leaves).Some? && Lookup(es, "authorization_code").Some? ==>
      Some(FromValueSpec(Object(es), leaves).value.authorizationCode) == leaves.authorizationCode(Lookup(es, "authorization_code").value)
    ensures FromValueSpec(Object(es), leaves).Some? && Lookup(es, "processing_date").Some? ==>
      Some(FromValueSpec(Object(es), leaves).value.processingDate) == leaves.processingDate(Lookup(es, "processing_date").value)
    ensures FromValueSpec(Object(es), leaves).Some? && Lookup(es, "transaction_id").Some? ==>
      Some(FromValueSpec(Object(es), leaves).value.transactionId) == leaves.transactionId(Lookup(es, "transaction_id").value)
  {
    SlotFilled(es, "authorization_code", leaves.authorizationCode, Some(None));
    SlotFilled(es, "processing_date", leaves.processingDate, Some(None));
    SlotFilled(es, "transaction_id", leaves.transactionId, Some(None));
  }

  /** An entry under an unknown key, wherever it stands, changes nothing. */
  lemma UnknownKeyIgnored(es1: Entries, e: Entry, es2: Entries, leaves: Leaves)
    requires Key(e.0).None?
    ensures FromValueSpec(Object(es1 + [e] + es2), leaves) == FromValueSpec(Object(es1 + es2), leaves)
  {
    SlotIgnores(es1, e, es2, "authorization_code", leaves.authorizationCode, Some(None));
    SlotIgnores(es1, e, es2, "processing_date", leaves.processingDate, Some(None));
    SlotIgnores(es1, e, es2, "transaction_id", leaves.transactionId, Some(None));
  }

  /** A value that fails its conversion, anywhere in the object, makes the parse `None`. */
  lemma FailedConversionAborts(es: Entries, i: nat, f: Field, leaves: Leaves)
    requires i < |es| && es[i].0 == FieldName(f) && !Converted(f, es[i].1, leaves)
    ensures FromValueSpec(Object(es), leaves) == None
  {
    match f
    case AuthorizationCodeSlot => ConvertsFails(es, i, leaves.authorizationCode);
    case ProcessingDateSlot => ConvertsFails(es, i, leaves.processingDate);
    case TransactionIdSlot => ConvertsFails(es, i, leaves.transactionId);
  }

  /** For a repeated key the last value decides: an earlier value that converts can be dropped. */
  lemma LastValueWins(es1: Entries, f: Field, x1: Value, es2: Entries, x2: Value, leaves: Leaves)
    requires Converted(f, x1, leaves)
    ensures FromValueSpec(Object(es1 + [(FieldName(f), x1)] + es2 + [(FieldName(f), x2)]), leaves)
         == FromValueSpec(Object(es1 + es2 + [(FieldName(f), x2)]), leaves)
  {
    SlotOverwritten(es1, FieldName(f), x1, es2, x2, "authorization_code", leaves.authorizationCode, Some(None));
    SlotOverwritten(es1, FieldName(f), x1, es2, x2, "processing_date", leaves.processingDate, Some(None));
    SlotOverwritten(es1, FieldName(f), x1, es2, x2, "transaction_id", leaves.transactionId, Some(None));
  }
}
