/**
 * `GelatoVerificationSessionOptions` (stripe_misc): the options of an identity verification session.
 *
 * Its builder and `from_value` follow the abort variant: a value that fails
 * its conversion makes the whole parse `None`.
 * A slot of an optional field starts as `Some(None)` (miniserde's
 * `Deserialize::default` for `Option`), so the key may be absent; a slot of a
 * required field starts empty.
 */
module VerificationSessionOptions {
  import opened Wrappers
  import opened Json

  /** `GelatoSessionDocumentOptions`: a nested object, opaque here. */
  type DocumentOptions

  /** `GelatoSessionIdNumberOptions`: a nested object, opaque here. */
  type IdNumberOptions

  datatype SessionOptions = SessionOptions(document: Option<DocumentOptions>, idNumber: Option<IdNumberOptions>)

  /** The `FromValueOpt` conversion of each field's type; they lie outside this model. */
  datatype Leaves = Leaves(document: Value -> Option<Option<DocumentOptions>>, idNumber: Value -> Option<Option<IdNumberOptions>>)

  /** The builder slots, one per field. */
  datatype Field = DocumentSlot | IdNumberSlot

  /** The JSON key of each slot. */
  function FieldName(f: Field): string
  {
    match f
    case DocumentSlot => "document"
    case IdNumberSlot => "id_number"
  }

  /** Whether `x` converts for the field of slot `f`. */
  predicate Converted(f: Field, x: Value, leaves: Leaves)
  {
    match f
    case DocumentSlot => leaves.document(x).Some?
    case IdNumberSlot => leaves.idNumber(x).Some?
  }

  /** `key`: the slot a key name is routed to; every other name is ignored. */
  function Key(k: string): (r: Option<Field>)
    ensures r.Some? <==> k == "document" || k == "id_number"
    ensures r.Some? ==> FieldName(r.value) == k
  {
    match k
    case "document" => Some(DocumentSlot)
    case "id_number" => Some(IdNumberSlot)
    case _ => None
  }

  /** Every slot's own key is routed back to it. */
  lemma KeyFieldName(f: Field)
    ensures Key(FieldName(f)) == Some(f)
  {
  }

  class Builder {
    var document: Option<Option<DocumentOptions>>
    var idNumber: Option<Option<IdNumberOptions>>

    /** `deser_default`: every field is optional, so every slot holds `Some(None)`. */
    constructor DeserDefault()
      ensures document == Some(None) && idNumber == Some(None)
    {
      document := Some(None);
      idNumber := Some(None);
    }

    /**
     * `take_out`: `Some` exactly when every slot is filled. Slots are read in
     * field order, the first empty one stops the rest, and a slot read with
     * `.take()` is left empty.
     */
    method TakeOut() returns (r: Option<SessionOptions>)
      modifies this
      ensures r.Some? <==> old(document).Some? && old(idNumber).Some?
      ensures r.Some? ==> r.value == SessionOptions(old(document).value, old(idNumber).value)
      ensures document == None
      ensures idNumber == old(idNumber)
    {
      var documentOut := document;
      document := None;
      if documentOut.None? { return None; }
      var idNumberOut := idNumber;
      if idNumberOut.None? { return None; }
      r := Some(SessionOptions(documentOut.value, idNumberOut.value));
    }
  }

  /** What `take_out` returns for the given slot contents. */
  function Assemble(document: Option<Option<DocumentOptions>>, idNumber: Option<Option<IdNumberOptions>>): Option<SessionOptions>
  {
    if document.Some? && idNumber.Some? then Some(SessionOptions(document.value, idNumber.value)) else None
  }

  /** No entry under a known key fails its conversion. */
  predicate AllConvert(es: Entries, leaves: Leaves)
  {
    Converts(es, "document", leaves.document)
    && Converts(es, "id_number", leaves.idNumber)
  }

  /** The result of `from_value`, stated over the object's entries. */
  function FromValueSpec(v: Value, leaves: Leaves): Option<SessionOptions>
  {
    if !v.Object? || !AllConvert(v.entries, leaves) then None
    else Assemble(Slot(v.entries, "document", leaves.document, Some(None)),
                  Slot(v.entries, "id_number", leaves.idNumber, Some(None)))
  }

  /** One more entry: the slot of its key takes its conversion and the other slots stay as they were. */
  lemma EntryStep(es: Entries, i: nat, leaves: Leaves)
    requires i < |es|
    ensures Slot(es[..i + 1], "document", leaves.document, Some(None)) ==
      if es[i].0 == "document" then leaves.document(es[i].1) else Slot(es[..i], "document", leaves.document, Some(None))
    ensures Slot(es[..i + 1], "id_number", leaves.idNumber, Some(None)) ==
      if es[i].0 == "id_number" then leaves.idNumber(es[i].1) else Slot(es[..i], "id_number", leaves.idNumber, Some(None))
    ensures AllConvert(es[..i + 1], leaves) <==>
      AllConvert(es[..i], leaves)
      && (es[i].0 == "document" ==> leaves.document(es[i].1).Some?)
      && (es[i].0 == "id_number" ==> leaves.idNumber(es[i].1).Some?)
  {
    PrefixSnoc(es, i);
    LookupSnoc(es[..i], es[i], "document");
    LookupSnoc(es[..i], es[i], "id_number");
    ConvertsSnoc(es, i, "document", leaves.document);
    ConvertsSnoc(es, i, "id_number", leaves.idNumber);
  }

  /** `from_value`: fill the slots entry by entry, stop at the first value that fails to convert, then `take_out`. */
  method FromValue(v: Value, leaves: Leaves) returns (r: Option<SessionOptions>)
    ensures !v.Object? ==> r.None?
    ensures r == FromValueSpec(v, leaves)
  {
    if !v.Object? { return None; }
    var es := v.entries;
    var b := new Builder.DeserDefault();
    var i := 0;
    while i < |es|
      invariant 0 <= i <= |es|
      invariant AllConvert(es[..i], leaves)
      invariant b.document == Slot(es[..i], "document", leaves.document, Some(None))
      invariant b.idNumber == Slot(es[..i], "id_number", leaves.idNumber, Some(None))
    {
      var (k, x) := es[i];
      EntryStep(es, i, leaves);
      match k {
        case "document" =>
          var c := leaves.document(x);
          if c.None? {
            ConvertsFails(es, i, leaves.document);
            return None;
          }
          b.document := Some(c.value);
        case "id_number" =>
          var c := leaves.idNumber(x);
          if c.None? {
            ConvertsFails(es, i, leaves.idNumber);
            return None;
          }
          b.idNumber := Some(c.value);
        case _ =>
      }
      i := i + 1;
    }
    assert es[..|es|] == es;
    r := b.TakeOut();
  }

  /** An object parses exactly when every known value converts: no key is required, and an absent one reads as `None`. */
  lemma FromValueSome(es: Entries, leaves: Leaves)
    ensures FromValueSpec(Object(es), leaves).Some? <==>
      AllConvert(es, leaves)
    ensures FromValueSpec(Object(es), leaves).Some? && Lookup(es, "document").None? ==>
      FromValueSpec(Object(es), leaves).value.document.None?
    ensures FromValueSpec(Object(es), leaves).Some? && Lookup(es, "id_number").None? ==>
      FromValueSpec(Object(es), leaves).value.idNumber.None?
    ensures FromValueSpec(Object(es), leaves).Some? && Lookup(es, "document").Some? ==>
      Some(FromValueSpec(Object(es), leaves).value.document) == leaves.document(Lookup(es, "document").value)
    ensures FromValueSpec(Object(es), leaves).Some? && Lookup(es, "id_number").Some? ==>
      Some(FromValueSpec(Object(es), leaves).value.idNumber) == leaves.idNumber(Lookup(es, "id_number").value)
  {
    SlotFilled(es, "document", leaves.document, Some(None));
    SlotFilled(es, "id_number", leaves.idNumber, Some(None));
  }

  /** An entry under an unknown key, wherever it stands, changes nothing. */
  lemma UnknownKeyIgnored(es1: Entries, e: Entry, es2: Entries, leaves: Leaves)
    requires Key(e.0).None?
    ensures FromValueSpec(Object(es1 + [e] + es2), leaves) == FromValueSpec(Object(es1 + es2), leaves)
  {
    SlotIgnores(es1, e, es2, "document", leaves.document, Some(None));
    SlotIgnores(es1, e, es2, "id_number", leaves.idNumber, Some(None));
  }

  /** A value that fails its conversion, anywhere in the object, makes the parse `None`. */
  lemma FailedConversionAborts(es: Entries, i: nat, f: Field, leaves: Leaves)
    requires i < |es| && es[i].0 == FieldName(f) && !Converted(f, es[i].1, leaves)
    ensures FromValueSpec(Object(es), leaves) == None
  {
    match f
    case DocumentSlot => ConvertsFails(es, i, leaves.document);
    case IdNumberSlot => ConvertsFails(es, i, leaves.idNumber);
  }

  /** For a repeated key the last value decides: an earlier value that converts can be dropped. */
  lemma LastValueWins(es1: Entries, f: Field, x1: Value, es2: Entries, x2: Value, leaves: Leaves)
    requires Converted(f, x1, leaves)
    ensures FromValueSpec(Object(es1 + [(FieldName(f), x1)] + es2 + [(FieldName(f), x2)]), leaves)
         == FromValueSpec(Object(es1 + es2 + [(FieldName(f), x2)]), leaves)
  {
    SlotOverwritten(es1, FieldName(f), x1, es2, x2, "document", leaves.document, Some(None));
    SlotOverwritten(es1, FieldName(f), x1, es2, x2, "id_number", leaves.idNumber, Some(None));
  }
}
