/**
 * `SourceTypeSepaDebit` (stripe_shared): the SEPA debit details of a source; every field is optional.
 *
 * Its builder and `from_value` follow the abort variant: a value that fails
 * its conversion makes the whole parse `None`.
 * A slot of an optional field starts as `Some(None)` (miniserde's
 * `Deserialize::default` for `Option`), so the key may be absent; a slot of a
 * required field starts empty.
 */
module SepaDebitSource {
  import opened Wrappers
  import opened Json

  datatype SepaDebit = SepaDebit(bankCode: Option<string>, branchCode: Option<string>, country: Option<string>, fingerprint: Option<string>, last4: Option<string>, mandateReference: Option<string>, mandateUrl: Option<string>)

  /** The `FromValueOpt` conversion of each field's type; they lie outside this model. */
  datatype Leaves = Leaves(bankCode: Value -> Option<Option<string>>, branchCode: Value -> Option<Option<string>>, country: Value -> Option<Option<string>>, fingerprint: Value -> Option<Option<string>>, last4: Value -> Option<Option<string>>, mandateReference: Value -> Option<Option<string>>, mandateUrl: Value -> Option<Option<string>>)

  /** The builder slots, one per field. */
  datatype Field = BankCodeSlot | BranchCodeSlot | CountrySlot | FingerprintSlot | Last4Slot | MandateReferenceSlot | MandateUrlSlot

  /** The JSON key of each slot. */
  function FieldName(f: Field): string
  {
    match f
    case BankCodeSlot => "bank_code"
    case BranchCodeSlot => "branch_code"
    case CountrySlot => "country"
    case FingerprintSlot => "fingerprint"
    case Last4Slot => "last4"
    case MandateReferenceSlot => "mandate_reference"
    case MandateUrlSlot => "mandate_url"
  }

  /** Whether `x` converts for the field of slot `f`. */
  predicate Converted(f: Field, x: Value, leaves: Leaves)
  {
    match f
    case BankCodeSlot => leaves.bankCode(x).Some?
    case BranchCodeSlot => leaves.branchCode(x).Some?
    case CountrySlot => leaves.country(x).Some?
    case FingerprintSlot => leaves.fingerprint(x).Some?
    case Last4Slot => leaves.last4(x).Some?
    case MandateReferenceSlot => leaves.mandateReference(x).Some?
    case MandateUrlSlot => leaves.mandateUrl(x).Some?
  }

  /** `key`: the slot a key name is routed to; every other name is ignored. */
  function Key(k: string): (r: Option<Field>)
    ensures r.Some? <==> k == "bank_code" || k == "branch_code" || k == "country" || k == "fingerprint" || k == "last4" || k == "mandate_reference" || k == "mandate_url"
    ensures r.Some? ==> FieldName(r.value) == k
  {
    match k
    case "bank_code" => Some(BankCodeSlot)
    case "branch_code" => Some(BranchCodeSlot)
    case "country" => Some(CountrySlot)
    case "fingerprint" => Some(FingerprintSlot)
    case "last4" => Some(Last4Slot)
    case "mandate_reference" => Some(MandateReferenceSlot)
    case "mandate_url" => Some(MandateUrlSlot)
    case _ => None
  }

  /** Every slot's own key is routed back to it. */
  lemma KeyFieldName(f: Field)
    ensures Key(FieldName(f)) == Some(f)
  {
  }

  class Builder {
    var bankCode: Option<Option<string>>
    var branchCode: Option<Option<string>>
    var country: Option<Option<string>>
    var fingerprint: Option<Option<string>>
    var last4: Option<Option<string>>
    var mandateReference: Option<Option<string>>
    var mandateUrl: Option<Option<string>>

    /** `deser_default`: every field is optional, so every slot holds `Some(None)`. */
    constructor DeserDefault()
      ensures bankCode == Some(None) && branchCode == Some(None) && country == Some(None) && fingerprint == Some(None) && last4 == Some(None) && mandateReference == Some(None) && mandateUrl == Some(None)
    {
      bankCode := Some(None);
      branchCode := Some(None);
      country := Some(None);
      fingerprint := Some(None);
      last4 := Some(None);
      mandateReference := Some(None);
      mandateUrl := Some(None);
    }

    /**
     * `take_out`: `Some` exactly when every slot is filled. Slots are read in
     * field order, the first empty one stops the rest, and a slot read with
     * `.take()` is left empty.
     */
    method TakeOut() returns (r: Option<SepaDebit>)
      modifies this
      ensures r.Some? <==> old(bankCode).Some? && old(branchCode).Some? && old(country).Some? && old(fingerprint).Some? && old(last4).Some? && old(mandateReference).Some? && old(mandateUrl).Some?
      ensures r.Some? ==> r.value == SepaDebit(old(bankCode).value, old(branchCode).value, old(country).value, old(fingerprint).value, old(last4).value, old(mandateReference).value, old(mandateUrl).value)
      ensures bankCode == None
      ensures branchCode == if old(bankCode).Some? then None else old(branchCode)
      ensures country == if old(bankCode).Some? && old(branchCode).Some? then None else old(country)
      ensures fingerprint == if old(bankCode).Some? && old(branchCode).Some? && old(country).Some? then None else old(fingerprint)
      ensures last4 == if old(bankCode).Some? && old(branchCode).Some? && old(country).Some? && old(fingerprint).Some? then None else old(last4)
      ensures mandateReference == if old(bankCode).Some? && old(branchCode).Some? && old(country).Some? && old(fingerprint).Some? && old(last4).Some? then None else old(mandateReference)
      ensures mandateUrl == if old(bankCode).Some? && old(branchCode).Some? && old(country).Some? && old(fingerprint).Some? && old(last4).Some? && old(mandateReference).Some? then None else old(mandateUrl)
    {
      var bankCodeOut := bankCode;
      bankCode := None;
      if bankCodeOut.None? { return None; }
      var branchCodeOut := branchCode;
      branchCode := None;
      if branchCodeOut.None? { return None; }
      var countryOut := country;
      country := None;
      if countryOut.None? { return None; }
      var fingerprintOut := fingerprint;
      fingerprint := None;
      if fingerprintOut.None? { return None; }
      var last4Out := last4;
      last4 := None;
      if last4Out.None? { return None; }
      var mandateReferenceOut := mandateReference;
      mandateReference := None;
      if mandateReferenceOut.None? { return None; }
      var mandateUrlOut := mandateUrl;
      mandateUrl := None;
      if mandateUrlOut.None? { return None; }
      r := Some(SepaDebit(bankCodeOut.value, branchCodeOut.value, countryOut.value, fingerprintOut.value, last4Out.value, mandateReferenceOut.value, mandateUrlOut.value));
    }
  }

  /** What `take_out` returns for the given slot contents. */
  function Assemble(bankCode: Option<Option<string>>, branchCode: Option<Option<string>>, country: Option<Option<string>>, fingerprint: Option<Option<string>>, last4: Option<Option<string>>, mandateReference: Option<Option<string>>, mandateUrl: Option<Option<string>>): Option<SepaDebit>
  {
    if bankCode.Some? && branchCode.Some? && country.Some? && fingerprint.Some? && last4.Some? && mandateReference.Some? && mandateUrl.Some? then Some(SepaDebit(bankCode.value, branchCode.value, country.value, fingerprint.value, last4.value, mandateReference.value, mandateUrl.value)) else None
  }

  /** No entry under a known key fails its conversion. */
  predicate AllConvert(es: Entries, leaves: Leaves)
  {
    Converts(es, "bank_code", leaves.bankCode)
    && Converts(es, "branch_code", leaves.branchCode)
    && Converts(es, "country", leaves.country)
    && Converts(es, "fingerprint", leaves.fingerprint)
    && Converts(es, "last4", leaves.last4)
    && Converts(es, "mandate_reference", leaves.mandateReference)
    && Converts(es, "mandate_url", leaves.mandateUrl)
  }

  /** The result of `from_value`, stated over the object's entries. */
  function FromValueSpec(v: Value, leaves: Leaves): Option<SepaDebit>
  {
    if !v.Object? || !AllConvert(v.entries, leaves) then None
    else Assemble(Slot(v.entries, "bank_code", leaves.bankCode, Some(None)),
                  Slot(v.entries, "branch_code", leaves.branchCode, Some(None)),
                  Slot(v.entries, "country", leaves.country, Some(None)),
                  Slot(v.entries, "fingerprint", leaves.fingerprint, Some(None)),
                  Slot(v.entries, "last4", leaves.last4, Some(None)),
                  Slot(v.entries, "mandate_reference", leaves.mandateReference, Some(None)),
                  Slot(v.entries, "mandate_url", leaves.mandateUrl, Some(None)))
  }

  /** One more entry: the slot of its key takes its conversion and the other slots stay as they were. */
  lemma EntryStep(es: Entries, i: nat, leaves: Leaves)
    requires i < |es|
    ensures Slot(es[..i + 1], "bank_code", leaves.bankCode, Some(None)) ==
      if es[i].0 == "bank_code" then leaves.bankCode(es[i].1) else Slot(es[..i], "bank_code", leaves.bankCode, Some(None))
    ensures Slot(es[..i + 1], "branch_code", leaves.branchCode, Some(None)) ==
      if es[i].0 == "branch_code" then leaves.branchCode(es[i].1) else Slot(es[..i], "branch_code", leaves.branchCode, Some(None))
    ensures Slot(es[..i + 1], "country", leaves.country, Some(None)) ==
      if es[i].0 == "country" then leaves.country(es[i].1) else Slot(es[..i], "country", leaves.country, Some(None))
    ensures Slot(es[..i + 1], "fingerprint", leaves.fingerprint, Some(None)) ==
      if es[i].0 == "fingerprint" then leaves.fingerprint(es[i].1) else Slot(es[..i], "fingerprint", leaves.fingerprint, Some(None))
    ensures Slot(es[..i + 1], "last4", leaves.last4, Some(None)) ==
      if es[i].0 == "last4" then leaves.last4(es[i].1) else Slot(es[..i], "last4", leaves.last4, Some(None))
    ensures Slot(es[..i + 1], "mandate_reference", leaves.mandateReference, Some(None)) ==
      if es[i].0 == "mandate_reference" then leaves.mandateReference(es[i].1) else Slot(es[..i], "mandate_reference", leaves.mandateReference, Some(None))
    ensures Slot(es[..i + 1], "mandate_url", leaves.mandateUrl, Some(None)) ==
      if es[i].0 == "mandate_url" then leaves.mandateUrl(es[i].1) else Slot(es[..i], "mandate_url", leaves.mandateUrl, Some(None))
    ensures AllConvert(es[..i + 1], leaves) <==>
      AllConvert(es[..i], leaves)
      && (es[i].0 == "bank_code" ==> leaves.bankCode(es[i].1).Some?)
      && (es[i].0 == "branch_code" ==> leaves.branchCode(es[i].1).Some?)
      && (es[i].0 == "country" ==> leaves.country(es[i].1).Some?)
      && (es[i].0 == "fingerprint" ==> leaves.fingerprint(es[i].1).Some?)
      && (es[i].0 == "last4" ==> leaves.last4(es[i].1).Some?)
      && (es[i].0 == "mandate_reference" ==> leaves.mandateReference(es[i].1).Some?)
      && (es[i].0 == "mandate_url" ==> leaves.mandateUrl(es[i].1).Some?)
  {
    PrefixSnoc(es, i);
    LookupSnoc(es[..i], es[i], "bank_code");
    LookupSnoc(es[..i], es[i], "branch_code");
    LookupSnoc(es[..i], es[i], "country");
    LookupSnoc(es[..i], es[i], "fingerprint");
    LookupSnoc(es[..i], es[i], "last4");
    LookupSnoc(es[..i], es[i], "mandate_reference");
    LookupSnoc(es[..i], es[i], "mandate_url");
    ConvertsSnoc(es, i, "bank_code", leaves.bankCode);
    ConvertsSnoc(es, i, "branch_code", leaves.branchCode);
    ConvertsSnoc(es, i, "country", leaves.country);
    ConvertsSnoc(es, i, "fingerprint", leaves.fingerprint);
    ConvertsSnoc(es, i, "last4", leaves.last4);
    ConvertsSnoc(es, i, "mandate_reference", leaves.mandateReference);
    ConvertsSnoc(es, i, "mandate_url", leaves.mandateUrl);
  }

  /** `from_value`: fill the slots entry by entry, stop at the first value that fails to convert, then `take_out`. */
  method FromValue(v: Value, leaves: Leaves) returns (r: Option<SepaDebit>)
    ensures !v.Object? ==> r.None?
    ensures r == FromValueSpec(v, leaves)
  {
    if !v.Object? { return None; }
    var es := v.entries;
    var b := new Builder.DeserDefault();
    var i := 0;
    while i < |es|
      invariant 0 <= i <= |es|
      invariant AllConvert(es[..i], leaves)
      invariant b.bankCode == Slot(es[..i], "bank_code", leaves.bankCode, Some(None))
      invariant b.branchCode == Slot(es[..i], "branch_code", leaves.branchCode, Some(None))
      invariant b.country == Slot(es[..i], "country", leaves.country, Some(None))
      invariant b.fingerprint == Slot(es[..i], "fingerprint", leaves.fingerprint, Some(None))
      invariant b.last4 == Slot(es[..i], "last4", leaves.last4, Some(None))
      invariant b.mandateReference == Slot(es[..i], "mandate_reference", leaves.mandateReference, Some(None))
      invariant b.mandateUrl == Slot(es[..i], "mandate_url", leaves.mandateUrl, Some(None))
    {
      var (k, x) := es[i];
      EntryStep(es, i, leaves);
      match k {
        case "bank_code" =>
          var c := leaves.bankCode(x);
          if c.None? {
            ConvertsFails(es, i, leaves.bankCode);
            return None;
          }
          b.bankCode := Some(c.value);
        case "branch_code" =>
          var c := leaves.branchCode(x);
          if c.None? {
            ConvertsFails(es, i, leaves.branchCode);
            return None;
          }
          b.branchCode := Some(c.value);
        case "country" =>
          var c := leaves.country(x);
          if c.None? {
            ConvertsFails(es, i, leaves.country);
            return None;
          }
          b.country := Some(c.value);
        case "fingerprint" =>
          var c := leaves.fingerprint(x);
          if c.None? {
            ConvertsFails(es, i, leaves.fingerprint);
            return None;
          }
          b.fingerprint := Some(c.value);
        case "last4" =>
          var c := leaves.last4(x);
          if c.None? {
            ConvertsFails(es, i, leaves.last4);
            return None;
          }
          b.last4 := Some(c.value);
        case "mandate_reference" =>
          var c := leaves.mandateReference(x);
          if c.None? {
            ConvertsFails(es, i, leaves.mandateReference);
            return None;
          }
          b.mandateReference := Some(c.value);
        case "mandate_url" =>
          var c := leaves.mandateUrl(x);
          if c.None? {
            ConvertsFails(es, i, leaves.mandateUrl);
            return None;
          }
          b.mandateUrl := Some(c.value);
        case _ =>
      }
      i := i + 1;
    }
    assert es[..|es|] == es;
    r := b.TakeOut();
  }

  /** An object parses exactly when every known value converts: no key is required, and an absent one reads as `None`. */
  lemma FromValueSome(es: Entries, leaves: Leaves)
    ensures FromValueSpec(Object(es), leaves).Some? <==>
      AllConvert(es, leaves)
    ensures FromValueSpec(Object(es), leaves).Some? && Lookup(es, "bank_code").None? ==>
      FromValueSpec(Object(es), leaves).value.bankCode.None?
    ensures FromValueSpec(Object(es), leaves).Some? && Lookup(es, "branch_code").None? ==>
      FromValueSpec(Object(es), leaves).value.branchCode.None?
    ensures FromValueSpec(Object(es), leaves).Some? && Lookup(es, "country").None? ==>
      FromValueSpec(Object(es), leaves).value.country.None?
    ensures FromValueSpec(Object(es), leaves).Some? && Lookup(es, "fingerprint").None? ==>
      FromValueSpec(Object(es), leaves).value.fingerprint.None?
    ensures FromValueSpec(Object(es), leaves).Some? && Lookup(es, "last4").None? ==>
      FromValueSpec(Object(es), leaves).value.last4.None?
    ensures FromValueSpec(Object(es), leaves).Some? && Lookup(es, "mandate_reference").None? ==>
      FromValueSpec(Object(es), leaves).value.mandateReference.None?
    ensures FromValueSpec(Object(es), leaves).Some? && Lookup(es, "mandate_url").None? ==>
      FromValueSpec(Object(es), leaves).value.mandateUrl.None?
    ensures FromValueSpec(Object(es), leaves).Some? && Lookup(es, "bank_code").Some? ==>
      Some(FromValueSpec(Object(es), leaves).value.bankCode) == leaves.bankCode(Lookup(es, "bank_code").value)
    ensures FromValueSpec(Object(es), leaves).Some? && Lookup(es, "branch_code").Some? ==>
      Some(FromValueSpec(Object(es), leaves).value.branchCode) == leaves.branchCode(Lookup(es, "branch_code").value)
    ensures FromValueSpec(Object(es), leaves).Some? && Lookup(es, "country").Some? ==>
      Some(FromValueSpec(Object(es), leaves).value.country) == leaves.country(Lookup(es, "country").value)
    ensures FromValueSpec(Object(es), leaves).Some? && Lookup(es, "fingerprint").Some? ==>
      Some(FromValueSpec(Object(es), leaves).value.fingerprint) == leaves.fingerprint(Lookup(es, "fingerprint").value)
    ensures FromValueSpec(Object(es), leaves).Some? && Lookup(es, "last4").Some? ==>
      Some(FromValueSpec(Object(es), leaves).value.last4) == leaves.last4(Lookup(es, "last4").value)
    ensures FromValueSpec(Object(es), leaves).Some? && Lookup(es, "mandate_reference").Some? ==>
      Some(FromValueSpec(Object(es), leaves).value.mandateReference) == leaves.mandateReference(Lookup(es, "mandate_reference").value)
    ensures FromValueSpec(Object(es), leaves).Some? && Lookup(es, "mandate_url").Some? ==>
      Some(FromValueSpec(Object(es), leaves).value.mandateUrl) == leaves.mandateUrl(Lookup(es, "mandate_url").value)
  {
    SlotFilled(es, "bank_code", leaves.bankCode, Some(None));
    SlotFilled(es, "branch_code", leaves.branchCode, Some(None));
    SlotFilled(es, "country", leaves.country, Some(None));
    SlotFilled(es, "fingerprint", leaves.fingerprint, Some(None));
    SlotFilled(es, "last4", leaves.last4, Some(None));
    SlotFilled(es, "mandate_reference", leaves.mandateReference, Some(None));
    SlotFilled(es, "mandate_url", leaves.mandateUrl, Some(None));
  }

  /** An entry under an unknown key, wherever it stands, changes nothing. */
  lemma UnknownKeyIgnored(es1: Entries, e: Entry, es2: Entries, leaves: Leaves)
    requires Key(e.0).None?
    ensures FromValueSpec(Object(es1 + [e] + es2), leaves) == FromValueSpec(Object(es1 + es2), leaves)
  {
    SlotIgnores(es1, e, es2, "bank_code", leaves.bankCode, Some(None));
    SlotIgnores(es1, e, es2, "branch_code", leaves.branchCode, Some(None));
    SlotIgnores(es1, e, es2, "country", leaves.country, Some(None));
    SlotIgnores(es1, e, es2, "fingerprint", leaves.fingerprint, Some(None));
    SlotIgnores(es1, e, es2, "last4", leaves.last4, Some(None));
    SlotIgnores(es1, e, es2, "mandate_reference", leaves.mandateReference, Some(None));
    SlotIgnores(es1, e, es2, "mandate_url", leaves.mandateUrl, Some(None));
  }

  /** A value that fails its conversion, anywhere in the object, makes the parse `None`. */
  lemma FailedConversionAborts(es: Entries, i: nat, f: Field, leaves: Leaves)
    requires i < |es| && es[i].0 == FieldName(f) && !Converted(f, es[i].1, leaves)
    ensures FromValueSpec(Object(es), leaves) == None
  {
    match f
    case BankCodeSlot => ConvertsFails(es, i, leaves.bankCode);
    case BranchCodeSlot => ConvertsFails(es, i, leaves.branchCode);
    case CountrySlot => ConvertsFails(es, i, leaves.country);
    case FingerprintSlot => ConvertsFails(es, i, leaves.fingerprint);
    case Last4Slot => ConvertsFails(es, i, leaves.last4);
    case MandateReferenceSlot => ConvertsFails(es, i, leaves.mandateReference);
    case MandateUrlSlot => ConvertsFails(es, i, leaves.mandateUrl);
  }

  /** For a repeated key the last value decides: an earlier value that converts can be dropped. */
  lemma LastValueWins(es1: Entries, f: Field, x1: Value, es2: Entries, x2: Value, leaves: Leaves)
    requires Converted(f, x1, leaves)
    ensures FromValueSpec(Object(es1 + [(FieldName(f), x1)] + es2 + [(FieldName(f), x2)]), leaves)
         == FromValueSpec(Object(es1 + es2 + [(FieldName(f), x2)]), leaves)
  {
    SlotOverwritten(es1, FieldName(f), x1, es2, x2, "bank_code", leaves.bankCode, Some(None));
    SlotOverwritten(es1, FieldName(f), x1, es2, x2, "branch_code", leaves.branchCode, Some(None));
    SlotOverwritten(es1, FieldName(f), x1, es2, x2, "country", leaves.country, Some(None));
    SlotOverwritten(es1, FieldName(f), x1, es2, x2, "fingerprint", leaves.fingerprint, Some(None));
    SlotOverwritten(es1, FieldName(f), x1, es2, x2, "last4", leaves.last4, Some(None));
    SlotOverwritten(es1, FieldName(f), x1, es2, x2, "mandate_reference", leaves.mandateReference, Some(None));
    SlotOverwritten(es1, FieldName(f), x1, es2, x2, "mandate_url", leaves.mandateUrl, Some(None));
  }
}
