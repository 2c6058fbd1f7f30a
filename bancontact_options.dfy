/**
 * `InvoicePaymentMethodOptionsBancontact` (stripe_shared): the Bancontact options of an invoice,
 * and its `PreferredLanguage` enum.
 *
 * Its builder and `from_value` follow the abort variant: a value that fails
 * its conversion makes the whole parse `None`.
 */
module BancontactOptions {
  import opened Wrappers
  import opened Json

  /**
   * `InvoicePaymentMethodOptionsBancontactPreferredLanguage`: the language of the authorization page.
   */
  datatype PreferredLanguage = De | En | Fr | Nl

  /** The wire names of the variants. */
  const PreferredLanguageNames: set<string> := {"de", "en", "fr", "nl"}

  /** `as_str`: the wire name of a variant. */
  function PreferredLanguageAsStr(e: PreferredLanguage): (r: string)
    ensures r in PreferredLanguageNames
  {
    match e
    case De => "de"
    case En => "en"
    case Fr => "fr"
    case Nl => "nl"
  }

  /** `from_str`: a variant for exactly the listed names, inverting `as_str`; `Err(())` for any other string. */
  function PreferredLanguageFromStr(s: string): (r: Result<PreferredLanguage, ()>)
    ensures r.Ok? <==> s in PreferredLanguageNames
    ensures r.Ok? ==> PreferredLanguageAsStr(r.value) == s
  {
    match s
    case "de" => Ok(PreferredLanguage.De)
    case "en" => Ok(PreferredLanguage.En)
    case "fr" => Ok(PreferredLanguage.Fr)
    case "nl" => Ok(PreferredLanguage.Nl)
    case _ => Err(())
  }

  /** Parsing the wire name of any variant gives that variant back. */
  lemma PreferredLanguageRoundTrip(e: PreferredLanguage)
    ensures PreferredLanguageFromStr(PreferredLanguageAsStr(e)) == Ok(e)
  {
  }

  /** The miniserde string visitor: `from_str`, with any failure reported as a deserialisation error. */
  function PreferredLanguageVisitString(s: string): (r: Result<PreferredLanguage, DeError>)
    ensures r.Ok? <==> s in PreferredLanguageNames
    ensures r.Ok? ==> PreferredLanguageAsStr(r.value) == s
  {
    match PreferredLanguageFromStr(s)
    case Ok(v) => Ok(v)
    case Err(_) => Err(DeError)
  }

  datatype BancontactOptions = BancontactOptions(preferredLanguage: PreferredLanguage)

  /** The `FromValueOpt` conversion of each field's type; they lie outside this model. */
  datatype Leaves = Leaves(preferredLanguage: Value -> Option<PreferredLanguage>)

  /** The builder slots, one per field. */
  datatype Field = PreferredLanguageSlot

  /** The JSON key of each slot. */
  function FieldName(f: Field): string
  {
    match f
    case PreferredLanguageSlot => "preferred_language"
  }

  /** Whether `x` converts for the field of slot `f`. */
  predicate Converted(f: Field, x: Value, leaves: Leaves)
  {
    match f
    case PreferredLanguageSlot => leaves.preferredLanguage(x).Some?
  }

  /** `key`: the slot a key name is routed to; every other name is ignored. */
  function Key(k: string): (r: Option<Field>)
    ensures r.Some? <==> k == "preferred_language"
    ensures r.Some? ==> FieldName(r.value) == k
  {
    match k
    case "preferred_language" => Some(PreferredLanguageSlot)
    case _ => None
  }

  /** Every slot's own key is routed back to it. */
  lemma KeyFieldName(f: Field)
    ensures Key(FieldName(f)) == Some(f)
  {
  }

  class Builder {
    var preferredLanguage: Option<PreferredLanguage>

    /** `deser_default`: every slot starts empty. */
    constructor DeserDefault()
      ensures preferredLanguage == None
    {
      preferredLanguage := None;
    }

    /** `take_out`: `Some` exactly when every slot is filled; the slots are copied, not taken. */
    method TakeOut() returns (r: Option<BancontactOptions>)
      ensures r.Some? <==> preferredLanguage.Some?
      ensures r.Some? ==> r.value == BancontactOptions(preferredLanguage.value)
    {
      var preferredLanguageOut := preferredLanguage;
      if preferredLanguageOut.None? { return None; }
      r := Some(BancontactOptions(preferredLanguageOut.value));
    }
  }

  /** What `take_out` returns for the given slot contents. */
  function Assemble(preferredLanguage: Option<PreferredLanguage>): Option<BancontactOptions>
  {
    if preferredLanguage.Some? then Some(BancontactOptions(preferredLanguage.value)) else None
  }

  /** No entry under a known key fails its conversion. */
  predicate AllConvert(es: Entries, leaves: Leaves)
  {
    Converts(es, "preferred_language", leaves.preferredLanguage)
  }

  /** The result of `from_value`, stated over the object's entries. */
  function FromValueSpec(v: Value, leaves: Leaves): Option<BancontactOptions>
  {
    if !v.Object? || !AllConvert(v.entries, leaves) then None
    else Assemble(Slot(v.entries, "preferred_language", leaves.preferredLanguage, None))
  }

  /** One more entry: the slot of its key takes its conversion and the other slots stay as they were. */
  lemma EntryStep(es: Entries, i: nat, leaves: Leaves)
    requires i < |es|
    ensures Slot(es[..i + 1], "preferred_language", leaves.preferredLanguage, None) ==
      if es[i].0 == "preferred_language" then leaves.preferredLanguage(es[i].1) else Slot(es[..i], "preferred_language", leaves.preferredLanguage, None)
    ensures AllConvert(es[..i + 1], leaves) <==>
      AllConvert(es[..i], leaves)
      && (es[i].0 == "preferred_language" ==> leaves.preferredLanguage(es[i].1).Some?)
  {
    PrefixSnoc(es, i);
    LookupSnoc(es[..i], es[i], "preferred_language");
    ConvertsSnoc(es, i, "preferred_language", leaves.preferredLanguage);
  }

  /** `from_value`: fill the slots entry by entry, stop at the first value that fails to convert, then `take_out`. */
  method FromValue(v: Value, leaves: Leaves) returns (r: Option<BancontactOptions>)
    ensures !v.Object? ==> r.None?
    ensures r == FromValueSpec(v, leaves)
  {
    if !v.Object? { return None; }
    var es := v.entries;
    var b := new Builder.DeserDefault();
    var i := 0;
    while i < |es|
      invariant 0 <= i <= |es|
      invariant AllConvert(es[..i], leaves)
      invariant b.preferredLanguage == Slot(es[..i], "preferred_language", leaves.preferredLanguage, None)
    {
      var (k, x) := es[i];
      EntryStep(es, i, leaves);
      match k {
        case "preferred_language" =>
          var c := leaves.preferredLanguage(x);
          if c.None? {
            ConvertsFails(es, i, leaves.preferredLanguage);
            return None;
          }
          b.preferredLanguage := Some(c.value);
        case _ =>
      }
      i := i + 1;
    }
    assert es[..|es|] == es;
    r := b.TakeOut();
  }

  /**
   * An object parses exactly when every known value converts and every
   * required key occurs.
   */
  lemma FromValueSome(es: Entries, leaves: Leaves)
    ensures FromValueSpec(Object(es), leaves).Some? <==>
      AllConvert(es, leaves)
      && Lookup(es, "preferred_language").Some?
    ensures FromValueSpec(Object(es), leaves).Some? && Lookup(es, "preferred_language").Some? ==>
      Some(FromValueSpec(Object(es), leaves).value.preferredLanguage) == leaves.preferredLanguage(Lookup(es, "preferred_language").value)
  {
    SlotFilled(es, "preferred_language", leaves.preferredLanguage, None);
  }

  /** An entry under an unknown key, wherever it stands, changes nothing. */
  lemma UnknownKeyIgnored(es1: Entries, e: Entry, es2: Entries, leaves: Leaves)
    requires Key(e.0).None?
    ensures FromValueSpec(Object(es1 + [e] + es2), leaves) == FromValueSpec(Object(es1 + es2), leaves)
  {
    SlotIgnores(es1, e, es2, "preferred_language", leaves.preferredLanguage, None);
  }

  /** A value that fails its conversion, anywhere in the object, makes the parse `None`. */
  lemma FailedConversionAborts(es: Entries, i: nat, f: Field, leaves: Leaves)
    requires i < |es| && es[i].0 == FieldName(f) && !Converted(f, es[i].1, leaves)
    ensures FromValueSpec(Object(es), leaves) == None
  {
    match f
    case PreferredLanguageSlot => ConvertsFails(es, i, leaves.preferredLanguage);
  }

  /** For a repeated key the last value decides: an earlier value that converts can be dropped. */
  lemma LastValueWins(es1: Entries, f: Field, x1: Value, es2: Entries, x2: Value, leaves: Leaves)
    requires Converted(f, x1, leaves)
    ensures FromValueSpec(Object(es1 + [(FieldName(f), x1)] + es2 + [(FieldName(f), x2)]), leaves)
         == FromValueSpec(Object(es1 + es2 + [(FieldName(f), x2)]), leaves)
  {
    SlotOverwritten(es1, FieldName(f), x1, es2, x2, "preferred_language", leaves.preferredLanguage, None);
  }
}
