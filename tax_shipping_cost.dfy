/**
 * `TaxProductResourceTaxCalculationShippingCost` (stripe_misc): the shipping cost line of a tax calculation,
 * and its `TaxBehavior` enum. The `i64` amounts are `int`: the range check belongs to the
 * leaf conversion, which lies outside this model.
 *
 * Its builder and `from_value` follow the abort variant: a value that fails
 * its conversion makes the whole parse `None`.
 * A slot of an optional field starts as `Some(None)` (miniserde's
 * `Deserialize::default` for `Option`), so the key may be absent; a slot of a
 * required field starts empty.
 */
module TaxShippingCost {
  import opened Wrappers
  import opened Json

  /** `TaxProductResourceLineItemTaxBreakdown`: a nested object, opaque here. */
  type TaxBreakdown

  /**
   * `TaxProductResourceTaxCalculationShippingCostTaxBehavior`: whether `amount` includes taxes.
   */
  datatype TaxBehavior = Exclusive | Inclusive

  /** The wire names of the variants. */
  const TaxBehaviorNames: set<string> := {"exclusive", "inclusive"}

  /** `as_str`: the wire name of a variant. */
  function TaxBehaviorAsStr(e: TaxBehavior): (r: string)
    ensures r in TaxBehaviorNames
  {
    match e
    case Exclusive => "exclusive"
    case Inclusive => "inclusive"
  }

  /** `from_str`: a variant for exactly the listed names, inverting `as_str`; `Err(())` for any other string. */
  function TaxBehaviorFromStr(s: string): (r: Result<TaxBehavior, ()>)
    ensures r.Ok? <==> s in TaxBehaviorNames
    ensures r.Ok? ==> TaxBehaviorAsStr(r.value) == s
  {
    match s
    case "exclusive" => Ok(TaxBehavior.Exclusive)
    case "inclusive" => Ok(TaxBehavior.Inclusive)
    case _ => Err(())
  }

  /** Parsing the wire name of any variant gives that variant back. */
  lemma TaxBehaviorRoundTrip(e: TaxBehavior)
    ensures TaxBehaviorFromStr(TaxBehaviorAsStr(e)) == Ok(e)
  {
  }

  /** The miniserde string visitor: `from_str`, with any failure reported as a deserialisation error. */
  function TaxBehaviorVisitString(s: string): (r: Result<TaxBehavior, DeError>)
    ensures r.Ok? <==> s in TaxBehaviorNames
    ensures r.Ok? ==> TaxBehaviorAsStr(r.value) == s
  {
    match TaxBehaviorFromStr(s)
    case Ok(v) => Ok(v)
    case Err(_) => Err(DeError)
  }

  datatype ShippingCost = ShippingCost(amount: int, amountTax: int, shippingRate: Option<string>, taxBehavior: TaxBehavior, taxBreakdown: Option<seq<TaxBreakdown>>, taxCode: string)

  /** The `FromValueOpt` conversion of each field's type; they lie outside this model. */
  datatype Leaves = Leaves(amount: Value -> Option<int>, amountTax: Value -> Option<int>, shippingRate: Value -> Option<Option<string>>, taxBehavior: Value -> Option<TaxBehavior>, taxBreakdown: Value -> Option<Option<seq<TaxBreakdown>>>, taxCode: Value -> Option<string>)

  /** The builder slots, one per field. */
  datatype Field = AmountSlot | AmountTaxSlot | ShippingRateSlot | TaxBehaviorSlot | TaxBreakdownSlot | TaxCodeSlot

  /** The JSON key of each slot. */
  function FieldName(f: Field): string
  {
    match f
    case AmountSlot => "amount"
    case AmountTaxSlot => "amount_tax"
    case ShippingRateSlot => "shipping_rate"
    case TaxBehaviorSlot => "tax_behavior"
    case TaxBreakdownSlot => "tax_breakdown"
    case TaxCodeSlot => "tax_code"
  }

  /** Whether `x` converts for the field of slot `f`. */
  predicate Converted(f: Field, x: Value, leaves: Leaves)
  {
    match f
    case AmountSlot => leaves.amount(x).Some?
    case AmountTaxSlot => leaves.amountTax(x).Some?
    case ShippingRateSlot => leaves.shippingRate(x).Some?
    case TaxBehaviorSlot => leaves.taxBehavior(x).Some?
    case TaxBreakdownSlot => leaves.taxBreakdown(x).Some?
    case TaxCodeSlot => leaves.taxCode(x).Some?
  }

  /** `key`: the slot a key name is routed to; every other name is ignored. */
  function Key(k: string): (r: Option<Field>)
    ensures r.Some? <==> k == "amount" || k == "amount_tax" || k == "shipping_rate" || k == "tax_behavior" || k == "tax_breakdown" || k == "tax_code"
    ensures r.Some? ==> FieldName(r.value) == k
  {
    match k
    case "amount" => Some(AmountSlot)
    case "amount_tax" => Some(AmountTaxSlot)
    case "shipping_rate" => Some(ShippingRateSlot)
    case "tax_behavior" => Some(TaxBehaviorSlot)
    case "tax_breakdown" => Some(TaxBreakdownSlot)
    case "tax_code" => Some(TaxCodeSlot)
    case _ => None
  }

  /** Every slot's own key is routed back to it. */
  lemma KeyFieldName(f: Field)
    ensures Key(FieldName(f)) == Some(f)
  {
  }

  class Builder {
    var amount: Option<int>
    var amountTax: Option<int>
    var shippingRate: Option<Option<string>>
    var taxBehavior: Option<TaxBehavior>
    var taxBreakdown: Option<Option<seq<TaxBreakdown>>>
    var taxCode: Option<string>

    /** `deser_default`: required slots start empty, optional ones hold `Some(None)`. */
    constructor DeserDefault()
      ensures amount == None && amountTax == None && shippingRate == Some(None) && taxBehavior == None && taxBreakdown == Some(None) && taxCode == None
    {
      amount := None;
      amountTax := None;
      shippingRate := Some(None);
      taxBehavior := None;
      taxBreakdown := Some(None);
      taxCode := None;
    }

    /**
     * `take_out`: `Some` exactly when every slot is filled. Slots are read in
     * field order, the first empty one stops the rest, and a slot read with
     * `.take()` is left empty.
     */
    method TakeOut() returns (r: Option<ShippingCost>)
      modifies this
      ensures r.Some? <==> old(amount).Some? && old(amountTax).Some? && old(shippingRate).Some? && old(taxBehavior).Some? && old(taxBreakdown).Some? && old(taxCode).Some?
      ensures r.Some? ==> r.value == ShippingCost(old(amount).value, old(amountTax).value, old(shippingRate).value, old(taxBehavior).value, old(taxBreakdown).value, old(taxCode).value)
      ensures amount == old(amount)
      ensures amountTax == old(amountTax)
      ensures shippingRate == if old(amount).Some? && old(amountTax).Some? then None else old(shippingRate)
      ensures taxBehavior == old(taxBehavior)
      ensures taxBreakdown == if old(amount).Some? && old(amountTax).Some? && old(shippingRate).Some? && old(taxBehavior).Some? then None else old(taxBreakdown)
      ensures taxCode == if old(amount).Some? && old(amountTax).Some? && old(shippingRate).Some? && old(taxBehavior).Some? && old(taxBreakdown).Some? then None else old(taxCode)
    {
      var amountOut := amount;
      if amountOut.None? { return None; }
      var amountTaxOut := amountTax;
      if amountTaxOut.None? { return None; }
      var shippingRateOut := shippingRate;
      shippingRate := None;
      if shippingRateOut.None? { return None; }
      var taxBehaviorOut := taxBehavior;
      if taxBehaviorOut.None? { return None; }
      var taxBreakdownOut := taxBreakdown;
      taxBreakdown := None;
      if taxBreakdownOut.None? { return None; }
      var taxCodeOut := taxCode;
      taxCode := None;
      if taxCodeOut.None? { return None; }
      r := Some(ShippingCost(amountOut.value, amountTaxOut.value, shippingRateOut.value, taxBehaviorOut.value, taxBreakdownOut.value, taxCodeOut.value));
    }
  }

  /** What `take_out` returns for the given slot contents. */
  function Assemble(amount: Option<int>, amountTax: Option<int>, shippingRate: Option<Option<string>>, taxBehavior: Option<TaxBehavior>, taxBreakdown: Option<Option<seq<TaxBreakdown>>>, taxCode: Option<string>): Option<ShippingCost>
  {
    if amount.Some? && amountTax.Some? && shippingRate.Some? && taxBehavior.Some? && taxBreakdown.Some? && taxCode.Some? then Some(ShippingCost(amount.value, amountTax.value, shippingRate.value, taxBehavior.value, taxBreakdown.value, taxCode.value)) else None
  }

  /** No entry under a known key fails its conversion. */
  predicate AllConvert(es: Entries, leaves: Leaves)
  {
    Converts(es, "amount", leaves.amount)
    && Converts(es, "amount_tax", leaves.amountTax)
    && Converts(es, "shipping_rate", leaves.shippingRate)
    && Converts(es, "tax_behavior", leaves.taxBehavior)
    && Converts(es, "tax_breakdown", leaves.taxBreakdown)
    && Converts(es, "tax_code", leaves.taxCode)
  }

  /** The result of `from_value`, stated over the object's entries. */
  function FromValueSpec(v: Value, leaves: Leaves): Option<ShippingCost>
  {
    if !v.Object? || !AllConvert(v.entries, leaves) then None
    else Assemble(Slot(v.entries, "amount", leaves.amount, None),
                  Slot(v.entries, "amount_tax", leaves.amountTax, None),
                  Slot(v.entries, "shipping_rate", leaves.shippingRate, Some(None)),
                  Slot(v.entries, "tax_behavior", leaves.taxBehavior, None),
                  Slot(v.entries, "tax_breakdown", leaves.taxBreakdown, Some(None)),
                  Slot(v.entries, "tax_code", leaves.taxCode, None))
  }

  /** One more entry: the slot of its key takes its conversion and the other slots stay as they were. */
  lemma EntryStep(es: Entries, i: nat, leaves: Leaves)
    requires i < |es|
    ensures Slot(es[..i + 1], "amount", leaves.amount, None) ==
      if es[i].0 == "amount" then leaves.amount(es[i].1) else Slot(es[..i], "amount", leaves.amount, None)
    ensures Slot(es[..i + 1], "amount_tax", leaves.amountTax, None) ==
      if es[i].0 == "amount_tax" then leaves.amountTax(es[i].1) else Slot(es[..i], "amount_tax", leaves.amountTax, None)
    ensures Slot(es[..i + 1], "shipping_rate", leaves.shippingRate, Some(None)) ==
      if es[i].0 == "shipping_rate" then leaves.shippingRate(es[i].1) else Slot(es[..i], "shipping_rate", leaves.shippingRate, Some(None))
    ensures Slot(es[..i + 1], "tax_behavior", leaves.taxBehavior, None) ==
      if es[i].0 == "tax_behavior" then leaves.taxBehavior(es[i].1) else Slot(es[..i], "tax_behavior", leaves.taxBehavior, None)
    ensures Slot(es[..i + 1], "tax_breakdown", leaves.taxBreakdown, Some(None)) ==
      if es[i].0 == "tax_breakdown" then leaves.taxBreakdown(es[i].1) else Slot(es[..i], "tax_breakdown", leaves.taxBreakdown, Some(None))
    ensures Slot(es[..i + 1], "tax_code", leaves.taxCode, None) ==
      if es[i].0 == "tax_code" then leaves.taxCode(es[i].1) else Slot(es[..i], "tax_code", leaves.taxCode, None)
    ensures AllConvert(es[..i + 1], leaves) <==>
      AllConvert(es[..i], leaves)
      && (es[i].0 == "amount" ==> leaves.amount(es[i].1).Some?)
      && (es[i].0 == "amount_tax" ==> leaves.amountTax(es[i].1).Some?)
      && (es[i].0 == "shipping_rate" ==> leaves.shippingRate(es[i].1).Some?)
      && (es[i].0 == "tax_behavior" ==> leaves.taxBehavior(es[i].1).Some?)
      && (es[i].0 == "tax_breakdown" ==> leaves.taxBreakdown(es[i].1).Some?)
      && (es[i].0 == "tax_code" ==> leaves.taxCode(es[i].1).Some?)
  {
    PrefixSnoc(es, i);
    LookupSnoc(es[..i], es[i], "amount");
    LookupSnoc(es[..i], es[i], "amount_tax");
    LookupSnoc(es[..i], es[i], "shipping_rate");
    LookupSnoc(es[..i], es[i], "tax_behavior");
    LookupSnoc(es[..i], es[i], "tax_breakdown");
    LookupSnoc(es[..i], es[i], "tax_code");
    ConvertsSnoc(es, i, "amount", leaves.amount);
    ConvertsSnoc(es, i, "amount_tax", leaves.amountTax);
    ConvertsSnoc(es, i, "shipping_rate", leaves.shippingRate);
    ConvertsSnoc(es, i, "tax_behavior", leaves.taxBehavior);
    ConvertsSnoc(es, i, "tax_breakdown", leaves.taxBreakdown);
    ConvertsSnoc(es, i, "tax_code", leaves.taxCode);
  }

  /** `from_value`: fill the slots entry by entry, stop at the first value that fails to convert, then `take_out`. */
  method FromValue(v: Value, leaves: Leaves) returns (r: Option<ShippingCost>)
    ensures !v.Object? ==> r.None?
    ensures r == FromValueSpec(v, leaves)
  {
    if !v.Object? { return None; }
    var es := v.entries;
    var b := new Builder.DeserDefault();
    var i := 0;
    while i < |es|
      invariant 0 <= i <= |es|
      invariant AllConvert(es[..i], leaves)
      invariant b.amount == Slot(es[..i], "amount", leaves.amount, None)
      invariant b.amountTax == Slot(es[..i], "amount_tax", leaves.amountTax, None)
      invariant b.shippingRate == Slot(es[..i], "shipping_rate", leaves.shippingRate, Some(None))
      invariant b.taxBehavior == Slot(es[..i], "tax_behavior", leaves.taxBehavior, None)
      invariant b.taxBreakdown == Slot(es[..i], "tax_breakdown", leaves.taxBreakdown, Some(None))
      invariant b.taxCode == Slot(es[..i], "tax_code", leaves.taxCode, None)
    {
      var (k, x) := es[i];
      EntryStep(es, i, leaves);
      match k {
        case "amount" =>
          var c := leaves.amount(x);
          if c.None? {
            ConvertsFails(es, i, leaves.amount);
            return None;
          }
          b.amount := Some(c.value);
        case "amount_tax" =>
          var c := leaves.amountTax(x);
          if c.None? {
            ConvertsFails(es, i, leaves.amountTax);
            return None;
          }
          b.amountTax := Some(c.value);
        case "shipping_rate" =>
          var c := leaves.shippingRate(x);
          if c.None? {
            ConvertsFails(es, i, leaves.shippingRate);
            return None;
          }
          b.shippingRate := Some(c.value);
        case "tax_behavior" =>
          var c := leaves.taxBehavior(x);
          if c.None? {
            ConvertsFails(es, i, leaves.taxBehavior);
            return None;
          }
          b.taxBehavior := Some(c.value);
        case "tax_breakdown" =>
          var c := leaves.taxBreakdown(x);
          if c.None? {
            ConvertsFails(es, i, leaves.taxBreakdown);
            return None;
          }
          b.taxBreakdown := Some(c.value);
        case "tax_code" =>
          var c := leaves.taxCode(x);
          if c.None? {
            ConvertsFails(es, i, leaves.taxCode);
            return None;
          }
          b.taxCode := Some(c.value);
        case _ =>
      }
      i := i + 1;
    }
    assert es[..|es|] == es;
    r := b.TakeOut();
  }

  /**
   * An object parses exactly when every known value converts and every
   * required key occurs. An absent optional key reads as `None`.
   */
  lemma FromValueSome(es: Entries, leaves: Leaves)
    ensures FromValueSpec(Object(es), leaves).Some? <==>
      AllConvert(es, leaves)
      && Lookup(es, "amount").Some?
      && Lookup(es, "amount_tax").Some?
      && Lookup(es, "tax_behavior").Some?
      && Lookup(es, "tax_code").Some?
    ensures FromValueSpec(Object(es), leaves).Some? && Lookup(es, "shipping_rate").None? ==>
      FromValueSpec(Object(es), leaves).value.shippingRate.None?
    ensures FromValueSpec(Object(es), leaves).Some? && Lookup(es, "tax_breakdown").None? ==>
      FromValueSpec(Object(es), leaves).value.taxBreakdown.None?
    ensures FromValueSpec(Object(es), leaves).Some? && Lookup(es, "amount").Some? ==>
      Some(FromValueSpec(Object(es), leaves).value.amount) == leaves.amount(Lookup(es, "amount").value)
    ensures FromValueSpec(Object(es), leaves).Some? && Lookup(es, "amount_tax").Some? ==>
      Some(FromValueSpec(Object(es), leaves).value.amountTax) == leaves.amountTax(Lookup(es, "amount_tax").value)
    ensures FromValueSpec(Object(es), leaves).Some? && Lookup(es, "shipping_rate").Some? ==>
      Some(FromValueSpec(Object(es), leaves).value.shippingRate) == leaves.shippingRate(Lookup(es, "shipping_rate").value)
    ensures FromValueSpec(Object(es), leaves).Some? && Lookup(es, "tax_behavior").Some? ==>
      Some(FromValueSpec(Object(es), leaves).value.taxBehavior) == leaves.taxBehavior(Lookup(es, "tax_behavior").value)
    ensures FromValueSpec(Object(es), leaves).Some? && Lookup(es, "tax_breakdown").Some? ==>
      Some(FromValueSpec(Object(es), leaves).value.taxBreakdown) == leaves.taxBreakdown(Lookup(es, "tax_breakdown").value)
    ensures FromValueSpec(Object(es), leaves).Some? && Lookup(es, "tax_code").Some? ==>
      Some(FromValueSpec(Object(es), leaves).value.taxCode) == leaves.taxCode(Lookup(es, "tax_code").value)
  {
    SlotFilled(es, "amount", leaves.amount, None);
    SlotFilled(es, "amount_tax", leaves.amountTax, None);
    SlotFilled(es, "shipping_rate", leaves.shippingRate, Some(None));
    SlotFilled(es, "tax_behavior", leaves.taxBehavior, None);
    SlotFilled(es, "tax_breakdown", leaves.taxBreakdown, Some(None));
    SlotFilled(es, "tax_code", leaves.taxCode, None);
  }

  /** An entry under an unknown key, wherever it stands, changes nothing. */
  lemma UnknownKeyIgnored(es1: Entries, e: Entry, es2: Entries, leaves: Leaves)
    requires Key(e.0).None?
    ensures FromValueSpec(Object(es1 + [e] + es2), leaves) == FromValueSpec(Object(es1 + es2), leaves)
  {
    SlotIgnores(es1, e, es2, "amount", leaves.amount, None);
    SlotIgnores(es1, e, es2, "amount_tax", leaves.amountTax, None);
    SlotIgnores(es1, e, es2, "shipping_rate", leaves.shippingRate, Some(None));
    SlotIgnores(es1, e, es2, "tax_behavior", leaves.taxBehavior, None);
    SlotIgnores(es1, e, es2, "tax_breakdown", leaves.taxBreakdown, Some(None));
    SlotIgnores(es1, e, es2, "tax_code", leaves.taxCode, None);
  }

  /** A value that fails its conversion, anywhere in the object, makes the parse `None`. */
  lemma FailedConversionAborts(es: Entries, i: nat, f: Field, leaves: Leaves)
    requires i < |es| && es[i].0 == FieldName(f) && !Converted(f, es[i].1, leaves)
    ensures FromValueSpec(Object(es), leaves) == None
  {
    match f
    case AmountSlot => ConvertsFails(es, i, leaves.amount);
    case AmountTaxSlot => ConvertsFails(es, i, leaves.amountTax);
    case ShippingRateSlot => ConvertsFails(es, i, leaves.shippingRate);
    case TaxBehaviorSlot => ConvertsFails(es, i, leaves.taxBehavior);
    case TaxBreakdownSlot => ConvertsFails(es, i, leaves.taxBreakdown);
    case TaxCodeSlot => ConvertsFails(es, i, leaves.taxCode);
  }

  /** For a repeated key the last value decides: an earlier value that converts can be dropped. */
  lemma LastValueWins(es1: Entries, f: Field, x1: Value, es2: Entries, x2: Value, leaves: Leaves)
    requires Converted(f, x1, leaves)
    ensures FromValueSpec(Object(es1 + [(FieldName(f), x1)] + es2 + [(FieldName(f), x2)]), leaves)
         == FromValueSpec(Object(es1 + es2 + [(FieldName(f), x2)]), leaves)
  {
    SlotOverwritten(es1, FieldName(f), x1, es2, x2, "amount", leaves.amount, None);
    SlotOverwritten(es1, FieldName(f), x1, es2, x2, "amount_tax", leaves.amountTax, None);
    SlotOverwritten(es1, FieldName(f), x1, es2, x2, "shipping_rate", leaves.shippingRate, Some(None));
    SlotOverwritten(es1, FieldName(f), x1, es2, x2, "tax_behavior", leaves.taxBehavior, None);
    SlotOverwritten(es1, FieldName(f), x1, es2, x2, "tax_breakdown", leaves.taxBreakdown, Some(None));
    SlotOverwritten(es1, FieldName(f), x1, es2, x2, "tax_code", leaves.taxCode, None);
  }
}
