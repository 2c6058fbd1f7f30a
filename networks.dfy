/**
 * `Networks` (stripe_shared): the card networks object.
 *
 * Its builder and `from_value` follow the abort variant: a value that fails
 * its conversion makes the whole parse `None`.
 * A slot of an optional field starts as `Some(None)` (miniserde's
 * `Deserialize::default` for `Option`), so the key may be absent; a slot of a
 * required field starts empty.
 */
module Networks {
  import opened Wrappers
  import opened Json

  datatype Networks = Networks(available: seq<string>, preferred: Option<string>)

  /** The `FromValueOpt` conversion of each field's type; they lie outside this model. */
  datatype Leaves = Leaves(available: Value -> Option<seq<string>>, preferred: Value -> Option<Option<string>>)

  /** The builder slots, one per field. */
  datatype Field = AvailableSlot | PreferredSlot

  /** The JSON key of each slot. */
  function FieldName(f: Field): string
  {
    match f
    case AvailableSlot => "available"
    case PreferredSlot => "preferred"
  }

  /** Whether `x` converts for the field of slot `f`. */
  predicate Converted(f: Field, x: Value, leaves: Leaves)
  {
    match f
    case AvailableSlot => leaves.available(x).Some?
    case PreferredSlot => leaves.preferred(x).Some?
  }

  /** `key`: the slot a key name is routed to; every other name is ignored. */
  function Key(k: string): (r: Option<Field>)
    ensures r.Some? <==> k == "available" || k == "preferred"
    ensures r.Some? ==> FieldName(r.value) == k
  {
    match k
    case "available" => Some(AvailableSlot)
    case "preferred" => Some(PreferredSlot)
    case _ => None
  }

  /** Every slot's own key is routed back to it. */
  lemma KeyFieldName(f: Field)
    ensures Key(FieldName(f)) == Some(f)
  {
  }

  class Builder {
    var available: Option<seq<string>>
    var preferred: Option<Option<string>>

    /** `deser_default`: required slots start empty, optional ones hold `Some(None)`. */
    constructor DeserDefault()
      ensures available == None && preferred == Some(None)
    {
      available := None;
      preferred := Some(None);
    }

    /**
     * `take_out`: `Some` exactly when every slot is filled. Slots are read in
     * field order, the first empty one stops the rest, and a slot read with
     * `.take()` is left empty.
     */
    method TakeOut() returns (r: Option<Networks>)
      modifies this
      ensures r.Some? <==> old(available).Some? && old(preferred).Some?
      ensures r.Some? ==> r.value == Networks(old(available).value, old(preferred).value)
      ensures available == None
      ensures preferred == if old(available).Some? then None else old(preferred)
    {
      var availableOut := available;
      available := None;
      if availableOut.None? { return None; }
      var preferredOut := preferred;
      preferred := None;
      if preferredOut.None? { return None; }
      r := Some(Networks(availableOut.value, preferredOut.value));
    }
  }

  /** What `take_out` returns for the given slot contents. */
  function Assemble(available: Option<seq<string>>, preferred: Option<Option<string>>): Option<Networks>
  {
    if available.Some? && preferred.Some? then Some(Networks(available.value, preferred.value)) else None
  }

  /** No entry under a known key fails its conversion. */
  predicate AllConvert(es: Entries, leaves: Leaves)
  {
    Converts(es, "available", leaves.available)
    && Converts(es, "preferred", leaves.preferred)
  }

  /** The result of `from_value`, stated over the object's entries. */
  function FromValueSpec(v: Value, leaves: Leaves): Option<Networks>
  {
    if !v.Object? || !AllConvert(v.entries, leaves) then None
    else Assemble(Slot(v.entries, "available", leaves.available, None),
                  Slot(v.entries, "preferred", leaves.preferred, Some(None)))
  }

  /** One more entry: the slot of its key takes its conversion and the other slots stay as they were. */
  lemma EntryStep(es: Entries, i: nat, leaves: Leaves)
    requires i < |es|
    ensures Slot(es[..i + 1], "available", leaves.available, None) ==
      if es[i].0 == "available" then leaves.available(es[i].1) else Slot(es[..i], "available", leaves.available, None)
    ensures Slot(es[..i + 1], "preferred", leaves.preferred, Some(None)) ==
      if es[i].0 == "preferred" then leaves.preferred(es[i].1) else Slot(es[..i], "preferred", leaves.preferred, Some(None))
    ensures AllConvert(es[..i + 1], leaves) <==>
      AllConvert(es[..i], leaves)
      && (es[i].0 == "available" ==> leaves.available(es[i].1).Some?)
      && (es[i].0 == "preferred" ==> leaves.preferred(es[i].1).Some?)
  {
    PrefixSnoc(es, i);
    LookupSnoc(es[..i], es[i], "available");
    LookupSnoc(es[..i], es[i], "preferred");
    ConvertsSnoc(es, i, "available", leaves.available);
    ConvertsSnoc(es, i, "preferred", leaves.preferred);
  }

  /** `from_value`: fill the slots entry by entry, stop at the first value that fails to convert, then `take_out`. */
  method FromValue(v: Value, leaves: Leaves) returns (r: Option<Networks>)
    ensures !v.Object? ==> r.None?
    ensures r == FromValueSpec(v, leaves)
  {
    if !v.Object? { return None; }
    var es := v.entries;
    var b := new Builder.DeserDefault();
    var i := 0;
    while i < |es|
      invariant 0 <= i <= |es|
      invariant AllConvert(es[..i], leaves)
      invariant b.available == Slot(es[..i], "available", leaves.available, None)
      invariant b.preferred == Slot(es[..i], "preferred", leaves.preferred, Some(None))
    {
      var (k, x) := es[i];
      EntryStep(es, i, leaves);
      match k {
        case "available" =>
          var c := leaves.available(x);
          if c.None? {
            ConvertsFails(es, i, leaves.available);
            return None;
          }
          b.available := Some(c.value);
        case "preferred" =>
          var c := leaves.preferred(x);
          if c.None? {
            ConvertsFails(es, i, leaves.preferred);
            return None;
          }
          b.preferred := Some(c.value);
        case _ =>
      }
      i := i + 1;
    }
    assert es[..|es|] == es;
    r := b.TakeOut();
  }

  /**
   * An object parses exactly when every known value converts and every
   * required key occurs. An absent optional key reads as `None`.
   */
  lemma FromValueSome(es: Entries, leaves: Leaves)
    ensures FromValueSpec(Object(es), leaves).Some? <==>
      AllConvert(es, leaves)
      && Lookup(es, "available").Some?
    ensures FromValueSpec(Object(es), leaves).Some? && Lookup(es, "preferred").None? ==>
      FromValueSpec(Object(es), leaves).value.preferred.None?
    ensures FromValueSpec(Object(es), leaves).Some? && Lookup(es, "available").Some? ==>
      Some(FromValueSpec(Object(es), leaves).value.available) == leaves.available(Lookup(es, "available").value)
    ensures FromValueSpec(Object(es), leaves).Some? && Lookup(es, "preferred").Some? ==>
      Some(FromValueSpec(Object(es), leaves).value.preferred) == leaves.preferred(Lookup(es, "preferred").value)
  {
    SlotFilled(es, "available", leaves.available, None);
    SlotFilled(es, "preferred", leaves.preferred, Some(None));
  }

  /** An entry under an unknown key, wherever it stands, changes nothing. */
  lemma UnknownKeyIgnored(es1: Entries, e: Entry, es2: Entries, leaves: Leaves)
    requires Key(e.0).None?
    ensures FromValueSpec(Object(es1 + [e] + es2), leaves) == FromValueSpec(Object(es1 + es2), leaves)
  {
    SlotIgnores(es1, e, es2, "available", leaves.available, None);
    SlotIgnores(es1, e, es2, "preferred", leaves.preferred, Some(None));
  }

  /** A value that fails its conversion, anywhere in the object, makes the parse `None`. */
  lemma FailedConversionAborts(es: Entries, i: nat, f: Field, leaves: Leaves)
    requires i < |es| && es[i].0 == FieldName(f) && !Converted(f, es[i].1, leaves)
    ensures FromValueSpec(Object(es), leaves) == None
  {
    match f
    case AvailableSlot => ConvertsFails(es, i, leaves.available);
    case PreferredSlot => ConvertsFails(es, i, leaves.preferred);
  }

  /** For a repeated key the last value decides: an earlier value that converts can be dropped. */
  lemma LastValueWins(es1: Entries, f: Field, x1: Value, es2: Entries, x2: Value, leaves: Leaves)
    requires Converted(f, x1, leaves)
    ensures FromValueSpec(Object(es1 + [(FieldName(f), x1)] + es2 + [(FieldName(f), x2)]), leaves)
         == FromValueSpec(Object(es1 + es2 + [(FieldName(f), x2)]), leaves)
  {
    SlotOverwritten(es1, FieldName(f), x1, es2, x2, "available", leaves.available, None);
    SlotOverwritten(es1, FieldName(f), x1, es2, x2, "preferred", leaves.preferred, Some(None));
  }
}
