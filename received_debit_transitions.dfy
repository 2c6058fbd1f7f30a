/**
 * `TreasuryReceivedDebitsResourceStatusTransitions` (treasury): when a received debit completed.
 *
 * Its builder and `from_value` follow the clear variant: a value that fails
 * its conversion empties its slot and the parse goes on.
 * A slot of an optional field starts as `Some(None)` (miniserde's
 * `Deserialize::default` for `Option`), so the key may be absent; a slot of a
 * required field starts empty.
 */
module ReceivedDebitTransitions {
  import opened Wrappers
  import opened Json

  /** `stripe_types::Timestamp`, seconds since the epoch (an `i64` in the source). */
  type Timestamp = int

  datatype StatusTransitions = StatusTransitions(completedAt: Option<Timestamp>)

  /** The `FromValueOpt` conversion of each field's type; they lie outside this model. */
  datatype Leaves = Leaves(completedAt: Value -> Option<Option<Timestamp>>)

  /** The builder slots, one per field. */
  datatype Field = CompletedAtSlot

  /** The JSON key of each slot. */
  function FieldName(f: Field): string
  {
    match f
    case CompletedAtSlot => "completed_at"
  }

  /** Whether `x` converts for the field of slot `f`. */
  predicate Converted(f: Field, x: Value, leaves: Leaves)
  {
    match f
    case CompletedAtSlot => leaves.completedAt(x).Some?
  }

  /** `key`: the slot a key name is routed to; every other name is ignored. */
  function Key(k: string): (r: Option<Field>)
    ensures r.Some? <==> k == "completed_at"
    ensures r.Some? ==> FieldName(r.value) == k
  {
    match k
    case "completed_at" => Some(CompletedAtSlot)
    case _ => None
  }

  /** Every slot's own key is routed back to it. */
  lemma KeyFieldName(f: Field)
    ensures Key(FieldName(f)) == Some(f)
  {
  }

  class Builder {
    var completedAt: Option<Option<Timestamp>>

    /** `deser_default`: every field is optional, so every slot holds `Some(None)`. */
    constructor DeserDefault()
      ensures completedAt == Some(None)
    {
      completedAt := Some(None);
    }

    /** `take_out`: `Some` exactly when every slot is filled, read all at once; the slots are left as they are. */
    method TakeOut() returns (r: Option<StatusTransitions>)
      ensures r.Some? <==> completedAt.Some?
      ensures r.Some? ==> r.value == StatusTransitions(completedAt.value)
    {
      if completedAt.Some? {
        r := Some(StatusTransitions(completedAt.value));
      } else {
        r := None;
      }
    }
  }

  /** What `take_out` returns for the given slot contents. */
  function Assemble(completedAt: Option<Option<Timestamp>>): Option<StatusTransitions>
  {
    if completedAt.Some? then Some(StatusTransitions(completedAt.value)) else None
  }

  /** The result of `from_value`, stated over the object's entries. */
  function FromValueSpec(v: Value, leaves: Leaves): Option<StatusTransitions>
  {
    if !v.Object? then None
    else Assemble(Slot(v.entries, "completed_at", leaves.completedAt, Some(None)))
  }

  /** One more entry: the slot of its key takes its conversion and the other slots stay as they were. */
  lemma EntryStep(es: Entries, i: nat, leaves: Leaves)
    requires i < |es|
    ensures Slot(es[..i + 1], "completed_at", leaves.completedAt, Some(None)) ==
      if es[i].0 == "completed_at" then leaves.completedAt(es[i].1) else Slot(es[..i], "completed_at", leaves.completedAt, Some(None))
  {
    PrefixSnoc(es, i);
    LookupSnoc(es[..i], es[i], "completed_at");
  }

  /** `from_value`: store each entry's conversion, failed or not, in its slot, then `take_out`. */
  method FromValue(v: Value, leaves: Leaves) returns (r: Option<StatusTransitions>)
    ensures !v.Object? ==> r.None?
    ensures r == FromValueSpec(v, leaves)
  {
    if !v.Object? { return None; }
    var es := v.entries;
    var b := new Builder.DeserDefault();
    var i := 0;
    while i < |es|
      invariant 0 <= i <= |es|
      invariant b.completedAt == Slot(es[..i], "completed_at", leaves.completedAt, Some(None))
    {
      var (k, x) := es[i];
      EntryStep(es, i, leaves);
      match k {
        case "completed_at" =>
          b.completedAt := leaves.completedAt(x);
        case _ =>
      }
      i := i + 1;
    }
    assert es[..|es|] == es;
    r := b.TakeOut();
  }

  /**
   * An object parses exactly when the last value under each key that occurs
   * converts. An absent key reads as `None`.
   */
  lemma FromValueSome(es: Entries, leaves: Leaves)
    ensures FromValueSpec(Object(es), leaves).Some? <==>
      (Lookup(es, "completed_at").Some? ==> leaves.completedAt(Lookup(es, "completed_at").value).Some?)
    ensures FromValueSpec(Object(es), leaves).Some? && Lookup(es, "completed_at").None? ==>
      FromValueSpec(Object(es), leaves).value.completedAt.None?
    ensures FromValueSpec(Object(es), leaves).Some? && Lookup(es, "completed_at").Some? ==>
      Some(FromValueSpec(Object(es), leaves).value.completedAt) == leaves.completedAt(Lookup(es, "completed_at").value)
  {
    SlotFilled(es, "completed_at", leaves.completedAt, Some(None));
  }

  /** An entry under an unknown key, wherever it stands, changes nothing. */
  lemma UnknownKeyIgnored(es1: Entries, e: Entry, es2: Entries, leaves: Leaves)
    requires Key(e.0).None?
    ensures FromValueSpec(Object(es1 + [e] + es2), leaves) == FromValueSpec(Object(es1 + es2), leaves)
  {
    SlotIgnores(es1, e, es2, "completed_at", leaves.completedAt, Some(None));
  }

  /** A last value that fails its conversion empties its slot, so the parse is `None`, whatever came before. */
  lemma FailedConversionClears(es: Entries, f: Field, x: Value, leaves: Leaves)
    requires !Converted(f, x, leaves)
    ensures FromValueSpec(Object(es + [(FieldName(f), x)]), leaves) == None
  {
    LookupSnoc(es, (FieldName(f), x), FieldName(f));
  }

  /** For a repeated key the last value alone decides: an earlier value, good or bad, can be dropped. */
  lemma LastValueWins(es1: Entries, f: Field, x1: Value, es2: Entries, x2: Value, leaves: Leaves)
    ensures FromValueSpec(Object(es1 + [(FieldName(f), x1)] + es2 + [(FieldName(f), x2)]), leaves)
         == FromValueSpec(Object(es1 + es2 + [(FieldName(f), x2)]), leaves)
  {
    SlotOverwritten(es1, FieldName(f), x1, es2, x2, "completed_at", leaves.completedAt, Some(None));
  }
}
