/**
 * `ConnectEmbeddedPaymentsFeatures` (connect): four feature flags.
 *
 * Its builder and `from_value` follow the clear variant: a value that fails
 * its conversion empties its slot and the parse goes on.
 */
module EmbeddedPaymentsFeatures {
  import opened Wrappers
  import opened Json

  datatype PaymentsFeatures = PaymentsFeatures(capturePayments: bool, destinationOnBehalfOfChargeManagement: bool, disputeManagement: bool, refundManagement: bool)

  /** The `FromValueOpt` conversion of each field's type; they lie outside this model. */
  datatype Leaves = Leaves(capturePayments: Value -> Option<bool>, destinationOnBehalfOfChargeManagement: Value -> Option<bool>, disputeManagement: Value -> Option<bool>, refundManagement: Value -> Option<bool>)

  /** The builder slots, one per field. */
  datatype Field = CapturePaymentsSlot | DestinationOnBehalfOfChargeManagementSlot | DisputeManagementSlot | RefundManagementSlot

  /** The JSON key of each slot. */
  function FieldName(f: Field): string
  {
    match f
    case CapturePaymentsSlot => "capture_payments"
    case DestinationOnBehalfOfChargeManagementSlot => "destination_on_behalf_of_charge_management"
    case DisputeManagementSlot => "dispute_management"
    case RefundManagementSlot => "refund_management"
  }

  /** Whether `x` converts for the field of slot `f`. */
  predicate Converted(f: Field, x: Value, leaves: Leaves)
  {
    match f
    case CapturePaymentsSlot => leaves.capturePayments(x).Some?
    case DestinationOnBehalfOfChargeManagementSlot => leaves.destinationOnBehalfOfChargeManagement(x).Some?
    case DisputeManagementSlot => leaves.disputeManagement(x).Some?
    case RefundManagementSlot => leaves.refundManagement(x).Some?
  }

  /** `key`: the slot a key name is routed to; every other name is ignored. */
  function Key(k: string): (r: Option<Field>)
    ensures r.Some? <==> k == "capture_payments" || k == "destination_on_behalf_of_charge_management" || k == "dispute_management" || k == "refund_management"
    ensures r.Some? ==> FieldName(r.value) == k
  {
    match k
    case "capture_payments" => Some(CapturePaymentsSlot)
    case "destination_on_behalf_of_charge_management" => Some(DestinationOnBehalfOfChargeManagementSlot)
    case "dispute_management" => Some(DisputeManagementSlot)
    case "refund_management" => Some(RefundManagementSlot)
    case _ => None
  }

  /** Every slot's own key is routed back to it. */
  lemma KeyFieldName(f: Field)
    ensures Key(FieldName(f)) == Some(f)
  {
  }

  class Builder {
    var capturePayments: Option<bool>
    var destinationOnBehalfOfChargeManagement: Option<bool>
    var disputeManagement: Option<bool>
    var refundManagement: Option<bool>

    /** `deser_default`: every slot starts empty. */
    constructor DeserDefault()
      ensures capturePayments == None && destinationOnBehalfOfChargeManagement == None && disputeManagement == None && refundManagement == None
    {
      capturePayments := None;
      destinationOnBehalfOfChargeManagement := None;
      disputeManagement := None;
      refundManagement := None;
    }

    /** `take_out`: `Some` exactly when every slot is filled, read all at once; the slots are left as they are. */
    method TakeOut() returns (r: Option<PaymentsFeatures>)
      ensures r.Some? <==> capturePayments.Some? && destinationOnBehalfOfChargeManagement.Some? && disputeManagement.Some? && refundManagement.Some?
      ensures r.Some? ==> r.value == PaymentsFeatures(capturePayments.value, destinationOnBehalfOfChargeManagement.value, disputeManagement.value, refundManagement.value)
    {
      if capturePayments.Some? && destinationOnBehalfOfChargeManagement.Some? && disputeManagement.Some? && refundManagement.Some? {
        r := Some(PaymentsFeatures(capturePayments.value, destinationOnBehalfOfChargeManagement.value, disputeManagement.value, refundManagement.value));
      } else {
        r := None;
      }
    }
  }

  /** What `take_out` returns for the given slot contents. */
  function Assemble(capturePayments: Option<bool>, destinationOnBehalfOfChargeManagement: Option<bool>, disputeManagement: Option<bool>, refundManagement: Option<bool>): Option<PaymentsFeatures>
  {
    if capturePayments.Some? && destinationOnBehalfOfChargeManagement.Some? && disputeManagement.Some? && refundManagement.Some? then Some(PaymentsFeatures(capturePayments.value, destinationOnBehalfOfChargeManagement.value, disputeManagement.value, refundManagement.value)) else None
  }

  /** The result of `from_value`, stated over the object's entries. */
  function FromValueSpec(v: Value, leaves: Leaves): Option<PaymentsFeatures>
  {
    if !v.Object? then None
    else Assemble(Slot(v.entries, "capture_payments", leaves.capturePayments, None),
                  Slot(v.entries, "destination_on_behalf_of_charge_management", leaves.destinationOnBehalfOfChargeManagement, None),
                  Slot(v.entries, "dispute_management", leaves.disputeManagement, None),
                  Slot(v.entries, "refund_management", leaves.refundManagement, None))
  }

  /** One more entry: the slot of its key takes its conversion and the other slots stay as they were. */
  lemma EntryStep(es: Entries, i: nat, leaves: Leaves)
    requires i < |es|
    ensures Slot(es[..i + 1], "capture_payments", leaves.capturePayments, None) ==
      if es[i].0 == "capture_payments" then leaves.capturePayments(es[i].1) else Slot(es[..i], "capture_payments", leaves.capturePayments, None)
    ensures Slot(es[..i + 1], "destination_on_behalf_of_charge_management", leaves.destinationOnBehalfOfChargeManagement, None) ==
      if es[i].0 == "destination_on_behalf_of_charge_management" then leaves.destinationOnBehalfOfChargeManagement(es[i].1) else Slot(es[..i], "destination_on_behalf_of_charge_management", leaves.destinationOnBehalfOfChargeManagement, None)
    ensures Slot(es[..i + 1], "dispute_management", leaves.disputeManagement, None) ==
      if es[i].0 == "dispute_management" then leaves.disputeManagement(es[i].1) else Slot(es[..i], "dispute_management", leaves.disputeManagement, None)
    ensures Slot(es[..i + 1], "refund_management", leaves.refundManagement, None) ==
      if es[i].0 == "refund_management" then leaves.refundManagement(es[i].1) else Slot(es[..i], "refund_management", leaves.refundManagement, None)
  {
    PrefixSnoc(es, i);
    LookupSnoc(es[..i], es[i], "capture_payments");
    LookupSnoc(es[..i], es[i], "destination_on_behalf_of_charge_management");
    LookupSnoc(es[..i], es[i], "dispute_management");
    LookupSnoc(es[..i], es[i], "refund_management");
  }

  /** `from_value`: store each entry's conversion, failed or not, in its slot, then `take_out`. */
  method FromValue(v: Value, leaves: Leaves) returns (r: Option<PaymentsFeatures>)
    ensures !v.Object? ==> r.None?
    ensures r == FromValueSpec(v, leaves)
  {
    if !v.Object? { return None; }
    var es := v.entries;
    var b := new Builder.DeserDefault();
    var i := 0;
    while i < |es|
      invariant 0 <= i <= |es|
      invariant b.capturePayments == Slot(es[..i], "capture_payments", leaves.capturePayments, None)
      invariant b.destinationOnBehalfOfChargeManagement == Slot(es[..i], "destination_on_behalf_of_charge_management", leaves.destinationOnBehalfOfChargeManagement, None)
      invariant b.disputeManagement == Slot(es[..i], "dispute_management", leaves.disputeManagement, None)
      invariant b.refundManagement == Slot(es[..i], "refund_management", leaves.refundManagement, None)
    {
      var (k, x) := es[i];
      EntryStep(es, i, leaves);
      match k {
        case "capture_payments" =>
          b.capturePayments := leaves.capturePayments(x);
        case "destination_on_behalf_of_charge_management" =>
          b.destinationOnBehalfOfChargeManagement := leaves.destinationOnBehalfOfChargeManagement(x);
        case "dispute_management" =>
          b.disputeManagement := leaves.disputeManagement(x);
        case "refund_management" =>
          b.refundManagement := leaves.refundManagement(x);
        case _ =>
      }
      i := i + 1;
    }
    assert es[..|es|] == es;
    r := b.TakeOut();
  }

  /**
   * An object parses exactly when every key occurs with a last value
   * that converts.
   */
  lemma FromValueSome(es: Entries, leaves: Leaves)
    ensures FromValueSpec(Object(es), leaves).Some? <==>
      (Lookup(es, "capture_payments").Some? && leaves.capturePayments(Lookup(es, "capture_payments").value).Some?)
      && (Lookup(es, "destination_on_behalf_of_charge_management").Some? && leaves.destinationOnBehalfOfChargeManagement(Lookup(es, "destination_on_behalf_of_charge_management").value).Some?)
      && (Lookup(es, "dispute_management").Some? && leaves.disputeManagement(Lookup(es, "dispute_management").value).Some?)
      && (Lookup(es, "refund_management").Some? && leaves.refundManagement(Lookup(es, "refund_management").value).Some?)
    ensures FromValueSpec(Object(es), leaves).Some? && Lookup(es, "capture_payments").Some? ==>
      Some(FromValueSpec(Object(es), leaves).value.capturePayments) == leaves.capturePayments(Lookup(es, "capture_payments").value)
    ensures FromValueSpec(Object(es), leaves).Some? && Lookup(es, "destination_on_behalf_of_charge_management").Some? ==>
      Some(FromValueSpec(Object(es), leaves).value.destinationOnBehalfOfChargeManagement) == leaves.destinationOnBehalfOfChargeManagement(Lookup(es, "destination_on_behalf_of_charge_management").value)
    ensures FromValueSpec(Object(es), leaves).Some? && Lookup(es, "dispute_management").Some? ==>
      Some(FromValueSpec(Object(es), leaves).value.disputeManagement) == leaves.disputeManagement(Lookup(es, "dispute_management").value)
    ensures FromValueSpec(Object(es), leaves).Some? && Lookup(es, "refund_management").Some? ==>
      Some(FromValueSpec(Object(es), leaves).value.refundManagement) == leaves.refundManagement(Lookup(es, "refund_management").value)
  {
    SlotFilled(es, "capture_payments", leaves.capturePayments, None);
    SlotFilled(es, "destination_on_behalf_of_charge_management", leaves.destinationOnBehalfOfChargeManagement, None);
    SlotFilled(es, "dispute_management", leaves.disputeManagement, None);
    SlotFilled(es, "refund_management", leaves.refundManagement, None);
  }

  /** An entry under an unknown key, wherever it stands, changes nothing. */
  lemma UnknownKeyIgnored(es1: Entries, e: Entry, es2: Entries, leaves: Leaves)
    requires Key(e.0).None?
    ensures FromValueSpec(Object(es1 + [e] + es2), leaves) == FromValueSpec(Object(es1 + es2), leaves)
  {
    SlotIgnores(es1, e, es2, "capture_payments", leaves.capturePayments, None);
    SlotIgnores(es1, e, es2, "destination_on_behalf_of_charge_management", leaves.destinationOnBehalfOfChargeManagement, None);
    SlotIgnores(es1, e, es2, "dispute_management", leaves.disputeManagement, None);
    SlotIgnores(es1, e, es2, "refund_management", leaves.refundManagement, None);
  }

  /** A last value that fails its conversion empties its slot, so the parse is `None`, whatever came before. */
  lemma FailedConversionClears(es: Entries, f: Field, x: Value, leaves: Leaves)
    requires !Converted(f, x, leaves)
    ensures FromValueSpec(Object(es + [(FieldName(f), x)]), leaves) == None
  {
    LookupSnoc(es, (FieldName(f), x), FieldName(f));
  }

  /** For a repeated key the last value alone decides: an earlier value, good or bad, can be dropped. */
  lemma LastValueWins(es1: Entries, f: Field, x1: Value, es2: Entries, x2: Value, leaves: Leaves)
    ensures FromValueSpec(Object(es1 + [(FieldName(f), x1)] + es2 + [(FieldName(f), x2)]), leaves)
         == FromValueSpec(Object(es1 + es2 + [(FieldName(f), x2)]), leaves)
  {
    SlotOverwritten(es1, FieldName(f), x1, es2, x2, "capture_payments", leaves.capturePayments, None);
    SlotOverwritten(es1, FieldName(f), x1, es2, x2, "destination_on_behalf_of_charge_management", leaves.destinationOnBehalfOfChargeManagement, None);
    SlotOverwritten(es1, FieldName(f), x1, es2, x2, "dispute_management", leaves.disputeManagement, None);
    SlotOverwritten(es1, FieldName(f), x1, es2, x2, "refund_management", leaves.refundManagement, None);
  }
}
