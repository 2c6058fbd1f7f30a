/**
 * `PaymentIntentPaymentMethodOptionsLink` (stripe_shared): the Link payment method options of a payment intent,
 * and its two string enums.
 *
 * Its builder and `from_value` follow the abort variant: a value that fails
 * its conversion makes the whole parse `None`.
 * A slot of an optional field starts as `Some(None)` (miniserde's
 * `Deserialize::default` for `Option`), so the key may be absent; a slot of a
 * required field starts empty.
 */
module PaymentIntentLink {
  import opened Wrappers
  import opened Json

  /**
   * `PaymentIntentPaymentMethodOptionsLinkCaptureMethod`: when the funds are captured.
   */
  datatype CaptureMethod = Manual

  /** The wire names of the variants. */
  const CaptureMethodNames: set<string> := {"manual"}

  /** `as_str`: the wire name of a variant. */
  function CaptureMethodAsStr(e: CaptureMethod): (r: string)
    ensures r in CaptureMethodNames
  {
    match e
    case Manual => "manual"
  }

  /** `from_str`: a variant for exactly the listed names, inverting `as_str`; `Err(())` for any other string. */
  function CaptureMethodFromStr(s: string): (r: Result<CaptureMethod, ()>)
    ensures r.Ok? <==> s in CaptureMethodNames
    ensures r.Ok? ==> CaptureMethodAsStr(r.value) == s
  {
    match s
    case "manual" => Ok(CaptureMethod.Manual)
    case _ => Err(())
  }

  /** Parsing the wire name of any variant gives that variant back. */
  lemma CaptureMethodRoundTrip(e: CaptureMethod)
    ensures CaptureMethodFromStr(CaptureMethodAsStr(e)) == Ok(e)
  {
  }

  /** The miniserde string visitor: `from_str`, with any failure reported as a deserialisation error. */
  function CaptureMethodVisitString(s: string): (r: Result<CaptureMethod, DeError>)
    ensures r.Ok? <==> s in CaptureMethodNames
    ensures r.Ok? ==> CaptureMethodAsStr(r.value) == s
  {
    match CaptureMethodFromStr(s)
    case Ok(v) => Ok(v)
    case Err(_) => Err(DeError)
  }

  /**
   * `PaymentIntentPaymentMethodOptionsLinkSetupFutureUsage`: whether the payment method is saved for later.
   */
  datatype SetupFutureUsage = None | OffSession

  /** The wire names of the variants. */
  const SetupFutureUsageNames: set<string> := {"none", "off_session"}

  /** `as_str`: the wire name of a variant. */
  function SetupFutureUsageAsStr(e: SetupFutureUsage): (r: string)
    ensures r in SetupFutureUsageNames
  {
    match e
    case None => "none"
    case OffSession => "off_session"
  }

  /** `from_str`: a variant for exactly the listed names, inverting `as_str`; `Err(())` for any other string. */
  function SetupFutureUsageFromStr(s: string): (r: Result<SetupFutureUsage, ()>)
    ensures r.Ok? <==> s in SetupFutureUsageNames
    ensures r.Ok? ==> SetupFutureUsageAsStr(r.value) == s
  {
    match s
    case "none" => Ok(SetupFutureUsage.None)
    case "off_session" => Ok(SetupFutureUsage.OffSession)
    case _ => Err(())
  }

  /** Parsing the wire name of any variant gives that variant back. */
  lemma SetupFutureUsageRoundTrip(e: SetupFutureUsage)
    ensures SetupFutureUsageFromStr(SetupFutureUsageAsStr(e)) == Ok(e)
  {
  }

  /** The miniserde string visitor: `from_str`, with any failure reported as a deserialisation error. */
  function SetupFutureUsageVisitString(s: string): (r: Result<SetupFutureUsage, DeError>)
    ensures r.Ok? <==> s in SetupFutureUsageNames
    ensures r.Ok? ==> SetupFutureUsageAsStr(r.value) == s
  {
    match SetupFutureUsageFromStr(s)
    case Ok(v) => Ok(v)
    case Err(_) => Err(DeError)
  }

  datatype LinkOptions = LinkOptions(captureMethod: Option<CaptureMethod>, persistentToken: Option<string>, setupFutureUsage: Option<SetupFutureUsage>)

  /** The `FromValueOpt` conversion of each field's type; they lie outside this model. */
  datatype Leaves = Leaves(captureMethod: Value -> Option<Option<CaptureMethod>>, persistentToken: Value -> Option<Option<string>>, setupFutureUsage: Value -> Option<Option<SetupFutureUsage>>)

  /** The builder slots, one per field. */
  datatype Field = CaptureMethodSlot | PersistentTokenSlot | SetupFutureUsageSlot

  /** The JSON key of each slot. */
  function FieldName(f: Field): string
  {
    match f
    case CaptureMethodSlot => "capture_method"
    case PersistentTokenSlot => "persistent_token"
    case SetupFutureUsageSlot => "setup_future_usage"
  }

  /** Whether `x` converts for the field of slot `f`. */
  predicate Converted(f: Field, x: Value, leaves: Leaves)
  {
    match f
    case CaptureMethodSlot => leaves.captureMethod(x).Some?
    case PersistentTokenSlot => leaves.persistentToken(x).Some?
    case SetupFutureUsageSlot => leaves.setupFutureUsage(x).Some?
  }

  /** `key`: the slot a key name is routed to; every other name is ignored. */
  function Key(k: string): (r: Option<Field>)
    ensures r.Some? <==> k == "capture_method" || k == "persistent_token" || k == "setup_future_usage"
    ensures r.Some? ==> FieldName(r.value) == k
  {
    match k
    case "capture_method" => Some(CaptureMethodSlot)
    case "persistent_token" => Some(PersistentTokenSlot)
    case "setup_future_usage" => Some(SetupFutureUsageSlot)
    case _ => Option.None
  }

  /** Every slot's own key is routed back to it. */
  lemma KeyFieldName(f: Field)
    ensures Key(FieldName(f)) == Some(f)
  {
  }

  class Builder {
    var captureMethod: Option<Option<CaptureMethod>>
    var persistentToken: Option<Option<string>>
    var setupFutureUsage: Option<Option<SetupFutureUsage>>

    /** `deser_default`: every field is optional, so every slot holds `Some(None)`. */
    constructor DeserDefault()
      ensures captureMethod == Some(Option.None) && persistentToken == Some(Option.None) && setupFutureUsage == Some(Option.None)
    {
      captureMethod := Some(Option.None);
      persistentToken := Some(Option.None);
      setupFutureUsage := Some(Option.None);
    }

    /**
     * `take_out`: `Some` exactly when every slot is filled. Slots are read in
     * field order, the first empty one stops the rest, and a slot read with
     * `.take()` is left empty.
     */
    method TakeOut() returns (r: Option<LinkOptions>)
      modifies this
      ensures r.Some? <==> old(captureMethod).Some? && old(persistentToken).Some? && old(setupFutureUsage).Some?
      ensures r.Some? ==> r.value == LinkOptions(old(captureMethod).value, old(persistentToken).value, old(setupFutureUsage).value)
      ensures captureMethod == old(captureMethod)
      ensures persistentToken == if old(captureMethod).Some? then Option.None else old(persistentToken)
      ensures setupFutureUsage == old(setupFutureUsage)
    {
      var captureMethodOut := captureMethod;
      if captureMethodOut.None? { return Option.None; }
      var persistentTokenOut := persistentToken;
      persistentToken := Option.None;
      if persistentTokenOut.None? { return Option.None; }
      var setupFutureUsageOut := setupFutureUsage;
      if setupFutureUsageOut.None? { return Option.None; }
      r := Some(LinkOptions(captureMethodOut.value, persistentTokenOut.value, setupFutureUsageOut.value));
    }
  }

  /** What `take_out` returns for the given slot contents. */
  function Assemble(captureMethod: Option<Option<CaptureMethod>>, persistentToken: Option<Option<string>>, setupFutureUsage: Option<Option<SetupFutureUsage>>): Option<LinkOptions>
  {
    if captureMethod.Some? && persistentToken.Some? && setupFutureUsage.Some? then Some(LinkOptions(captureMethod.value, persistentToken.value, setupFutureUsage.value)) else Option.None
  }

  /** No entry under a known key fails its conversion. */
  predicate AllConvert(es: Entries, leaves: Leaves)
  {
    Converts(es, "capture_method", leaves.captureMethod)
    && Converts(es, "persistent_token", leaves.persistentToken)
    && Converts(es, "setup_future_usage", leaves.setupFutureUsage)
  }

  /** The result of `from_value`, stated over the object's entries. */
  function FromValueSpec(v: Value, leaves: Leaves): Option<LinkOptions>
  {
    if !v.Object? || !AllConvert(v.entries, leaves) then Option.None
    else Assemble(Slot(v.entries, "capture_method", leaves.captureMethod, Some(Option.None)),
                  Slot(v.entries, "persistent_token", leaves.persistentToken, Some(Option.None)),
                  Slot(v.entries, "setup_future_usage", leaves.setupFutureUsage, Some(Option.None)))
  }

  /** One more entry: the slot of its key takes its conversion and the other slots stay as they were. */
  lemma EntryStep(es: Entries, i: nat, leaves: Leaves)
    requires i < |es|
    ensures Slot(es[..i + 1], "capture_method", leaves.captureMethod, Some(Option.None)) ==
      if es[i].0 == "capture_method" then leaves.captureMethod(es[i].1) else Slot(es[..i], "capture_method", leaves.captureMethod, Some(Option.None))
    ensures Slot(es[..i + 1], "persistent_token", leaves.persistentToken, Some(Option.None)) ==
      if es[i].0 == "persistent_token" then leaves.persistentToken(es[i].1) else Slot(es[..i], "persistent_token", leaves.persistentToken, Some(Option.None))
    ensures Slot(es[..i + 1], "setup_future_usage", leaves.setupFutureUsage, Some(Option.None)) ==
      if es[i].0 == "setup_future_usage" then leaves.setupFutureUsage(es[i].1) else Slot(es[..i], "setup_future_usage", leaves.setupFutureUsage, Some(Option.None))
    ensures AllConvert(es[..i + 1], leaves) <==>
      AllConvert(es[..i], leaves)
      && (es[i].0 == "capture_method" ==> leaves.captureMethod(es[i].1).Some?)
      && (es[i].0 == "persistent_token" ==> leaves.persistentToken(es[i].1).Some?)
      && (es[i].0 == "setup_future_usage" ==> leaves.setupFutureUsage(es[i].1).Some?)
  {
    PrefixSnoc(es, i);
    LookupSnoc(es[..i], es[i], "capture_method");
    LookupSnoc(es[..i], es[i], "persistent_token");
    LookupSnoc(es[..i], es[i], "setup_future_usage");
    ConvertsSnoc(es, i, "capture_method", leaves.captureMethod);
    ConvertsSnoc(es, i, "persistent_token", leaves.persistentToken);
    ConvertsSnoc(es, i, "setup_future_usage", leaves.setupFutureUsage);
  }

  /** `from_value`: fill the slots entry by entry, stop at the first value that fails to convert, then `take_out`. */
  method FromValue(v: Value, leaves: Leaves) returns (r: Option<LinkOptions>)
    ensures !v.Object? ==> r.None?
    ensures r == FromValueSpec(v, leaves)
  {
    if !v.Object? { return Option.None; }
    var es := v.entries;
    var b := new Builder.DeserDefault();
    var i := 0;
    while i < |es|
      invariant 0 <= i <= |es|
      invariant AllConvert(es[..i], leaves)
      invariant b.captureMethod == Slot(es[..i], "capture_method", leaves.captureMethod, Some(Option.None))
      invariant b.persistentToken == Slot(es[..i], "persistent_token", leaves.persistentToken, Some(Option.None))
      invariant b.setupFutureUsage == Slot(es[..i], "setup_future_usage", leaves.setupFutureUsage, Some(Option.None))
    {
      var (k, x) := es[i];
      EntryStep(es, i, leaves);
      match k {
        case "capture_method" =>
          var c := leaves.captureMethod(x);
          if c.None? {
            ConvertsFails(es, i, leaves.captureMethod);
            return Option.None;
          }
          b.captureMethod := Some(c.value);
        case "persistent_token" =>
          var c := leaves.persistentToken(x);
          if c.None? {
            ConvertsFails(es, i, leaves.persistentToken);
            return Option.None;
          }
          b.persistentToken := Some(c.value);
        case "setup_future_usage" =>
          var c := leaves.setupFutureUsage(x);
          if c.None? {
            ConvertsFails(es, i, leaves.setupFutureUsage);
            return Option.None;
          }
          b.setupFutureUsage := Some(c.value);
        case _ =>
      }
      i := i + 1;
    }
    assert es[..|es|] == es;
    r := b.TakeOut();
  }

  /** An object parses exactly when every known value converts: no key is required, and an absent one reads as `None`. */
  lemma FromValueSome(es: Entries, leaves: Leaves)
    ensures FromValueSpec(Object(es), leaves).Some? <==>
      AllConvert(es, leaves)
    ensures FromValueSpec(Object(es), leaves).Some? && Lookup(es, "capture_method").None? ==>
      FromValueSpec(Object(es), leaves).value.captureMethod.None?
    ensures FromValueSpec(Object(es), leaves).Some? && Lookup(es, "persistent_token").None? ==>
      FromValueSpec(Object(es), leaves).value.persistentToken.None?
    ensures FromValueSpec(Object(es), leaves).Some? && Lookup(es, "setup_future_usage").None? ==>
      FromValueSpec(Object(es), leaves).value.setupFutureUsage.None?
    ensures FromValueSpec(Object(es), leaves).Some? && Lookup(es, "capture_method").Some? ==>
      Some(FromValueSpec(Object(es), leaves).value.captureMethod) == leaves.captureMethod(Lookup(es, "capture_method").value)
    ensures FromValueSpec(Object(es), leaves).Some? && Lookup(es, "persistent_token").Some? ==>
      Some(FromValueSpec(Object(es), leaves).value.persistentToken) == leaves.persistentToken(Lookup(es, "persistent_token").value)
    ensures FromValueSpec(Object(es), leaves).Some? && Lookup(es, "setup_future_usage").Some? ==>
      Some(FromValueSpec(Object(es), leaves).value.setupFutureUsage) == leaves.setupFutureUsage(Lookup(es, "setup_future_usage").value)
  {
    SlotFilled(es, "capture_method", leaves.captureMethod, Some(Option.None));
    SlotFilled(es, "persistent_token", leaves.persistentToken, Some(Option.None));
    SlotFilled(es, "setup_future_usage", leaves.setupFutureUsage, Some(Option.None));
  }

  /** An entry under an unknown key, wherever it stands, changes nothing. */
  lemma UnknownKeyIgnored(es1: Entries, e: Entry, es2: Entries, leaves: Leaves)
    requires Key(e.0).None?
    ensures FromValueSpec(Object(es1 + [e] + es2), leaves) == FromValueSpec(Object(es1 + es2), leaves)
  {
    SlotIgnores(es1, e, es2, "capture_method", leaves.captureMethod, Some(Option.None));
    SlotIgnores(es1, e, es2, "persistent_token", leaves.persistentToken, Some(Option.None));
    SlotIgnores(es1, e, es2, "setup_future_usage", leaves.setupFutureUsage, Some(Option.None));
  }

  /** A value that fails its conversion, anywhere in the object, makes the parse `None`. */
  lemma FailedConversionAborts(es: Entries, i: nat, f: Field, leaves: Leaves)
    requires i < |es| && es[i].0 == FieldName(f) && !Converted(f, es[i].1, leaves)
    ensures FromValueSpec(Object(es), leaves) == Option.None
  {
    match f
    case CaptureMethodSlot => ConvertsFails(es, i, leaves.captureMethod);
    case PersistentTokenSlot => ConvertsFails(es, i, leaves.persistentToken);
    case SetupFutureUsageSlot => ConvertsFails(es, i, leaves.setupFutureUsage);
  }

  /** For a repeated key the last value decides: an earlier value that converts can be dropped. */
  lemma LastValueWins(es1: Entries, f: Field, x1: Value, es2: Entries, x2: Value, leaves: Leaves)
    requires Converted(f, x1, leaves)
    ensures FromValueSpec(Object(es1 + [(FieldName(f), x1)] + es2 + [(FieldName(f), x2)]), leaves)
         == FromValueSpec(Object(es1 + es2 + [(FieldName(f), x2)]), leaves)
  {
    SlotOverwritten(es1, FieldName(f), x1, es2, x2, "capture_method", leaves.captureMethod, Some(Option.None));
    SlotOverwritten(es1, FieldName(f), x1, es2, x2, "persistent_token", leaves.persistentToken, Some(Option.None));
    SlotOverwritten(es1, FieldName(f), x1, es2, x2, "setup_future_usage", leaves.setupFutureUsage, Some(Option.None));
  }
}
