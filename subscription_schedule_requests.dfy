/**
 * The requests on subscription schedules (async-stripe-billing): list, retrieve,
 * create, update, cancel and release a schedule; the `Phases` parameter structs;
 * and the string enums of their parameters.
 *
 * The source repeats each enum under several names (the `Create*` and `Update*`
 * copies, and the same enum nested under `DefaultSettings` and under `Phases`).
 * The copies have the same variants, wire names and fallback, and each set of
 * copies is one datatype here.
 */
module SubscriptionScheduleRequests {
  import opened Wrappers
  import opened Requests

  /** `BillingThresholdsParam`: a nested parameter struct; its fields are not part of this model. */
  type BillingThresholdsParam(==)

  /** `CreateSubscriptionScheduleDefaultSettings`: a nested parameter struct; its fields are not part of this model. */
  type CreateSubscriptionScheduleDefaultSettings(==)

  /** `CreateSubscriptionSchedulePhasesAddInvoiceItems`: a nested parameter struct; its fields are not part of this model. */
  type CreateSubscriptionSchedulePhasesAddInvoiceItems(==)

  /** `CreateSubscriptionSchedulePhasesAutomaticTax`: a nested parameter struct; its fields are not part of this model. */
  type CreateSubscriptionSchedulePhasesAutomaticTax(==)

  /** `CreateSubscriptionSchedulePhasesInvoiceSettings`: a nested parameter struct; its fields are not part of this model. */
  type CreateSubscriptionSchedulePhasesInvoiceSettings(==)

  /** `CreateSubscriptionSchedulePhasesItems`: a nested parameter struct; its fields are not part of this model. */
  type CreateSubscriptionSchedulePhasesItems(==)

  /** `CreateSubscriptionScheduleStartDate`: an untagged enum, a timestamp or `now`; its serialisation is not part of this model. */
  type CreateSubscriptionScheduleStartDate(==)

  /** `DiscountsDataParam`: a nested parameter struct; its fields are not part of this model. */
  type DiscountsDataParam(==)

  /** `f64`: a floating-point payload, passed through unchanged. */
  type F64(==)

  /** `stripe_shared::SubscriptionScheduleEndBehavior`: its variants are not part of this model. */
  type SubscriptionScheduleEndBehavior(==)

  /** `TransferDataSpecs`: a nested parameter struct; its fields are not part of this model. */
  type TransferDataSpecs(==)

  /** `UpdateSubscriptionScheduleDefaultSettings`: a nested parameter struct; its fields are not part of this model. */
  type UpdateSubscriptionScheduleDefaultSettings(==)

  /** `UpdateSubscriptionSchedulePhasesAddInvoiceItems`: a nested parameter struct; its fields are not part of this model. */
  type UpdateSubscriptionSchedulePhasesAddInvoiceItems(==)

  /** `UpdateSubscriptionSchedulePhasesAutomaticTax`: a nested parameter struct; its fields are not part of this model. */
  type UpdateSubscriptionSchedulePhasesAutomaticTax(==)

  /** `UpdateSubscriptionSchedulePhasesEndDate`: an untagged enum, a timestamp or `now`. */
  type UpdateSubscriptionSchedulePhasesEndDate(==)

  /** `UpdateSubscriptionSchedulePhasesInvoiceSettings`: a nested parameter struct; its fields are not part of this model. */
  type UpdateSubscriptionSchedulePhasesInvoiceSettings(==)

  /** `UpdateSubscriptionSchedulePhasesItems`: a nested parameter struct; its fields are not part of this model. */
  type UpdateSubscriptionSchedulePhasesItems(==)

  /** `UpdateSubscriptionSchedulePhasesStartDate`: an untagged enum, a timestamp or `now`. */
  type UpdateSubscriptionSchedulePhasesStartDate(==)

  /** `UpdateSubscriptionSchedulePhasesTrialEnd`: an untagged enum, a timestamp or `now`. */
  type UpdateSubscriptionSchedulePhasesTrialEnd(==)

  /**
   * `*AutomaticTaxLiabilityType`: which account is liable for the tax.
   */
  datatype LiabilityType = Account | Self_

  /** The wire names of the variants. */
  const LiabilityTypeNames: set<string> := {"account", "self"}

  /** `as_str`: the wire name of a variant. */
  function LiabilityTypeAsStr(e: LiabilityType): (r: string)
    ensures r in LiabilityTypeNames
  {
    match e
    case Account => "account"
    case Self_ => "self"
  }

  /** `from_str`: a variant for exactly the listed names, inverting `as_str`; `StripeParseError` for any other string. */
  function LiabilityTypeFromStr(s: string): (r: Result<LiabilityType, StripeParseError>)
    ensures r.Ok? <==> s in LiabilityTypeNames
    ensures r.Ok? ==> LiabilityTypeAsStr(r.value) == s
  {
    match s
    case "account" => Ok(LiabilityType.Account)
    case "self" => Ok(LiabilityType.Self_)
    case _ => Err(StripeParseError)
  }

  /** Parsing the wire name of any variant gives that variant back. */
  lemma LiabilityTypeRoundTrip(e: LiabilityType)
    ensures LiabilityTypeFromStr(LiabilityTypeAsStr(e)) == Ok(e)
  {
  }

  /**
   * `*BillingCycleAnchor`: whether a phase resets the billing cycle anchor.
   */
  datatype BillingCycleAnchor = Automatic | PhaseStart

  /** The wire names of the variants. */
  const BillingCycleAnchorNames: set<string> := {"automatic", "phase_start"}

  /** `as_str`: the wire name of a variant. */
  function BillingCycleAnchorAsStr(e: BillingCycleAnchor): (r: string)
    ensures r in BillingCycleAnchorNames
  {
    match e
    case Automatic => "automatic"
    case PhaseStart => "phase_start"
  }

  /** `from_str`: a variant for exactly the listed names, inverting `as_str`; `StripeParseError` for any other string. */
  function BillingCycleAnchorFromStr(s: string): (r: Result<BillingCycleAnchor, StripeParseError>)
    ensures r.Ok? <==> s in BillingCycleAnchorNames
    ensures r.Ok? ==> BillingCycleAnchorAsStr(r.value) == s
  {
    match s
    case "automatic" => Ok(BillingCycleAnchor.Automatic)
    case "phase_start" => Ok(BillingCycleAnchor.PhaseStart)
    case _ => Err(StripeParseError)
  }

  /** Parsing the wire name of any variant gives that variant back. */
  lemma BillingCycleAnchorRoundTrip(e: BillingCycleAnchor)
    ensures BillingCycleAnchorFromStr(BillingCycleAnchorAsStr(e)) == Ok(e)
  {
  }

  /**
   * `*CollectionMethod`: how the invoices of a phase are collected.
   */
  datatype CollectionMethod = ChargeAutomatically | SendInvoice

  /** The wire names of the variants. */
  const CollectionMethodNames: set<string> := {"charge_automatically", "send_invoice"}

  /** `as_str`: the wire name of a variant. */
  function CollectionMethodAsStr(e: CollectionMethod): (r: string)
    ensures r in CollectionMethodNames
  {
    match e
    case ChargeAutomatically => "charge_automatically"
    case SendInvoice => "send_invoice"
  }

  /** `from_str`: a variant for exactly the listed names, inverting `as_str`; `StripeParseError` for any other string. */
  function CollectionMethodFromStr(s: string): (r: Result<CollectionMethod, StripeParseError>)
    ensures r.Ok? <==> s in CollectionMethodNames
    ensures r.Ok? ==> CollectionMethodAsStr(r.value) == s
  {
    match s
    case "charge_automatically" => Ok(CollectionMethod.ChargeAutomatically)
    case "send_invoice" => Ok(CollectionMethod.SendInvoice)
    case _ => Err(StripeParseError)
  }

  /** Parsing the wire name of any variant gives that variant back. */
  lemma CollectionMethodRoundTrip(e: CollectionMethod)
    ensures CollectionMethodFromStr(CollectionMethodAsStr(e)) == Ok(e)
  {
  }

  /**
   * `*InvoiceSettingsIssuerType`: which account issues the invoices.
   */
  datatype IssuerType = Account | Self_

  /** The wire names of the variants. */
  const IssuerTypeNames: set<string> := {"account", "self"}

  /** `as_str`: the wire name of a variant. */
  function IssuerTypeAsStr(e: IssuerType): (r: string)
    ensures r in IssuerTypeNames
  {
    match e
    case Account => "account"
    case Self_ => "self"
  }

  /** `from_str`: a variant for exactly the listed names, inverting `as_str`; `StripeParseError` for any other string. */
  function IssuerTypeFromStr(s: string): (r: Result<IssuerType, StripeParseError>)
    ensures r.Ok? <==> s in IssuerTypeNames
    ensures r.Ok? ==> IssuerTypeAsStr(r.value) == s
  {
    match s
    case "account" => Ok(IssuerType.Account)
    case "self" => Ok(IssuerType.Self_)
    case _ => Err(StripeParseError)
  }

  /** Parsing the wire name of any variant gives that variant back. */
  lemma IssuerTypeRoundTrip(e: IssuerType)
    ensures IssuerTypeFromStr(IssuerTypeAsStr(e)) == Ok(e)
  {
  }

  /**
   * `*PriceDataTaxBehavior`: whether a price includes tax.
   */
  datatype TaxBehavior = Exclusive | Inclusive | Unspecified

  /** The wire names of the variants. */
  const TaxBehaviorNames: set<string> := {"exclusive", "inclusive", "unspecified"}

  /** `as_str`: the wire name of a variant. */
  function TaxBehaviorAsStr(e: TaxBehavior): (r: string)
    ensures r in TaxBehaviorNames
  {
    match e
    case Exclusive => "exclusive"
    case Inclusive => "inclusive"
    case Unspecified => "unspecified"
  }

  /** `from_str`: a variant for exactly the listed names, inverting `as_str`; `StripeParseError` for any other string. */
  function TaxBehaviorFromStr(s: string): (r: Result<TaxBehavior, StripeParseError>)
    ensures r.Ok? <==> s in TaxBehaviorNames
    ensures r.Ok? ==> TaxBehaviorAsStr(r.value) == s
  {
    match s
    case "exclusive" => Ok(TaxBehavior.Exclusive)
    case "inclusive" => Ok(TaxBehavior.Inclusive)
    case "unspecified" => Ok(TaxBehavior.Unspecified)
    case _ => Err(StripeParseError)
  }

  /** Parsing the wire name of any variant gives that variant back. */
  lemma TaxBehaviorRoundTrip(e: TaxBehavior)
    ensures TaxBehaviorFromStr(TaxBehaviorAsStr(e)) == Ok(e)
  {
  }

  /**
   * `*ItemsPriceDataRecurringInterval`: the billing period of a recurring price.
   */
  datatype RecurringInterval = Day | Month | Week | Year

  /** The wire names of the variants. */
  const RecurringIntervalNames: set<string> := {"day", "month", "week", "year"}

  /** `as_str`: the wire name of a variant. */
  function RecurringIntervalAsStr(e: RecurringInterval): (r: string)
    ensures r in RecurringIntervalNames
  {
    match e
    case Day => "day"
    case Month => "month"
    case Week => "week"
    case Year => "year"
  }

  /** `from_str`: a variant for exactly the listed names, inverting `as_str`; `StripeParseError` for any other string. */
  function RecurringIntervalFromStr(s: string): (r: Result<RecurringInterval, StripeParseError>)
    ensures r.Ok? <==> s in RecurringIntervalNames
    ensures r.Ok? ==> RecurringIntervalAsStr(r.value) == s
  {
    match s
    case "day" => Ok(RecurringInterval.Day)
    case "month" => Ok(RecurringInterval.Month)
    case "week" => Ok(RecurringInterval.Week)
    case "year" => Ok(RecurringInterval.Year)
    case _ => Err(StripeParseError)
  }

  /** Parsing the wire name of any variant gives that variant back. */
  lemma RecurringIntervalRoundTrip(e: RecurringInterval)
    ensures RecurringIntervalFromStr(RecurringIntervalAsStr(e)) == Ok(e)
  {
  }

  /**
   * `*PhasesProrationBehavior` and `UpdateSubscriptionScheduleProrationBehavior`:
   * how a phase change prorates.
   */
  datatype ProrationBehavior = AlwaysInvoice | CreateProrations | None

  /** The wire names of the variants. */
  const ProrationBehaviorNames: set<string> := {"always_invoice", "create_prorations", "none"}

  /** `as_str`: the wire name of a variant. */
  function ProrationBehaviorAsStr(e: ProrationBehavior): (r: string)
    ensures r in ProrationBehaviorNames
  {
    match e
    case AlwaysInvoice => "always_invoice"
    case CreateProrations => "create_prorations"
    case None => "none"
  }

  /** `from_str`: a variant for exactly the listed names, inverting `as_str`; `StripeParseError` for any other string. */
  function ProrationBehaviorFromStr(s: string): (r: Result<ProrationBehavior, StripeParseError>)
    ensures r.Ok? <==> s in ProrationBehaviorNames
    ensures r.Ok? ==> ProrationBehaviorAsStr(r.value) == s
  {
    match s
    case "always_invoice" => Ok(ProrationBehavior.AlwaysInvoice)
    case "create_prorations" => Ok(ProrationBehavior.CreateProrations)
    case "none" => Ok(ProrationBehavior.None)
    case _ => Err(StripeParseError)
  }

  /** Parsing the wire name of any variant gives that variant back. */
  lemma ProrationBehaviorRoundTrip(e: ProrationBehavior)
    ensures ProrationBehaviorFromStr(ProrationBehaviorAsStr(e)) == Ok(e)
  {
  }

  /**
   * `CreateSubscriptionSchedulePhases`: one phase of a new schedule; its fields are public.
   */
  datatype CreateSubscriptionSchedulePhases = CreateSubscriptionSchedulePhases(
    addInvoiceItems: Option<seq<CreateSubscriptionSchedulePhasesAddInvoiceItems>>,
    applicationFeePercent: Option<F64>,
    automaticTax: Option<CreateSubscriptionSchedulePhasesAutomaticTax>,
    billingCycleAnchor: Option<BillingCycleAnchor>,
    billingThresholds: Option<BillingThresholdsParam>,
    collectionMethod: Option<CollectionMethod>,
    coupon: Option<string>,
    currency: Option<Currency>,
    defaultPaymentMethod: Option<string>,
    defaultTaxRates: Option<seq<string>>,
    description: Option<string>,
    discounts: Option<seq<DiscountsDataParam>>,
    endDate: Option<Timestamp>,
    invoiceSettings: Option<CreateSubscriptionSchedulePhasesInvoiceSettings>,
    items: seq<CreateSubscriptionSchedulePhasesItems>,
    iterations: Option<I64>,
    metadata: Option<map<string, string>>,
    onBehalfOf: Option<string>,
    prorationBehavior: Option<ProrationBehavior>,
    transferData: Option<TransferDataSpecs>,
    trial: Option<bool>,
    trialEnd: Option<Timestamp>
  )
  {
    /** Whether the field with wire name `name` is serialised: a required field always, an optional one when it is set. */
    predicate Sends(name: string)
    {
      match name
      case "add_invoice_items" => addInvoiceItems.Some?
      case "application_fee_percent" => applicationFeePercent.Some?
      case "automatic_tax" => automaticTax.Some?
      case "billing_cycle_anchor" => billingCycleAnchor.Some?
      case "billing_thresholds" => billingThresholds.Some?
      case "collection_method" => collectionMethod.Some?
      case "coupon" => coupon.Some?
      case "currency" => currency.Some?
      case "default_payment_method" => defaultPaymentMethod.Some?
      case "default_tax_rates" => defaultTaxRates.Some?
      case "description" => description.Some?
      case "discounts" => discounts.Some?
      case "end_date" => endDate.Some?
      case "invoice_settings" => invoiceSettings.Some?
      case "items" => true
      case "iterations" => iterations.Some?
      case "metadata" => metadata.Some?
      case "on_behalf_of" => onBehalfOf.Some?
      case "proration_behavior" => prorationBehavior.Some?
      case "transfer_data" => transferData.Some?
      case "trial" => trial.Some?
      case "trial_end" => trialEnd.Some?
      case _ => false
    }

    /** The names of the fields that are serialised. */
    function Serialized(): set<string>
    {
      set n | n in CreateSubscriptionSchedulePhasesFields && Sends(n)
    }

    /** `CreateSubscriptionSchedulePhases::new`: the required field as given, every optional field unset. */
    static function New(items: seq<CreateSubscriptionSchedulePhasesItems>): (r: CreateSubscriptionSchedulePhases)
      ensures r.items == items
      ensures r.Serialized() == {"items"}
    {
      CreateSubscriptionSchedulePhases(Option.None, Option.None, Option.None, Option.None, Option.None, Option.None, Option.None, Option.None, Option.None, Option.None, Option.None, Option.None, Option.None, Option.None, items, Option.None, Option.None, Option.None, Option.None, Option.None, Option.None, Option.None)
    }
  }

  /** The wire names of the fields of `CreateSubscriptionSchedulePhases`. */
  const CreateSubscriptionSchedulePhasesFields: set<string> := {"add_invoice_items", "application_fee_percent", "automatic_tax", "billing_cycle_anchor", "billing_thresholds", "collection_method", "coupon", "currency", "default_payment_method", "default_tax_rates", "description", "discounts", "end_date", "invoice_settings", "items", "iterations", "metadata", "on_behalf_of", "proration_behavior", "transfer_data", "trial", "trial_end"}

  /**
   * `UpdateSubscriptionSchedulePhases`: one phase of an updated schedule; its fields are public.
   */
  datatype UpdateSubscriptionSchedulePhases = UpdateSubscriptionSchedulePhases(
    addInvoiceItems: Option<seq<UpdateSubscriptionSchedulePhasesAddInvoiceItems>>,
    applicationFeePercent: Option<F64>,
    automaticTax: Option<UpdateSubscriptionSchedulePhasesAutomaticTax>,
    billingCycleAnchor: Option<BillingCycleAnchor>,
    billingThresholds: Option<BillingThresholdsParam>,
    collectionMethod: Option<CollectionMethod>,
    coupon: Option<string>,
    currency: Option<Currency>,
    defaultPaymentMethod: Option<string>,
    defaultTaxRates: Option<seq<string>>,
    description: Option<string>,
    discounts: Option<seq<DiscountsDataParam>>,
    endDate: Option<UpdateSubscriptionSchedulePhasesEndDate>,
    invoiceSettings: Option<UpdateSubscriptionSchedulePhasesInvoiceSettings>,
    items: seq<UpdateSubscriptionSchedulePhasesItems>,
    iterations: Option<I64>,
    metadata: Option<map<string, string>>,
    onBehalfOf: Option<string>,
    prorationBehavior: Option<ProrationBehavior>,
    startDate: Option<UpdateSubscriptionSchedulePhasesStartDate>,
    transferData: Option<TransferDataSpecs>,
    trial: Option<bool>,
    trialEnd: Option<UpdateSubscriptionSchedulePhasesTrialEnd>
  )
  {
    /** Whether the field with wire name `name` is serialised: a required field always, an optional one when it is set. */
    predicate Sends(name: string)
    {
      match name
      case "add_invoice_items" => addInvoiceItems.Some?
      case "application_fee_percent" => applicationFeePercent.Some?
      case "automatic_tax" => automaticTax.Some?
      case "billing_cycle_anchor" => billingCycleAnchor.Some?
      case "billing_thresholds" => billingThresholds.Some?
      case "collection_method" => collectionMethod.Some?
      case "coupon" => coupon.Some?
      case "currency" => currency.Some?
      case "default_payment_method" => defaultPaymentMethod.Some?
      case "default_tax_rates" => defaultTaxRates.Some?
      case "description" => description.Some?
      case "discounts" => discounts.Some?
      case "end_date" => endDate.Some?
      case "invoice_settings" => invoiceSettings.Some?
      case "items" => true
      case "iterations" => iterations.Some?
      case "metadata" => metadata.Some?
      case "on_behalf_of" => onBehalfOf.Some?
      case "proration_behavior" => prorationBehavior.Some?
      case "start_date" => startDate.Some?
      case "transfer_data" => transferData.Some?
      case "trial" => trial.Some?
      case "trial_end" => trialEnd.Some?
      case _ => false
    }

    /** The names of the fields that are serialised. */
    function Serialized(): set<string>
    {
      set n | n in UpdateSubscriptionSchedulePhasesFields && Sends(n)
    }

    /** `UpdateSubscriptionSchedulePhases::new`: the required field as given, every optional field unset. */
    static function New(items: seq<UpdateSubscriptionSchedulePhasesItems>): (r: UpdateSubscriptionSchedulePhases)
      ensures r.items == items
      ensures r.Serialized() == {"items"}
    {
      UpdateSubscriptionSchedulePhases(Option.None, Option.None, Option.None, Option.None, Option.None, Option.None, Option.None, Option.None, Option.None, Option.None, Option.None, Option.None, Option.None, Option.None, items, Option.None, Option.None, Option.None, Option.None, Option.None, Option.None, Option.None, Option.None)
    }
  }

  /** The wire names of the fields of `UpdateSubscriptionSchedulePhases`. */
  const UpdateSubscriptionSchedulePhasesFields: set<string> := {"add_invoice_items", "application_fee_percent", "automatic_tax", "billing_cycle_anchor", "billing_thresholds", "collection_method", "coupon", "currency", "default_payment_method", "default_tax_rates", "description", "discounts", "end_date", "invoice_settings", "items", "iterations", "metadata", "on_behalf_of", "proration_behavior", "start_date", "transfer_data", "trial", "trial_end"}

  /**
   * `ListSubscriptionScheduleBuilder`: the parameters of `ListSubscriptionSchedule`.
   */
  datatype ListSubscriptionScheduleBuilder = ListSubscriptionScheduleBuilder(
    canceledAt: Option<RangeQueryTs>,
    completedAt: Option<RangeQueryTs>,
    created: Option<RangeQueryTs>,
    customer: Option<string>,
    endingBefore: Option<string>,
    expand: Option<seq<string>>,
    limit: Option<I64>,
    releasedAt: Option<RangeQueryTs>,
    scheduled: Option<bool>,
    startingAfter: Option<string>
  )
  {
    /** Whether the field with wire name `name` is serialised: when it is set. */
    predicate Sends(name: string)
    {
      match name
      case "canceled_at" => canceledAt.Some?
      case "completed_at" => completedAt.Some?
      case "created" => created.Some?
      case "customer" => customer.Some?
      case "ending_before" => endingBefore.Some?
      case "expand" => expand.Some?
      case "limit" => limit.Some?
      case "released_at" => releasedAt.Some?
      case "scheduled" => scheduled.Some?
      case "starting_after" => startingAfter.Some?
      case _ => false
    }

    /** The names of the fields that are serialised. */
    function Serialized(): set<string>
    {
      set n | n in ListSubscriptionScheduleBuilderFields && Sends(n)
    }

    /** `ListSubscriptionScheduleBuilder::new`: every field unset. */
    static function New(): (r: ListSubscriptionScheduleBuilder)
      ensures r.Serialized() == {}
    {
      ListSubscriptionScheduleBuilder(Option.None, Option.None, Option.None, Option.None, Option.None, Option.None, Option.None, Option.None, Option.None, Option.None)
    }
  }

  /** The wire names of the fields of `ListSubscriptionScheduleBuilder`. */
  const ListSubscriptionScheduleBuilderFields: set<string> := {"canceled_at", "completed_at", "created", "customer", "ending_before", "expand", "limit", "released_at", "scheduled", "starting_after"}

  /**
   * `ListSubscriptionSchedule`: list the subscription schedules.
   */
  datatype ListSubscriptionSchedule = ListSubscriptionSchedule(inner: ListSubscriptionScheduleBuilder)
  {
    /** `ListSubscriptionSchedule::new`: every parameter unset. */
    static function New(): (r: ListSubscriptionSchedule)
      ensures r.inner.Serialized() == {}
    {
      ListSubscriptionSchedule(ListSubscriptionScheduleBuilder.New())
    }

    /** `canceled_at`: sets `canceled_at` and nothing else. */
    function CanceledAt(canceledAt: RangeQueryTs): (r: ListSubscriptionSchedule)
      ensures r.inner.canceledAt == Some(canceledAt)
      ensures r.(inner := r.inner.(canceledAt := inner.canceledAt)) == this
      ensures r.inner.Serialized() == inner.Serialized() + {"canceled_at"}
    {
      this.(inner := inner.(canceledAt := Some(canceledAt)))
    }

    /** `completed_at`: sets `completed_at` and nothing else. */
    function CompletedAt(completedAt: RangeQueryTs): (r: ListSubscriptionSchedule)
      ensures r.inner.completedAt == Some(completedAt)
      ensures r.(inner := r.inner.(completedAt := inner.completedAt)) == this
      ensures r.inner.Serialized() == inner.Serialized() + {"completed_at"}
    {
      this.(inner := inner.(completedAt := Some(completedAt)))
    }

    /** `created`: sets `created` and nothing else. */
    function Created(created: RangeQueryTs): (r: ListSubscriptionSchedule)
      ensures r.inner.created == Some(created)
      ensures r.(inner := r.inner.(created := inner.created)) == this
      ensures r.inner.Serialized() == inner.Serialized() + {"created"}
    {
      this.(inner := inner.(created := Some(created)))
    }

    /** `customer`: sets `customer` and nothing else. */
    function Customer(customer: string): (r: ListSubscriptionSchedule)
      ensures r.inner.customer == Some(customer)
      ensures r.(inner := r.inner.(customer := inner.customer)) == this
      ensures r.inner.Serialized() == inner.Serialized() + {"customer"}
    {
      this.(inner := inner.(customer := Some(customer)))
    }

    /** `ending_before`: sets `ending_before` and nothing else. */
    function EndingBefore(endingBefore: string): (r: ListSubscriptionSchedule)
      ensures r.inner.endingBefore == Some(endingBefore)
      ensures r.(inner := r.inner.(endingBefore := inner.endingBefore)) == this
      ensures r.inner.Serialized() == inner.Serialized() + {"ending_before"}
    {
      this.(inner := inner.(endingBefore := Some(endingBefore)))
    }

    /** `expand`: sets `expand` and nothing else. */
    function Expand(expand: seq<string>): (r: ListSubscriptionSchedule)
      ensures r.inner.expand == Some(expand)
      ensures r.(inner := r.inner.(expand := inner.expand)) == this
      ensures r.inner.Serialized() == inner.Serialized() + {"expand"}
    {
      this.(inner := inner.(expand := Some(expand)))
    }

    /** `limit`: sets `limit` and nothing else. */
    function Limit(limit: I64): (r: ListSubscriptionSchedule)
      ensures r.inner.limit == Some(limit)
      ensures r.(inner := r.inner.(limit := inner.limit)) == this
      ensures r.inner.Serialized() == inner.Serialized() + {"limit"}
    {
      this.(inner := inner.(limit := Some(limit)))
    }

    /** `released_at`: sets `released_at` and nothing else. */
    function ReleasedAt(releasedAt: RangeQueryTs): (r: ListSubscriptionSchedule)
      ensures r.inner.releasedAt == Some(releasedAt)
      ensures r.(inner := r.inner.(releasedAt := inner.releasedAt)) == this
      ensures r.inner.Serialized() == inner.Serialized() + {"released_at"}
    {
      this.(inner := inner.(releasedAt := Some(releasedAt)))
    }

    /** `scheduled`: sets `scheduled` and nothing else. */
    function Scheduled(scheduled: bool): (r: ListSubscriptionSchedule)
      ensures r.inner.scheduled == Some(scheduled)
      ensures r.(inner := r.inner.(scheduled := inner.scheduled)) == this
      ensures r.inner.Serialized() == inner.Serialized() + {"scheduled"}
    {
      this.(inner := inner.(scheduled := Some(scheduled)))
    }

    /** `starting_after`: sets `starting_after` and nothing else. */
    function StartingAfter(startingAfter: string): (r: ListSubscriptionSchedule)
      ensures r.inner.startingAfter == Some(startingAfter)
      ensures r.(inner := r.inner.(startingAfter := inner.startingAfter)) == this
      ensures r.inner.Serialized() == inner.Serialized() + {"starting_after"}
    {
      this.(inner := inner.(startingAfter := Some(startingAfter)))
    }

    /** `build`: GET `/subscription_schedules`, with the builder as the query string. */
    function Build(): (r: RequestBuilder<ListSubscriptionScheduleBuilder>)
      ensures r.verb == Get && r.params == Query(inner)
      ensures Route(r.verb, r.path) == Some(ListSubscriptionScheduleEndpoint)
    {
      SplitJoin(["", "subscription_schedules"]);
      RequestBuilder(Get, Join(["", "subscription_schedules"]), Query(inner))
    }
  }

  /**
   * `RetrieveSubscriptionScheduleBuilder`: the parameters of `RetrieveSubscriptionSchedule`.
   */
  datatype RetrieveSubscriptionScheduleBuilder = RetrieveSubscriptionScheduleBuilder(
    expand: Option<seq<string>>
  )
  {
    /** Whether the field with wire name `name` is serialised: when it is set. */
    predicate Sends(name: string)
    {
      match name
      case "expand" => expand.Some?
      case _ => false
    }

    /** The names of the fields that are serialised. */
    function Serialized(): set<string>
    {
      set n | n in RetrieveSubscriptionScheduleBuilderFields && Sends(n)
    }

    /** `RetrieveSubscriptionScheduleBuilder::new`: every field unset. */
    static function New(): (r: RetrieveSubscriptionScheduleBuilder)
      ensures r.Serialized() == {}
    {
      RetrieveSubscriptionScheduleBuilder(Option.None)
    }
  }

  /** The wire names of the fields of `RetrieveSubscriptionScheduleBuilder`. */
  const RetrieveSubscriptionScheduleBuilderFields: set<string> := {"expand"}

  /**
   * `RetrieveSubscriptionSchedule`: retrieve one schedule.
   */
  datatype RetrieveSubscriptionSchedule = RetrieveSubscriptionSchedule(inner: RetrieveSubscriptionScheduleBuilder, schedule: string)
  {
    /** `RetrieveSubscriptionSchedule::new`: `schedule` as given, every optional parameter unset. */
    static function New(schedule: string): (r: RetrieveSubscriptionSchedule)
      ensures r.schedule == schedule
      ensures r.inner.Serialized() == {}
    {
      RetrieveSubscriptionSchedule(RetrieveSubscriptionScheduleBuilder.New(), schedule)
    }

    /** `expand`: sets `expand` and nothing else. */
    function Expand(expand: seq<string>): (r: RetrieveSubscriptionSchedule)
      ensures r.inner.expand == Some(expand)
      ensures r.(inner := r.inner.(expand := inner.expand)) == this
      ensures r.inner.Serialized() == inner.Serialized() + {"expand"}
    {
      this.(inner := inner.(expand := Some(expand)))
    }

    /** `build`: GET `/subscription_schedules/{schedule}`, with the builder as the query string. */
    function Build(): (r: RequestBuilder<RetrieveSubscriptionScheduleBuilder>)
      ensures r.verb == Get && r.params == Query(inner)
      ensures IsSegment(schedule) ==> Route(r.verb, r.path) == Some(RetrieveSubscriptionScheduleEndpoint(schedule))
    {
      SplitJoinAt(["", "subscription_schedules", schedule], 2);
      RequestBuilder(Get, Join(["", "subscription_schedules", schedule]), Query(inner))
    }
  }

  /**
   * `CreateSubscriptionScheduleBuilder`: the parameters of `CreateSubscriptionSchedule`.
   */
  datatype CreateSubscriptionScheduleBuilder = CreateSubscriptionScheduleBuilder(
    customer: Option<string>,
    defaultSettings: Option<CreateSubscriptionScheduleDefaultSettings>,
    endBehavior: Option<SubscriptionScheduleEndBehavior>,
    expand: Option<seq<string>>,
    fromSubscription: Option<string>,
    metadata: Option<map<string, string>>,
    phases: Option<seq<CreateSubscriptionSchedulePhases>>,
    startDate: Option<CreateSubscriptionScheduleStartDate>
  )
  {
    /** Whether the field with wire name `name` is serialised: when it is set. */
    predicate Sends(name: string)
    {
      match name
      case "customer" => customer.Some?
      case "default_settings" => defaultSettings.Some?
      case "end_behavior" => endBehavior.Some?
      case "expand" => expand.Some?
      case "from_subscription" => fromSubscription.Some?
      case "metadata" => metadata.Some?
      case "phases" => phases.Some?
      case "start_date" => startDate.Some?
      case _ => false
    }

    /** The names of the fields that are serialised. */
    function Serialized(): set<string>
    {
      set n | n in CreateSubscriptionScheduleBuilderFields && Sends(n)
    }

    /** `CreateSubscriptionScheduleBuilder::new`: every field unset. */
    static function New(): (r: CreateSubscriptionScheduleBuilder)
      ensures r.Serialized() == {}
    {
      CreateSubscriptionScheduleBuilder(Option.None, Option.None, Option.None, Option.None, Option.None, Option.None, Option.None, Option.None)
    }
  }

  /** The wire names of the fields of `CreateSubscriptionScheduleBuilder`. */
  const CreateSubscriptionScheduleBuilderFields: set<string> := {"customer", "default_settings", "end_behavior", "expand", "from_subscription", "metadata", "phases", "start_date"}

  /**
   * `CreateSubscriptionSchedule`: create a schedule.
   */
  datatype CreateSubscriptionSchedule = CreateSubscriptionSchedule(inner: CreateSubscriptionScheduleBuilder)
  {
    /** `CreateSubscriptionSchedule::new`: every parameter unset. */
    static function New(): (r: CreateSubscriptionSchedule)
      ensures r.inner.Serialized() == {}
    {
      CreateSubscriptionSchedule(CreateSubscriptionScheduleBuilder.New())
    }

    /** `customer`: sets `customer` and nothing else. */
    function Customer(customer: string): (r: CreateSubscriptionSchedule)
      ensures r.inner.customer == Some(customer)
      ensures r.(inner := r.inner.(customer := inner.customer)) == this
      ensures r.inner.Serialized() == inner.Serialized() + {"customer"}
    {
      this.(inner := inner.(customer := Some(customer)))
    }

    /** `default_settings`: sets `default_settings` and nothing else. */
    function DefaultSettings(defaultSettings: CreateSubscriptionScheduleDefaultSettings): (r: CreateSubscriptionSchedule)
      ensures r.inner.defaultSettings == Some(defaultSettings)
      ensures r.(inner := r.inner.(defaultSettings := inner.defaultSettings)) == this
      ensures r.inner.Serialized() == inner.Serialized() + {"default_settings"}
    {
      this.(inner := inner.(defaultSettings := Some(defaultSettings)))
    }

    /** `end_behavior`: sets `end_behavior` and nothing else. */
    function EndBehavior(endBehavior: SubscriptionScheduleEndBehavior): (r: CreateSubscriptionSchedule)
      ensures r.inner.endBehavior == Some(endBehavior)
      ensures r.(inner := r.inner.(endBehavior := inner.endBehavior)) == this
      ensures r.inner.Serialized() == inner.Serialized() + {"end_behavior"}
    {
      this.(inner := inner.(endBehavior := Some(endBehavior)))
    }

    /** `expand`: sets `expand` and nothing else. */
    function Expand(expand: seq<string>): (r: CreateSubscriptionSchedule)
      ensures r.inner.expand == Some(expand)
      ensures r.(inner := r.inner.(expand := inner.expand)) == this
      ensures r.inner.Serialized() == inner.Serialized() + {"expand"}
    {
      this.(inner := inner.(expand := Some(expand)))
    }

    /** `from_subscription`: sets `from_subscription` and nothing else. */
    function FromSubscription(fromSubscription: string): (r: CreateSubscriptionSchedule)
      ensures r.inner.fromSubscription == Some(fromSubscription)
      ensures r.(inner := r.inner.(fromSubscription := inner.fromSubscription)) == this
      ensures r.inner.Serialized() == inner.Serialized() + {"from_subscription"}
    {
      this.(inner := inner.(fromSubscription := Some(fromSubscription)))
    }

    /** `metadata`: sets `metadata` and nothing else. */
    function Metadata(metadata: map<string, string>): (r: CreateSubscriptionSchedule)
      ensures r.inner.metadata == Some(metadata)
      ensures r.(inner := r.inner.(metadata := inner.metadata)) == this
      ensures r.inner.Serialized() == inner.Serialized() + {"metadata"}
    {
      this.(inner := inner.(metadata := Some(metadata)))
    }

    /** `phases`: sets `phases` and nothing else. */
    function Phases(phases: seq<CreateSubscriptionSchedulePhases>): (r: CreateSubscriptionSchedule)
      ensures r.inner.phases == Some(phases)
      ensures r.(inner := r.inner.(phases := inner.phases)) == this
      ensures r.inner.Serialized() == inner.Serialized() + {"phases"}
    {
      this.(inner := inner.(phases := Some(phases)))
    }

    /** `start_date`: sets `start_date` and nothing else. */
    function StartDate(startDate: CreateSubscriptionScheduleStartDate): (r: CreateSubscriptionSchedule)
      ensures r.inner.startDate == Some(startDate)
      ensures r.(inner := r.inner.(startDate := inner.startDate)) == this
      ensures r.inner.Serialized() == inner.Serialized() + {"start_date"}
    {
      this.(inner := inner.(startDate := Some(startDate)))
    }

    /** `build`: POST `/subscription_schedules`, with the builder as a form body. */
    function Build(): (r: RequestBuilder<CreateSubscriptionScheduleBuilder>)
      ensures r.verb == Post && r.params == Form(inner)
      ensures Route(r.verb, r.path) == Some(CreateSubscriptionScheduleEndpoint)
    {
      SplitJoin(["", "subscription_schedules"]);
      RequestBuilder(Post, Join(["", "subscription_schedules"]), Form(inner))
    }
  }

  /**
   * `UpdateSubscriptionScheduleBuilder`: the parameters of `UpdateSubscriptionSchedule`.
   */
  datatype UpdateSubscriptionScheduleBuilder = UpdateSubscriptionScheduleBuilder(
    defaultSettings: Option<UpdateSubscriptionScheduleDefaultSettings>,
    endBehavior: Option<SubscriptionScheduleEndBehavior>,
    expand: Option<seq<string>>,
    metadata: Option<map<string, string>>,
    phases: Option<seq<UpdateSubscriptionSchedulePhases>>,
    prorationBehavior: Option<ProrationBehavior>
  )
  {
    /** Whether the field with wire name `name` is serialised: when it is set. */
    predicate Sends(name: string)
    {
      match name
      case "default_settings" => defaultSettings.Some?
      case "end_behavior" => endBehavior.Some?
      case "expand" => expand.Some?
      case "metadata" => metadata.Some?
      case "phases" => phases.Some?
      case "proration_behavior" => prorationBehavior.Some?
      case _ => false
    }

    /** The names of the fields that are serialised. */
    function Serialized(): set<string>
    {
      set n | n in UpdateSubscriptionScheduleBuilderFields && Sends(n)
    }

    /** `UpdateSubscriptionScheduleBuilder::new`: every field unset. */
    static function New(): (r: UpdateSubscriptionScheduleBuilder)
      ensures r.Serialized() == {}
    {
      UpdateSubscriptionScheduleBuilder(Option.None, Option.None, Option.None, Option.None, Option.None, Option.None)
    }
  }

  /** The wire names of the fields of `UpdateSubscriptionScheduleBuilder`. */
  const UpdateSubscriptionScheduleBuilderFields: set<string> := {"default_settings", "end_behavior", "expand", "metadata", "phases", "proration_behavior"}

  /**
   * `UpdateSubscriptionSchedule`: update a schedule.
   */
  datatype UpdateSubscriptionSchedule = UpdateSubscriptionSchedule(inner: UpdateSubscriptionScheduleBuilder, schedule: string)
  {
    /** `UpdateSubscriptionSchedule::new`: `schedule` as given, every optional parameter unset. */
    static function New(schedule: string): (r: UpdateSubscriptionSchedule)
      ensures r.schedule == schedule
      ensures r.inner.Serialized() == {}
    {
      UpdateSubscriptionSchedule(UpdateSubscriptionScheduleBuilder.New(), schedule)
    }

    /** `default_settings`: sets `default_settings` and nothing else. */
    function DefaultSettings(defaultSettings: UpdateSubscriptionScheduleDefaultSettings): (r: UpdateSubscriptionSchedule)
      ensures r.inner.defaultSettings == Some(defaultSettings)
      ensures r.(inner := r.inner.(defaultSettings := inner.defaultSettings)) == this
      ensures r.inner.Serialized() == inner.Serialized() + {"default_settings"}
    {
      this.(inner := inner.(defaultSettings := Some(defaultSettings)))
    }

    /** `end_behavior`: sets `end_behavior` and nothing else. */
    function EndBehavior(endBehavior: SubscriptionScheduleEndBehavior): (r: UpdateSubscriptionSchedule)
      ensures r.inner.endBehavior == Some(endBehavior)
      ensures r.(inner := r.inner.(endBehavior := inner.endBehavior)) == this
      ensures r.inner.Serialized() == inner.Serialized() + {"end_behavior"}
    {
      this.(inner := inner.(endBehavior := Some(endBehavior)))
    }

    /** `expand`: sets `expand` and nothing else. */
    function Expand(expand: seq<string>): (r: UpdateSubscriptionSchedule)
      ensures r.inner.expand == Some(expand)
      ensures r.(inner := r.inner.(expand := inner.expand)) == this
      ensures r.inner.Serialized() == inner.Serialized() + {"expand"}
    {
      this.(inner := inner.(expand := Some(expand)))
    }

    /** `metadata`: sets `metadata` and nothing else. */
    function Metadata(metadata: map<string, string>): (r: UpdateSubscriptionSchedule)
      ensures r.inner.metadata == Some(metadata)
      ensures r.(inner := r.inner.(metadata := inner.metadata)) == this
      ensures r.inner.Serialized() == inner.Serialized() + {"metadata"}
    {
      this.(inner := inner.(metadata := Some(metadata)))
    }

    /** `phases`: sets `phases` and nothing else. */
    function Phases(phases: seq<UpdateSubscriptionSchedulePhases>): (r: UpdateSubscriptionSchedule)
      ensures r.inner.phases == Some(phases)
      ensures r.(inner := r.inner.(phases := inner.phases)) == this
      ensures r.inner.Serialized() == inner.Serialized() + {"phases"}
    {
      this.(inner := inner.(phases := Some(phases)))
    }

    /** `proration_behavior`: sets `proration_behavior` and nothing else. */
    function ProrationBehavior(prorationBehavior: ProrationBehavior): (r: UpdateSubscriptionSchedule)
      ensures r.inner.prorationBehavior == Some(prorationBehavior)
      ensures r.(inner := r.inner.(prorationBehavior := inner.prorationBehavior)) == this
      ensures r.inner.Serialized() == inner.Serialized() + {"proration_behavior"}
    {
      this.(inner := inner.(prorationBehavior := Some(prorationBehavior)))
    }

    /** `build`: POST `/subscription_schedules/{schedule}`, with the builder as a form body. */
    function Build(): (r: RequestBuilder<UpdateSubscriptionScheduleBuilder>)
      ensures r.verb == Post && r.params == Form(inner)
      ensures IsSegment(schedule) ==> Route(r.verb, r.path) == Some(UpdateSubscriptionScheduleEndpoint(schedule))
    {
      SplitJoinAt(["", "subscription_schedules", schedule], 2);
      RequestBuilder(Post, Join(["", "subscription_schedules", schedule]), Form(inner))
    }
  }

  /**
   * `CancelSubscriptionScheduleBuilder`: the parameters of `CancelSubscriptionSchedule`.
   */
  datatype CancelSubscriptionScheduleBuilder = CancelSubscriptionScheduleBuilder(
    expand: Option<seq<string>>,
    invoiceNow: Option<bool>,
    prorate: Option<bool>
  )
  {
    /** Whether the field with wire name `name` is serialised: when it is set. */
    predicate Sends(name: string)
    {
      match name
      case "expand" => expand.Some?
      case "invoice_now" => invoiceNow.Some?
      case "prorate" => prorate.Some?
      case _ => false
    }

    /** The names of the fields that are serialised. */
    function Serialized(): set<string>
    {
      set n | n in CancelSubscriptionScheduleBuilderFields && Sends(n)
    }

    /** `CancelSubscriptionScheduleBuilder::new`: every field unset. */
    static function New(): (r: CancelSubscriptionScheduleBuilder)
      ensures r.Serialized() == {}
    {
      CancelSubscriptionScheduleBuilder(Option.None, Option.None, Option.None)
    }
  }

  /** The wire names of the fields of `CancelSubscriptionScheduleBuilder`. */
  const CancelSubscriptionScheduleBuilderFields: set<string> := {"expand", "invoice_now", "prorate"}

  /**
   * `CancelSubscriptionSchedule`: cancel a schedule.
   */
  datatype CancelSubscriptionSchedule = CancelSubscriptionSchedule(inner: CancelSubscriptionScheduleBuilder, schedule: string)
  {
    /** `CancelSubscriptionSchedule::new`: `schedule` as given, every optional parameter unset. */
    static function New(schedule: string): (r: CancelSubscriptionSchedule)
      ensures r.schedule == schedule
      ensures r.inner.Serialized() == {}
    {
      CancelSubscriptionSchedule(CancelSubscriptionScheduleBuilder.New(), schedule)
    }

    /** `expand`: sets `expand` and nothing else. */
    function Expand(expand: seq<string>): (r: CancelSubscriptionSchedule)
      ensures r.inner.expand == Some(expand)
      ensures r.(inner := r.inner.(expand := inner.expand)) == this
      ensures r.inner.Serialized() == inner.Serialized() + {"expand"}
    {
      this.(inner := inner.(expand := Some(expand)))
    }

    /** `invoice_now`: sets `invoice_now` and nothing else. */
    function InvoiceNow(invoiceNow: bool): (r: CancelSubscriptionSchedule)
      ensures r.inner.invoiceNow == Some(invoiceNow)
      ensures r.(inner := r.inner.(invoiceNow := inner.invoiceNow)) == this
      ensures r.inner.Serialized() == inner.Serialized() + {"invoice_now"}
    {
      this.(inner := inner.(invoiceNow := Some(invoiceNow)))
    }

    /** `prorate`: sets `prorate` and nothing else. */
    function Prorate(prorate: bool): (r: CancelSubscriptionSchedule)
      ensures r.inner.prorate == Some(prorate)
      ensures r.(inner := r.inner.(prorate := inner.prorate)) == this
      ensures r.inner.Serialized() == inner.Serialized() + {"prorate"}
    {
      this.(inner := inner.(prorate := Some(prorate)))
    }

    /** `build`: POST `/subscription_schedules/{schedule}/cancel`, with the builder as a form body. */
    function Build(): (r: RequestBuilder<CancelSubscriptionScheduleBuilder>)
      ensures r.verb == Post && r.params == Form(inner)
      ensures IsSegment(schedule) ==> Route(r.verb, r.path) == Some(CancelSubscriptionScheduleEndpoint(schedule))
    {
      SplitJoinAt(["", "subscription_schedules", schedule, "cancel"], 2);
      RequestBuilder(Post, Join(["", "subscription_schedules", schedule, "cancel"]), Form(inner))
    }
  }

  /**
   * `ReleaseSubscriptionScheduleBuilder`: the parameters of `ReleaseSubscriptionSchedule`.
   */
  datatype ReleaseSubscriptionScheduleBuilder = ReleaseSubscriptionScheduleBuilder(
    expand: Option<seq<string>>,
    preserveCancelDate: Option<bool>
  )
  {
    /** Whether the field with wire name `name` is serialised: when it is set. */
    predicate Sends(name: string)
    {
      match name
      case "expand" => expand.Some?
      case "preserve_cancel_date" => preserveCancelDate.Some?
      case _ => false
    }

    /** The names of the fields that are serialised. */
    function Serialized(): set<string>
    {
      set n | n in ReleaseSubscriptionScheduleBuilderFields && Sends(n)
    }

    /** `ReleaseSubscriptionScheduleBuilder::new`: every field unset. */
    static function New(): (r: ReleaseSubscriptionScheduleBuilder)
      ensures r.Serialized() == {}
    {
      ReleaseSubscriptionScheduleBuilder(Option.None, Option.None)
    }
  }

  /** The wire names of the fields of `ReleaseSubscriptionScheduleBuilder`. */
  const ReleaseSubscriptionScheduleBuilderFields: set<string> := {"expand", "preserve_cancel_date"}

  /**
   * `ReleaseSubscriptionSchedule`: release a schedule from its subscription.
   */
  datatype ReleaseSubscriptionSchedule = ReleaseSubscriptionSchedule(inner: ReleaseSubscriptionScheduleBuilder, schedule: string)
  {
    /** `ReleaseSubscriptionSchedule::new`: `schedule` as given, every optional parameter unset. */
    static function New(schedule: string): (r: ReleaseSubscriptionSchedule)
      ensures r.schedule == schedule
      ensures r.inner.Serialized() == {}
    {
      ReleaseSubscriptionSchedule(ReleaseSubscriptionScheduleBuilder.New(), schedule)
    }

    /** `expand`: sets `expand` and nothing else. */
    function Expand(expand: seq<string>): (r: ReleaseSubscriptionSchedule)
      ensures r.inner.expand == Some(expand)
      ensures r.(inner := r.inner.(expand := inner.expand)) == this
      ensures r.inner.Serialized() == inner.Serialized() + {"expand"}
    {
      this.(inner := inner.(expand := Some(expand)))
    }

    /** `preserve_cancel_date`: sets `preserve_cancel_date` and nothing else. */
    function PreserveCancelDate(preserveCancelDate: bool): (r: ReleaseSubscriptionSchedule)
      ensures r.inner.preserveCancelDate == Some(preserveCancelDate)
      ensures r.(inner := r.inner.(preserveCancelDate := inner.preserveCancelDate)) == this
      ensures r.inner.Serialized() == inner.Serialized() + {"preserve_cancel_date"}
    {
      this.(inner := inner.(preserveCancelDate := Some(preserveCancelDate)))
    }

    /** `build`: POST `/subscription_schedules/{schedule}/release`, with the builder as a form body. */
    function Build(): (r: RequestBuilder<ReleaseSubscriptionScheduleBuilder>)
      ensures r.verb == Post && r.params == Form(inner)
      ensures IsSegment(schedule) ==> Route(r.verb, r.path) == Some(ReleaseSubscriptionScheduleEndpoint(schedule))
    {
      SplitJoinAt(["", "subscription_schedules", schedule, "release"], 2);
      RequestBuilder(Post, Join(["", "subscription_schedules", schedule, "release"]), Form(inner))
    }
  }

  /** The operations of this file, each with the ids its path carries. */
  datatype Endpoint =
      ListSubscriptionScheduleEndpoint
    | RetrieveSubscriptionScheduleEndpoint(schedule: string)
    | CreateSubscriptionScheduleEndpoint
    | UpdateSubscriptionScheduleEndpoint(schedule: string)
    | CancelSubscriptionScheduleEndpoint(schedule: string)
    | ReleaseSubscriptionScheduleEndpoint(schedule: string)

  /**
   * The operation a method and a path address, read back from the path's
   * segments; `None` for any other request.
   */
  function Route(verb: StripeMethod, path: string): Option<Endpoint>
  {
    var s := Split(path);
    if verb == Get && |s| == 2 && s[0] == "" && s[1] == "subscription_schedules" then Some(ListSubscriptionScheduleEndpoint)
    else if verb == Get && |s| == 3 && s[0] == "" && s[1] == "subscription_schedules" then Some(RetrieveSubscriptionScheduleEndpoint(s[2]))
    else if verb == Post && |s| == 2 && s[0] == "" && s[1] == "subscription_schedules" then Some(CreateSubscriptionScheduleEndpoint)
    else if verb == Post && |s| == 3 && s[0] == "" && s[1] == "subscription_schedules" then Some(UpdateSubscriptionScheduleEndpoint(s[2]))
    else if verb == Post && |s| == 4 && s[0] == "" && s[1] == "subscription_schedules" && s[3] == "cancel" then Some(CancelSubscriptionScheduleEndpoint(s[2]))
    else if verb == Post && |s| == 4 && s[0] == "" && s[1] == "subscription_schedules" && s[3] == "release" then Some(ReleaseSubscriptionScheduleEndpoint(s[2]))
    else Option.None
  }
}
