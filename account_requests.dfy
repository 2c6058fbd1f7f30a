/**
 * The requests on Connect accounts (async-stripe-connect): delete, retrieve,
 * list, create, update and reject an account, and list its capabilities and
 * persons; with the string enums of their parameters.
 *
 * Each `Update*` enum of the source is a textual copy of its `Create*` enum
 * (same variants, same wire names, same fallback); both are the one datatype here.
 */
module AccountRequests {
  import opened Wrappers
  import opened Requests

  /** `stripe_shared::AccountBusinessType`: its variants are not part of this model. */
  type AccountBusinessType(==)

  /** `BusinessProfileSpecs`: a nested parameter struct; its fields are not part of this model. */
  type BusinessProfileSpecs(==)

  /** `CapabilitiesParam`: a nested parameter struct; its fields are not part of this model. */
  type CapabilitiesParam(==)

  /** `CreateAccountCompany`: a nested parameter struct; its fields are not part of this model. */
  type CreateAccountCompany(==)

  /** `CreateAccountController`: a nested parameter struct; its fields are not part of this model. */
  type CreateAccountController(==)

  /** `CreateAccountIndividual`: a nested parameter struct; its fields are not part of this model. */
  type CreateAccountIndividual(==)

  /** `CreateAccountSettings`: a nested parameter struct; its fields are not part of this model. */
  type CreateAccountSettings(==)

  /** `DocumentsSpecs`: a nested parameter struct; its fields are not part of this model. */
  type DocumentsSpecs(==)

  /** `PersonsAccountRelationship`: a nested parameter struct; its fields are not part of this model. */
  type PersonsAccountRelationship(==)

  /** `TosAcceptanceSpecs`: a nested parameter struct; its fields are not part of this model. */
  type TosAcceptanceSpecs(==)

  /** `UpdateAccountCompany`: a nested parameter struct; its fields are not part of this model. */
  type UpdateAccountCompany(==)

  /** `UpdateAccountIndividual`: a nested parameter struct; its fields are not part of this model. */
  type UpdateAccountIndividual(==)

  /** `UpdateAccountSettings`: a nested parameter struct; its fields are not part of this model. */
  type UpdateAccountSettings(==)

  /**
   * `CreateAccountCompanyStructure` and `UpdateAccountCompanyStructure`: the legal
   * structure of a company. An open enum: any name not listed is `Unknown`.
   */
  datatype CompanyStructure = FreeZoneEstablishment | FreeZoneLlc | GovernmentInstrumentality | GovernmentalUnit | IncorporatedNonProfit | IncorporatedPartnership | LimitedLiabilityPartnership | Llc | MultiMemberLlc | PrivateCompany | PrivateCorporation | PrivatePartnership | PublicCompany | PublicCorporation | PublicPartnership | RegisteredCharity | SingleMemberLlc | SoleEstablishment | SoleProprietorship | TaxExemptGovernmentInstrumentality | UnincorporatedAssociation | UnincorporatedNonProfit | UnincorporatedPartnership | Unknown

  /** The wire names of the named variants. */
  const CompanyStructureNames: set<string> := {"free_zone_establishment", "free_zone_llc", "government_instrumentality", "governmental_unit", "incorporated_non_profit", "incorporated_partnership", "limited_liability_partnership", "llc", "multi_member_llc", "private_company", "private_corporation", "private_partnership", "public_company", "public_corporation", "public_partnership", "registered_charity", "single_member_llc", "sole_establishment", "sole_proprietorship", "tax_exempt_government_instrumentality", "unincorporated_association", "unincorporated_non_profit", "unincorporated_partnership"}

  /** `as_str`: the wire name of a variant. */
  function CompanyStructureAsStr(e: CompanyStructure): (r: string)
    ensures r in CompanyStructureNames <==> !e.Unknown?
  {
    match e
    case FreeZoneEstablishment => "free_zone_establishment"
    case FreeZoneLlc => "free_zone_llc"
    case GovernmentInstrumentality => "government_instrumentality"
    case GovernmentalUnit => "governmental_unit"
    case IncorporatedNonProfit => "incorporated_non_profit"
    case IncorporatedPartnership => "incorporated_partnership"
    case LimitedLiabilityPartnership => "limited_liability_partnership"
    case Llc => "llc"
    case MultiMemberLlc => "multi_member_llc"
    case PrivateCompany => "private_company"
    case PrivateCorporation => "private_corporation"
    case PrivatePartnership => "private_partnership"
    case PublicCompany => "public_company"
    case PublicCorporation => "public_corporation"
    case PublicPartnership => "public_partnership"
    case RegisteredCharity => "registered_charity"
    case SingleMemberLlc => "single_member_llc"
    case SoleEstablishment => "sole_establishment"
    case SoleProprietorship => "sole_proprietorship"
    case TaxExemptGovernmentInstrumentality => "tax_exempt_government_instrumentality"
    case UnincorporatedAssociation => "unincorporated_association"
    case UnincorporatedNonProfit => "unincorporated_non_profit"
    case UnincorporatedPartnership => "unincorporated_partnership"
    case Unknown => "unknown"
  }

  /** `from_str`: total; a listed name gives its variant, inverting `as_str`, and any other string gives `Unknown`. */
  function CompanyStructureFromStr(s: string): (r: CompanyStructure)
    ensures r.Unknown? <==> s !in CompanyStructureNames
    ensures !r.Unknown? ==> CompanyStructureAsStr(r) == s
  {
    match s
    case "free_zone_establishment" => CompanyStructure.FreeZoneEstablishment
    case "free_zone_llc" => CompanyStructure.FreeZoneLlc
    case "government_instrumentality" => CompanyStructure.GovernmentInstrumentality
    case "governmental_unit" => CompanyStructure.GovernmentalUnit
    case "incorporated_non_profit" => CompanyStructure.IncorporatedNonProfit
    case "incorporated_partnership" => CompanyStructure.IncorporatedPartnership
    case "limited_liability_partnership" => CompanyStructure.LimitedLiabilityPartnership
    case "llc" => CompanyStructure.Llc
    case "multi_member_llc" => CompanyStructure.MultiMemberLlc
    case "private_company" => CompanyStructure.PrivateCompany
    case "private_corporation" => CompanyStructure.PrivateCorporation
    case "private_partnership" => CompanyStructure.PrivatePartnership
    case "public_company" => CompanyStructure.PublicCompany
    case "public_corporation" => CompanyStructure.PublicCorporation
    case "public_partnership" => CompanyStructure.PublicPartnership
    case "registered_charity" => CompanyStructure.RegisteredCharity
    case "single_member_llc" => CompanyStructure.SingleMemberLlc
    case "sole_establishment" => CompanyStructure.SoleEstablishment
    case "sole_proprietorship" => CompanyStructure.SoleProprietorship
    case "tax_exempt_government_instrumentality" => CompanyStructure.TaxExemptGovernmentInstrumentality
    case "unincorporated_association" => CompanyStructure.UnincorporatedAssociation
    case "unincorporated_non_profit" => CompanyStructure.UnincorporatedNonProfit
    case "unincorporated_partnership" => CompanyStructure.UnincorporatedPartnership
    case _ => CompanyStructure.Unknown
  }

  /** Parsing the wire name of any variant gives that variant back, `Unknown` included. */
  lemma CompanyStructureRoundTrip(e: CompanyStructure)
    ensures CompanyStructureFromStr(CompanyStructureAsStr(e)) == e
  {
  }

  /**
   * `CreateAccountControllerFeesPayer`: who pays the Stripe fees.
   */
  datatype FeesPayer = Account | Application

  /** The wire names of the variants. */
  const FeesPayerNames: set<string> := {"account", "application"}

  /** `as_str`: the wire name of a variant. */
  function FeesPayerAsStr(e: FeesPayer): (r: string)
    ensures r in FeesPayerNames
  {
    match e
    case Account => "account"
    case Application => "application"
  }

  /** `from_str`: a variant for exactly the listed names, inverting `as_str`; `StripeParseError` for any other string. */
  function FeesPayerFromStr(s: string): (r: Result<FeesPayer, StripeParseError>)
    ensures r.Ok? <==> s in FeesPayerNames
    ensures r.Ok? ==> FeesPayerAsStr(r.value) == s
  {
    match s
    case "account" => Ok(FeesPayer.Account)
    case "application" => Ok(FeesPayer.Application)
    case _ => Err(StripeParseError)
  }

  /** Parsing the wire name of any variant gives that variant back. */
  lemma FeesPayerRoundTrip(e: FeesPayer)
    ensures FeesPayerFromStr(FeesPayerAsStr(e)) == Ok(e)
  {
  }

  /**
   * `CreateAccountControllerLossesPayments`: who is liable for negative balances.
   */
  datatype LossesPayments = Application | Stripe

  /** The wire names of the variants. */
  const LossesPaymentsNames: set<string> := {"application", "stripe"}

  /** `as_str`: the wire name of a variant. */
  function LossesPaymentsAsStr(e: LossesPayments): (r: string)
    ensures r in LossesPaymentsNames
  {
    match e
    case Application => "application"
    case Stripe => "stripe"
  }

  /** `from_str`: a variant for exactly the listed names, inverting `as_str`; `StripeParseError` for any other string. */
  function LossesPaymentsFromStr(s: string): (r: Result<LossesPayments, StripeParseError>)
    ensures r.Ok? <==> s in LossesPaymentsNames
    ensures r.Ok? ==> LossesPaymentsAsStr(r.value) == s
  {
    match s
    case "application" => Ok(LossesPayments.Application)
    case "stripe" => Ok(LossesPayments.Stripe)
    case _ => Err(StripeParseError)
  }

  /** Parsing the wire name of any variant gives that variant back. */
  lemma LossesPaymentsRoundTrip(e: LossesPayments)
    ensures LossesPaymentsFromStr(LossesPaymentsAsStr(e)) == Ok(e)
  {
  }

  /**
   * `CreateAccountControllerRequirementCollection`: who collects the requirements.
   */
  datatype RequirementCollection = Application | Stripe

  /** The wire names of the variants. */
  const RequirementCollectionNames: set<string> := {"application", "stripe"}

  /** `as_str`: the wire name of a variant. */
  function RequirementCollectionAsStr(e: RequirementCollection): (r: string)
    ensures r in RequirementCollectionNames
  {
    match e
    case Application => "application"
    case Stripe => "stripe"
  }

  /** `from_str`: a variant for exactly the listed names, inverting `as_str`; `StripeParseError` for any other string. */
  function RequirementCollectionFromStr(s: string): (r: Result<RequirementCollection, StripeParseError>)
    ensures r.Ok? <==> s in RequirementCollectionNames
    ensures r.Ok? ==> RequirementCollectionAsStr(r.value) == s
  {
    match s
    case "application" => Ok(RequirementCollection.Application)
    case "stripe" => Ok(RequirementCollection.Stripe)
    case _ => Err(StripeParseError)
  }

  /** Parsing the wire name of any variant gives that variant back. */
  lemma RequirementCollectionRoundTrip(e: RequirementCollection)
    ensures RequirementCollectionFromStr(RequirementCollectionAsStr(e)) == Ok(e)
  {
  }

  /**
   * `CreateAccountControllerStripeDashboardType`: the dashboard the account can use.
   */
  datatype StripeDashboardType = Express | Full | None

  /** The wire names of the variants. */
  const StripeDashboardTypeNames: set<string> := {"express", "full", "none"}

  /** `as_str`: the wire name of a variant. */
  function StripeDashboardTypeAsStr(e: StripeDashboardType): (r: string)
    ensures r in StripeDashboardTypeNames
  {
    match e
    case Express => "express"
    case Full => "full"
    case None => "none"
  }

  /** `from_str`: a variant for exactly the listed names, inverting `as_str`; `StripeParseError` for any other string. */
  function StripeDashboardTypeFromStr(s: string): (r: Result<StripeDashboardType, StripeParseError>)
    ensures r.Ok? <==> s in StripeDashboardTypeNames
    ensures r.Ok? ==> StripeDashboardTypeAsStr(r.value) == s
  {
    match s
    case "express" => Ok(StripeDashboardType.Express)
    case "full" => Ok(StripeDashboardType.Full)
    case "none" => Ok(StripeDashboardType.None)
    case _ => Err(StripeParseError)
  }

  /** Parsing the wire name of any variant gives that variant back. */
  lemma StripeDashboardTypeRoundTrip(e: StripeDashboardType)
    ensures StripeDashboardTypeFromStr(StripeDashboardTypeAsStr(e)) == Ok(e)
  {
  }

  /**
   * `CreateAccountIndividualPoliticalExposure` and `UpdateAccountIndividualPoliticalExposure`.
   */
  datatype PoliticalExposure = Existing | None

  /** The wire names of the variants. */
  const PoliticalExposureNames: set<string> := {"existing", "none"}

  /** `as_str`: the wire name of a variant. */
  function PoliticalExposureAsStr(e: PoliticalExposure): (r: string)
    ensures r in PoliticalExposureNames
  {
    match e
    case Existing => "existing"
    case None => "none"
  }

  /** `from_str`: a variant for exactly the listed names, inverting `as_str`; `StripeParseError` for any other string. */
  function PoliticalExposureFromStr(s: string): (r: Result<PoliticalExposure, StripeParseError>)
    ensures r.Ok? <==> s in PoliticalExposureNames
    ensures r.Ok? ==> PoliticalExposureAsStr(r.value) == s
  {
    match s
    case "existing" => Ok(PoliticalExposure.Existing)
    case "none" => Ok(PoliticalExposure.None)
    case _ => Err(StripeParseError)
  }

  /** Parsing the wire name of any variant gives that variant back. */
  lemma PoliticalExposureRoundTrip(e: PoliticalExposure)
    ensures PoliticalExposureFromStr(PoliticalExposureAsStr(e)) == Ok(e)
  {
  }

  /**
   * `CreateAccountSettingsPayoutsScheduleInterval` and its `Update` copy: how often payouts run.
   */
  datatype Interval = Daily | Manual | Monthly | Weekly

  /** The wire names of the variants. */
  const IntervalNames: set<string> := {"daily", "manual", "monthly", "weekly"}

  /** `as_str`: the wire name of a variant. */
  function IntervalAsStr(e: Interval): (r: string)
    ensures r in IntervalNames
  {
    match e
    case Daily => "daily"
    case Manual => "manual"
    case Monthly => "monthly"
    case Weekly => "weekly"
  }

  /** `from_str`: a variant for exactly the listed names, inverting `as_str`; `StripeParseError` for any other string. */
  function IntervalFromStr(s: string): (r: Result<Interval, StripeParseError>)
    ensures r.Ok? <==> s in IntervalNames
    ensures r.Ok? ==> IntervalAsStr(r.value) == s
  {
    match s
    case "daily" => Ok(Interval.Daily)
    case "manual" => Ok(Interval.Manual)
    case "monthly" => Ok(Interval.Monthly)
    case "weekly" => Ok(Interval.Weekly)
    case _ => Err(StripeParseError)
  }

  /** Parsing the wire name of any variant gives that variant back. */
  lemma IntervalRoundTrip(e: Interval)
    ensures IntervalFromStr(IntervalAsStr(e)) == Ok(e)
  {
  }

  /**
   * `CreateAccountSettingsPayoutsScheduleWeeklyAnchor` and its `Update` copy: the
   * weekday of a weekly payout.
   */
  datatype WeeklyAnchor = Friday | Monday | Saturday | Sunday | Thursday | Tuesday | Wednesday

  /** The wire names of the variants. */
  const WeeklyAnchorNames: set<string> := {"friday", "monday", "saturday", "sunday", "thursday", "tuesday", "wednesday"}

  /** `as_str`: the wire name of a variant. */
  function WeeklyAnchorAsStr(e: WeeklyAnchor): (r: string)
    ensures r in WeeklyAnchorNames
  {
    match e
    case Friday => "friday"
    case Monday => "monday"
    case Saturday => "saturday"
    case Sunday => "sunday"
    case Thursday => "thursday"
    case Tuesday => "tuesday"
    case Wednesday => "wednesday"
  }

  /** `from_str`: a variant for exactly the listed names, inverting `as_str`; `StripeParseError` for any other string. */
  function WeeklyAnchorFromStr(s: string): (r: Result<WeeklyAnchor, StripeParseError>)
    ensures r.Ok? <==> s in WeeklyAnchorNames
    ensures r.Ok? ==> WeeklyAnchorAsStr(r.value) == s
  {
    match s
    case "friday" => Ok(WeeklyAnchor.Friday)
    case "monday" => Ok(WeeklyAnchor.Monday)
    case "saturday" => Ok(WeeklyAnchor.Saturday)
    case "sunday" => Ok(WeeklyAnchor.Sunday)
    case "thursday" => Ok(WeeklyAnchor.Thursday)
    case "tuesday" => Ok(WeeklyAnchor.Tuesday)
    case "wednesday" => Ok(WeeklyAnchor.Wednesday)
    case _ => Err(StripeParseError)
  }

  /** Parsing the wire name of any variant gives that variant back. */
  lemma WeeklyAnchorRoundTrip(e: WeeklyAnchor)
    ensures WeeklyAnchorFromStr(WeeklyAnchorAsStr(e)) == Ok(e)
  {
  }

  /** No two variants share a wire name. */
  lemma WeeklyAnchorAsStrInjective(a: WeeklyAnchor, b: WeeklyAnchor)
    ensures WeeklyAnchorAsStr(a) == WeeklyAnchorAsStr(b) ==> a == b
  {
    if WeeklyAnchorAsStr(a) == WeeklyAnchorAsStr(b) {
      WeeklyAnchorRoundTrip(a);
      WeeklyAnchorRoundTrip(b);
    }
  }

  /**
   * `CreateAccountType`: the kind of account to create.
   */
  datatype AccountType = Custom | Express | Standard

  /** The wire names of the variants. */
  const AccountTypeNames: set<string> := {"custom", "express", "standard"}

  /** `as_str`: the wire name of a variant. */
  function AccountTypeAsStr(e: AccountType): (r: string)
    ensures r in AccountTypeNames
  {
    match e
    case Custom => "custom"
    case Express => "express"
    case Standard => "standard"
  }

  /** `from_str`: a variant for exactly the listed names, inverting `as_str`; `StripeParseError` for any other string. */
  function AccountTypeFromStr(s: string): (r: Result<AccountType, StripeParseError>)
    ensures r.Ok? <==> s in AccountTypeNames
    ensures r.Ok? ==> AccountTypeAsStr(r.value) == s
  {
    match s
    case "custom" => Ok(AccountType.Custom)
    case "express" => Ok(AccountType.Express)
    case "standard" => Ok(AccountType.Standard)
    case _ => Err(StripeParseError)
  }

  /** Parsing the wire name of any variant gives that variant back. */
  lemma AccountTypeRoundTrip(e: AccountType)
    ensures AccountTypeFromStr(AccountTypeAsStr(e)) == Ok(e)
  {
  }

  /**
   * `DeleteAccount`: delete an account.
   */
  datatype DeleteAccount = DeleteAccount(account: string)
  {
    /** `DeleteAccount::new`: `account` as given, every optional parameter unset. */
    static function New(account: string): (r: DeleteAccount)
      ensures r.account == account
    {
      DeleteAccount(account)
    }

    /** `build`: DELETE `/accounts/{account}`, with no query and no body. */
    function Build(): (r: RequestBuilder<()>)
      ensures r.verb == Delete && r.params == NoParams
      ensures IsSegment(account) ==> Route(r.verb, r.path) == Some(DeleteAccountEndpoint(account))
    {
      SplitJoinAt(["", "accounts", account], 2);
      RequestBuilder(Delete, Join(["", "accounts", account]), NoParams)
    }
  }

  /**
   * `RetrieveForMyAccountAccountBuilder`: the parameters of `RetrieveForMyAccountAccount`.
   */
  datatype RetrieveForMyAccountAccountBuilder = RetrieveForMyAccountAccountBuilder(
    expand: Option<seq<string>>
  )
  {
    /** Whether the field with wire name `name` is serialised: when it is set. */
    predicate Sends(name: string)
    {
      match name
      case "expand" => expand.Some?
      case _ => false
    }

    /** The names of the fields that are serialised. */
    function Serialized(): set<string>
    {
      set n | n in RetrieveForMyAccountAccountBuilderFields && Sends(n)
    }

    /** `RetrieveForMyAccountAccountBuilder::new`: every field unset. */
    static function New(): (r: RetrieveForMyAccountAccountBuilder)
      ensures r.Serialized() == {}
    {
      RetrieveForMyAccountAccountBuilder(Option.None)
    }
  }

  /** The wire names of the fields of `RetrieveForMyAccountAccountBuilder`. */
  const RetrieveForMyAccountAccountBuilderFields: set<string> := {"expand"}

  /**
   * `RetrieveForMyAccountAccount`: retrieve the calling account.
   */
  datatype RetrieveForMyAccountAccount = RetrieveForMyAccountAccount(inner: RetrieveForMyAccountAccountBuilder)
  {
    /** `RetrieveForMyAccountAccount::new`: every parameter unset. */
    static function New(): (r: RetrieveForMyAccountAccount)
      ensures r.inner.Serialized() == {}
    {
      RetrieveForMyAccountAccount(RetrieveForMyAccountAccountBuilder.New())
    }

    /** `expand`: sets `expand` and nothing else. */
    function Expand(expand: seq<string>): (r: RetrieveForMyAccountAccount)
      ensures r.inner.expand == Some(expand)
      ensures r.(inner := r.inner.(expand := inner.expand)) == this
      ensures r.inner.Serialized() == inner.Serialized() + {"expand"}
    {
      this.(inner := inner.(expand := Some(expand)))
    }

    /** `build`: GET `/account`, with the builder as the query string. */
    function Build(): (r: RequestBuilder<RetrieveForMyAccountAccountBuilder>)
      ensures r.verb == Get && r.params == Query(inner)
      ensures Route(r.verb, r.path) == Some(RetrieveForMyAccountAccountEndpoint)
    {
      SplitJoin(["", "account"]);
      RequestBuilder(Get, Join(["", "account"]), Query(inner))
    }
  }

  /**
   * `ListAccountBuilder`: the parameters of `ListAccount`.
   */
  datatype ListAccountBuilder = ListAccountBuilder(
    created: Option<RangeQueryTs>,
    endingBefore: Option<string>,
    expand: Option<seq<string>>,
    limit: Option<I64>,
    startingAfter: Option<string>
  )
  {
    /** Whether the field with wire name `name` is serialised: when it is set. */
    predicate Sends(name: string)
    {
      match name
      case "created" => created.Some?
      case "ending_before" => endingBefore.Some?
      case "expand" => expand.Some?
      case "limit" => limit.Some?
      case "starting_after" => startingAfter.Some?
      case _ => false
    }

    /** The names of the fields that are serialised. */
    function Serialized(): set<string>
    {
      set n | n in ListAccountBuilderFields && Sends(n)
    }

    /** `ListAccountBuilder::new`: every field unset. */
    static function New(): (r: ListAccountBuilder)
      ensures r.Serialized() == {}
    {
      ListAccountBuilder(Option.None, Option.None, Option.None, Option.None, Option.None)
    }
  }

  /** The wire names of the fields of `ListAccountBuilder`. */
  const ListAccountBuilderFields: set<string> := {"created", "ending_before", "expand", "limit", "starting_after"}

  /**
   * `ListAccount`: list the connected accounts.
   */
  datatype ListAccount = ListAccount(inner: ListAccountBuilder)
  {
    /** `ListAccount::new`: every parameter unset. */
    static function New(): (r: ListAccount)
      ensures r.inner.Serialized() == {}
    {
      ListAccount(ListAccountBuilder.New())
    }

    /** `created`: sets `created` and nothing else. */
    function Created(created: RangeQueryTs): (r: ListAccount)
      ensures r.inner.created == Some(created)
      ensures r.(inner := r.inner.(created := inner.created)) == this
      ensures r.inner.Serialized() == inner.Serialized() + {"created"}
    {
      this.(inner := inner.(created := Some(created)))
    }

    /** `ending_before`: sets `ending_before` and nothing else. */
    function EndingBefore(endingBefore: string): (r: ListAccount)
      ensures r.inner.endingBefore == Some(endingBefore)
      ensures r.(inner := r.inner.(endingBefore := inner.endingBefore)) == this
      ensures r.inner.Serialized() == inner.Serialized() + {"ending_before"}
    {
      this.(inner := inner.(endingBefore := Some(endingBefore)))
    }

    /** `expand`: sets `expand` and nothing else. */
    function Expand(expand: seq<string>): (r: ListAccount)
      ensures r.inner.expand == Some(expand)
      ensures r.(inner := r.inner.(expand := inner.expand)) == this
      ensures r.inner.Serialized() == inner.Serialized() + {"expand"}
    {
      this.(inner := inner.(expand := Some(expand)))
    }

    /** `limit`: sets `limit` and nothing else. */
    function Limit(limit: I64): (r: ListAccount)
      ensures r.inner.limit == Some(limit)
      ensures r.(inner := r.inner.(limit := inner.limit)) == this
      ensures r.inner.Serialized() == inner.Serialized() + {"limit"}
    {
      this.(inner := inner.(limit := Some(limit)))
    }

    /** `starting_after`: sets `starting_after` and nothing else. */
    function StartingAfter(startingAfter: string): (r: ListAccount)
      ensures r.inner.startingAfter == Some(startingAfter)
      ensures r.(inner := r.inner.(startingAfter := inner.startingAfter)) == this
      ensures r.inner.Serialized() == inner.Serialized() + {"starting_after"}
    {
      this.(inner := inner.(startingAfter := Some(startingAfter)))
    }

    /** `build`: GET `/accounts`, with the builder as the query string. */
    function Build(): (r: RequestBuilder<ListAccountBuilder>)
      ensures r.verb == Get && r.params == Query(inner)
      ensures Route(r.verb, r.path) == Some(ListAccountEndpoint)
    {
      SplitJoin(["", "accounts"]);
      RequestBuilder(Get, Join(["", "accounts"]), Query(inner))
    }
  }

  /**
   * `RetrieveAccountBuilder`: the parameters of `RetrieveAccount`.
   */
  datatype RetrieveAccountBuilder = RetrieveAccountBuilder(
    expand: Option<seq<string>>
  )
  {
    /** Whether the field with wire name `name` is serialised: when it is set. */
    predicate Sends(name: string)
    {
      match name
      case "expand" => expand.Some?
      case _ => false
    }

    /** The names of the fields that are serialised. */
    function Serialized(): set<string>
    {
      set n | n in RetrieveAccountBuilderFields && Sends(n)
    }

    /** `RetrieveAccountBuilder::new`: every field unset. */
    static function New(): (r: RetrieveAccountBuilder)
      ensures r.Serialized() == {}
    {
      RetrieveAccountBuilder(Option.None)
    }
  }

  /** The wire names of the fields of `RetrieveAccountBuilder`. */
  const RetrieveAccountBuilderFields: set<string> := {"expand"}

  /**
   * `RetrieveAccount`: retrieve an account.
   */
  datatype RetrieveAccount = RetrieveAccount(inner: RetrieveAccountBuilder, account: string)
  {
    /** `RetrieveAccount::new`: `account` as given, every optional parameter unset. */
    static function New(account: string): (r: RetrieveAccount)
      ensures r.account == account
      ensures r.inner.Serialized() == {}
    {
      RetrieveAccount(RetrieveAccountBuilder.New(), account)
    }

    /** `expand`: sets `expand` and nothing else. */
    function Expand(expand: seq<string>): (r: RetrieveAccount)
      ensures r.inner.expand == Some(expand)
      ensures r.(inner := r.inner.(expand := inner.expand)) == this
      ensures r.inner.Serialized() == inner.Serialized() + {"expand"}
    {
      this.(inner := inner.(expand := Some(expand)))
    }

    /** `build`: GET `/accounts/{account}`, with the builder as the query string. */
    function Build(): (r: RequestBuilder<RetrieveAccountBuilder>)
      ensures r.verb == Get && r.params == Query(inner)
      ensures IsSegment(account) ==> Route(r.verb, r.path) == Some(RetrieveAccountEndpoint(account))
    {
      SplitJoinAt(["", "accounts", account], 2);
      RequestBuilder(Get, Join(["", "accounts", account]), Query(inner))
    }
  }

  /**
   * `CapabilitiesAccountBuilder`: the parameters of `CapabilitiesAccount`.
   */
  datatype CapabilitiesAccountBuilder = CapabilitiesAccountBuilder(
    expand: Option<seq<string>>
  )
  {
    /** Whether the field with wire name `name` is serialised: when it is set. */
    predicate Sends(name: string)
    {
      match name
      case "expand" => expand.Some?
      case _ => false
    }

    /** The names of the fields that are serialised. */
    function Serialized(): set<string>
    {
      set n | n in CapabilitiesAccountBuilderFields && Sends(n)
    }

    /** `CapabilitiesAccountBuilder::new`: every field unset. */
    static function New(): (r: CapabilitiesAccountBuilder)
      ensures r.Serialized() == {}
    {
      CapabilitiesAccountBuilder(Option.None)
    }
  }

  /** The wire names of the fields of `CapabilitiesAccountBuilder`. */
  const CapabilitiesAccountBuilderFields: set<string> := {"expand"}

  /**
   * `CapabilitiesAccount`: list the capabilities of an account.
   */
  datatype CapabilitiesAccount = CapabilitiesAccount(inner: CapabilitiesAccountBuilder, account: string)
  {
    /** `CapabilitiesAccount::new`: `account` as given, every optional parameter unset. */
    static function New(account: string): (r: CapabilitiesAccount)
      ensures r.account == account
      ensures r.inner.Serialized() == {}
    {
      CapabilitiesAccount(CapabilitiesAccountBuilder.New(), account)
    }

    /** `expand`: sets `expand` and nothing else. */
    function Expand(expand: seq<string>): (r: CapabilitiesAccount)
      ensures r.inner.expand == Some(expand)
      ensures r.(inner := r.inner.(expand := inner.expand)) == this
      ensures r.inner.Serialized() == inner.Serialized() + {"expand"}
    {
      this.(inner := inner.(expand := Some(expand)))
    }

    /** `build`: GET `/accounts/{account}/capabilities`, with the builder as the query string. */
    function Build(): (r: RequestBuilder<CapabilitiesAccountBuilder>)
      ensures r.verb == Get && r.params == Query(inner)
      ensures IsSegment(account) ==> Route(r.verb, r.path) == Some(CapabilitiesAccountEndpoint(account))
    {
      SplitJoinAt(["", "accounts", account, "capabilities"], 2);
      RequestBuilder(Get, Join(["", "accounts", account, "capabilities"]), Query(inner))
    }
  }

  /**
   * `PersonsAccountBuilder`: the parameters of `PersonsAccount`.
   */
  datatype PersonsAccountBuilder = PersonsAccountBuilder(
    endingBefore: Option<string>,
    expand: Option<seq<string>>,
    limit: Option<I64>,
    relationship: Option<PersonsAccountRelationship>,
    startingAfter: Option<string>
  )
  {
    /** Whether the field with wire name `name` is serialised: when it is set. */
    predicate Sends(name: string)
    {
      match name
      case "ending_before" => endingBefore.Some?
      case "expand" => expand.Some?
      case "limit" => limit.Some?
      case "relationship" => relationship.Some?
      case "starting_after" => startingAfter.Some?
      case _ => false
    }

    /** The names of the fields that are serialised. */
    function Serialized(): set<string>
    {
      set n | n in PersonsAccountBuilderFields && Sends(n)
    }

    /** `PersonsAccountBuilder::new`: every field unset. */
    static function New(): (r: PersonsAccountBuilder)
      ensures r.Serialized() == {}
    {
      PersonsAccountBuilder(Option.None, Option.None, Option.None, Option.None, Option.None)
    }
  }

  /** The wire names of the fields of `PersonsAccountBuilder`. */
  const PersonsAccountBuilderFields: set<string> := {"ending_before", "expand", "limit", "relationship", "starting_after"}

  /**
   * `PersonsAccount`: list the persons of an account.
   */
  datatype PersonsAccount = PersonsAccount(inner: PersonsAccountBuilder, account: string)
  {
    /** `PersonsAccount::new`: `account` as given, every optional parameter unset. */
    static function New(account: string): (r: PersonsAccount)
      ensures r.account == account
      ensures r.inner.Serialized() == {}
    {
      PersonsAccount(PersonsAccountBuilder.New(), account)
    }

    /** `ending_before`: sets `ending_before` and nothing else. */
    function EndingBefore(endingBefore: string): (r: PersonsAccount)
      ensures r.inner.endingBefore == Some(endingBefore)
      ensures r.(inner := r.inner.(endingBefore := inner.endingBefore)) == this
      ensures r.inner.Serialized() == inner.Serialized() + {"ending_before"}
    {
      this.(inner := inner.(endingBefore := Some(endingBefore)))
    }

    /** `expand`: sets `expand` and nothing else. */
    function Expand(expand: seq<string>): (r: PersonsAccount)
      ensures r.inner.expand == Some(expand)
      ensures r.(inner := r.inner.(expand := inner.expand)) == this
      ensures r.inner.Serialized() == inner.Serialized() + {"expand"}
    {
      this.(inner := inner.(expand := Some(expand)))
    }

    /** `limit`: sets `limit` and nothing else. */
    function Limit(limit: I64): (r: PersonsAccount)
      ensures r.inner.limit == Some(limit)
      ensures r.(inner := r.inner.(limit := inner.limit)) == this
      ensures r.inner.Serialized() == inner.Serialized() + {"limit"}
    {
      this.(inner := inner.(limit := Some(limit)))
    }

    /** `relationship`: sets `relationship` and nothing else. */
    function Relationship(relationship: PersonsAccountRelationship): (r: PersonsAccount)
      ensures r.inner.relationship == Some(relationship)
      ensures r.(inner := r.inner.(relationship := inner.relationship)) == this
      ensures r.inner.Serialized() == inner.Serialized() + {"relationship"}
    {
      this.(inner := inner.(relationship := Some(relationship)))
    }

    /** `starting_after`: sets `starting_after` and nothing else. */
    function StartingAfter(startingAfter: string): (r: PersonsAccount)
      ensures r.inner.startingAfter == Some(startingAfter)
      ensures r.(inner := r.inner.(startingAfter := inner.startingAfter)) == this
      ensures r.inner.Serialized() == inner.Serialized() + {"starting_after"}
    {
      this.(inner := inner.(startingAfter := Some(startingAfter)))
    }

    /** `build`: GET `/accounts/{account}/persons`, with the builder as the query string. */
    function Build(): (r: RequestBuilder<PersonsAccountBuilder>)
      ensures r.verb == Get && r.params == Query(inner)
      ensures IsSegment(account) ==> Route(r.verb, r.path) == Some(PersonsAccountEndpoint(account))
    {
      SplitJoinAt(["", "accounts", account, "persons"], 2);
      RequestBuilder(Get, Join(["", "accounts", account, "persons"]), Query(inner))
    }
  }

  /**
   * `CreateAccountBuilder`: the parameters of `CreateAccount`.
   */
  datatype CreateAccountBuilder = CreateAccountBuilder(
    accountToken: Option<string>,
    businessProfile: Option<BusinessProfileSpecs>,
    businessType: Option<AccountBusinessType>,
    capabilities: Option<CapabilitiesParam>,
    company: Option<CreateAccountCompany>,
    controller: Option<CreateAccountController>,
    country: Option<string>,
    defaultCurrency: Option<Currency>,
    documents: Option<DocumentsSpecs>,
    email: Option<string>,
    expand: Option<seq<string>>,
    externalAccount: Option<string>,
    individual: Option<CreateAccountIndividual>,
    metadata: Option<map<string, string>>,
    settings: Option<CreateAccountSettings>,
    tosAcceptance: Option<TosAcceptanceSpecs>,
    accountType: Option<AccountType>
  )
  {
    /** Whether the field with wire name `name` is serialised: when it is set. */
    predicate Sends(name: string)
    {
      match name
      case "account_token" => accountToken.Some?
      case "business_profile" => businessProfile.Some?
      case "business_type" => businessType.Some?
      case "capabilities" => capabilities.Some?
      case "company" => company.Some?
      case "controller" => controller.Some?
      case "country" => country.Some?
      case "default_currency" => defaultCurrency.Some?
      case "documents" => documents.Some?
      case "email" => email.Some?
      case "expand" => expand.Some?
      case "external_account" => externalAccount.Some?
      case "individual" => individual.Some?
      case "metadata" => metadata.Some?
      case "settings" => settings.Some?
      case "tos_acceptance" => tosAcceptance.Some?
      case "type" => accountType.Some?
      case _ => false
    }

    /** The names of the fields that are serialised. */
    function Serialized(): set<string>
    {
      set n | n in CreateAccountBuilderFields && Sends(n)
    }

    /** `CreateAccountBuilder::new`: every field unset. */
    static function New(): (r: CreateAccountBuilder)
      ensures r.Serialized() == {}
    {
      CreateAccountBuilder(Option.None, Option.None, Option.None, Option.None, Option.None, Option.None, Option.None, Option.None, Option.None, Option.None, Option.None, Option.None, Option.None, Option.None, Option.None, Option.None, Option.None)
    }
  }

  /** The wire names of the fields of `CreateAccountBuilder`. */
  const CreateAccountBuilderFields: set<string> := {"account_token", "business_profile", "business_type", "capabilities", "company", "controller", "country", "default_currency", "documents", "email", "expand", "external_account", "individual", "metadata", "settings", "tos_acceptance", "type"}

  /**
   * `CreateAccount`: create a connected account.
   */
  datatype CreateAccount = CreateAccount(inner: CreateAccountBuilder)
  {
    /** `CreateAccount::new`: every parameter unset. */
    static function New(): (r: CreateAccount)
      ensures r.inner.Serialized() == {}
    {
      CreateAccount(CreateAccountBuilder.New())
    }

    /** `account_token`: sets `account_token` and nothing else. */
    function AccountToken(accountToken: string): (r: CreateAccount)
      ensures r.inner.accountToken == Some(accountToken)
      ensures r.(inner := r.inner.(accountToken := inner.accountToken)) == this
      ensures r.inner.Serialized() == inner.Serialized() + {"account_token"}
    {
      this.(inner := inner.(accountToken := Some(accountToken)))
    }

    /** `business_profile`: sets `business_profile` and nothing else. */
    function BusinessProfile(businessProfile: BusinessProfileSpecs): (r: CreateAccount)
      ensures r.inner.businessProfile == Some(businessProfile)
      ensures r.(inner := r.inner.(businessProfile := inner.businessProfile)) == this
      ensures r.inner.Serialized() == inner.Serialized() + {"business_profile"}
    {
      this.(inner := inner.(businessProfile := Some(businessProfile)))
    }

    /** `business_type`: sets `business_type` and nothing else. */
    function BusinessType(businessType: AccountBusinessType): (r: CreateAccount)
      ensures r.inner.businessType == Some(businessType)
      ensures r.(inner := r.inner.(businessType := inner.businessType)) == this
      ensures r.inner.Serialized() == inner.Serialized() + {"business_type"}
    {
      this.(inner := inner.(businessType := Some(businessType)))
    }

    /** `capabilities`: sets `capabilities` and nothing else. */
    function Capabilities(capabilities: CapabilitiesParam): (r: CreateAccount)
      ensures r.inner.capabilities == Some(capabilities)
      ensures r.(inner := r.inner.(capabilities := inner.capabilities)) == this
      ensures r.inner.Serialized() == inner.Serialized() + {"capabilities"}
    {
      this.(inner := inner.(capabilities := Some(capabilities)))
    }

    /** `company`: sets `company` and nothing else. */
    function Company(company: CreateAccountCompany): (r: CreateAccount)
      ensures r.inner.company == Some(company)
      ensures r.(inner := r.inner.(company := inner.company)) == this
      ensures r.inner.Serialized() == inner.Serialized() + {"company"}
    {
      this.(inner := inner.(company := Some(company)))
    }

    /** `controller`: sets `controller` and nothing else. */
    function Controller(controller: CreateAccountController): (r: CreateAccount)
      ensures r.inner.controller == Some(controller)
      ensures r.(inner := r.inner.(controller := inner.controller)) == this
      ensures r.inner.Serialized() == inner.Serialized() + {"controller"}
    {
      this.(inner := inner.(controller := Some(controller)))
    }

    /** `country`: sets `country` and nothing else. */
    function Country(country: string): (r: CreateAccount)
      ensures r.inner.country == Some(country)
      ensures r.(inner := r.inner.(country := inner.country)) == this
      ensures r.inner.Serialized() == inner.Serialized() + {"country"}
    {
      this.(inner := inner.(country := Some(country)))
    }

    /** `default_currency`: sets `default_currency` and nothing else. */
    function DefaultCurrency(defaultCurrency: Currency): (r: CreateAccount)
      ensures r.inner.defaultCurrency == Some(defaultCurrency)
      ensures r.(inner := r.inner.(defaultCurrency := inner.defaultCurrency)) == this
      ensures r.inner.Serialized() == inner.Serialized() + {"default_currency"}
    {
      this.(inner := inner.(defaultCurrency := Some(defaultCurrency)))
    }

    /** `documents`: sets `documents` and nothing else. */
    function Documents(documents: DocumentsSpecs): (r: CreateAccount)
      ensures r.inner.documents == Some(documents)
      ensures r.(inner := r.inner.(documents := inner.documents)) == this
      ensures r.inner.Serialized() == inner.Serialized() + {"documents"}
    {
      this.(inner := inner.(documents := Some(documents)))
    }

    /** `email`: sets `email` and nothing else. */
    function Email(email: string): (r: CreateAccount)
      ensures r.inner.email == Some(email)
      ensures r.(inner := r.inner.(email := inner.email)) == this
      ensures r.inner.Serialized() == inner.Serialized() + {"email"}
    {
      this.(inner := inner.(email := Some(email)))
    }

    /** `expand`: sets `expand` and nothing else. */
    function Expand(expand: seq<string>): (r: CreateAccount)
      ensures r.inner.expand == Some(expand)
      ensures r.(inner := r.inner.(expand := inner.expand)) == this
      ensures r.inner.Serialized() == inner.Serialized() + {"expand"}
    {
      this.(inner := inner.(expand := Some(expand)))
    }

    /** `external_account`: sets `external_account` and nothing else. */
    function ExternalAccount(externalAccount: string): (r: CreateAccount)
      ensures r.inner.externalAccount == Some(externalAccount)
      ensures r.(inner := r.inner.(externalAccount := inner.externalAccount)) == this
      ensures r.inner.Serialized() == inner.Serialized() + {"external_account"}
    {
      this.(inner := inner.(externalAccount := Some(externalAccount)))
    }

    /** `individual`: sets `individual` and nothing else. */
    function Individual(individual: CreateAccountIndividual): (r: CreateAccount)
      ensures r.inner.individual == Some(individual)
      ensures r.(inner := r.inner.(individual := inner.individual)) == this
      ensures r.inner.Serialized() == inner.Serialized() + {"individual"}
    {
      this.(inner := inner.(individual := Some(individual)))
    }

    /** `metadata`: sets `metadata` and nothing else. */
    function Metadata(metadata: map<string, string>): (r: CreateAccount)
      ensures r.inner.metadata == Some(metadata)
      ensures r.(inner := r.inner.(metadata := inner.metadata)) == this
      ensures r.inner.Serialized() == inner.Serialized() + {"metadata"}
    {
      this.(inner := inner.(metadata := Some(metadata)))
    }

    /** `settings`: sets `settings` and nothing else. */
    function Settings(settings: CreateAccountSettings): (r: CreateAccount)
      ensures r.inner.settings == Some(settings)
      ensures r.(inner := r.inner.(settings := inner.settings)) == this
      ensures r.inner.Serialized() == inner.Serialized() + {"settings"}
    {
      this.(inner := inner.(settings := Some(settings)))
    }

    /** `tos_acceptance`: sets `tos_acceptance` and nothing else. */
    function TosAcceptance(tosAcceptance: TosAcceptanceSpecs): (r: CreateAccount)
      ensures r.inner.tosAcceptance == Some(tosAcceptance)
      ensures r.(inner := r.inner.(tosAcceptance := inner.tosAcceptance)) == this
      ensures r.inner.Serialized() == inner.Serialized() + {"tos_acceptance"}
    {
      this.(inner := inner.(tosAcceptance := Some(tosAcceptance)))
    }

    /** `type_`: sets `type_` and nothing else. */
    function Type_(accountType: AccountType): (r: CreateAccount)
      ensures r.inner.accountType == Some(accountType)
      ensures r.(inner := r.inner.(accountType := inner.accountType)) == this
      ensures r.inner.Serialized() == inner.Serialized() + {"type"}
    {
      this.(inner := inner.(accountType := Some(accountType)))
    }

    /** `build`: POST `/accounts`, with the builder as a form body. */
    function Build(): (r: RequestBuilder<CreateAccountBuilder>)
      ensures r.verb == Post && r.params == Form(inner)
      ensures Route(r.verb, r.path) == Some(CreateAccountEndpoint)
    {
      SplitJoin(["", "accounts"]);
      RequestBuilder(Post, Join(["", "accounts"]), Form(inner))
    }
  }

  /**
   * `UpdateAccountBuilder`: the parameters of `UpdateAccount`.
   */
  datatype UpdateAccountBuilder = UpdateAccountBuilder(
    accountToken: Option<string>,
    businessProfile: Option<BusinessProfileSpecs>,
    businessType: Option<AccountBusinessType>,
    capabilities: Option<CapabilitiesParam>,
    company: Option<UpdateAccountCompany>,
    defaultCurrency: Option<Currency>,
    documents: Option<DocumentsSpecs>,
    email: Option<string>,
    expand: Option<seq<string>>,
    externalAccount: Option<string>,
    individual: Option<UpdateAccountIndividual>,
    metadata: Option<map<string, string>>,
    settings: Option<UpdateAccountSettings>,
    tosAcceptance: Option<TosAcceptanceSpecs>
  )
  {
    /** Whether the field with wire name `name` is serialised: when it is set. */
    predicate Sends(name: string)
    {
      match name
      case "account_token" => accountToken.Some?
      case "business_profile" => businessProfile.Some?
      case "business_type" => businessType.Some?
      case "capabilities" => capabilities.Some?
      case "company" => company.Some?
      case "default_currency" => defaultCurrency.Some?
      case "documents" => documents.Some?
      case "email" => email.Some?
      case "expand" => expand.Some?
      case "external_account" => externalAccount.Some?
      case "individual" => individual.Some?
      case "metadata" => metadata.Some?
      case "settings" => settings.Some?
      case "tos_acceptance" => tosAcceptance.Some?
      case _ => false
    }

    /** The names of the fields that are serialised. */
    function Serialized(): set<string>
    {
      set n | n in UpdateAccountBuilderFields && Sends(n)
    }

    /** `UpdateAccountBuilder::new`: every field unset. */
    static function New(): (r: UpdateAccountBuilder)
      ensures r.Serialized() == {}
    {
      UpdateAccountBuilder(Option.None, Option.None, Option.None, Option.None, Option.None, Option.None, Option.None, Option.None, Option.None, Option.None, Option.None, Option.None, Option.None, Option.None)
    }
  }

  /** The wire names of the fields of `UpdateAccountBuilder`. */
  const UpdateAccountBuilderFields: set<string> := {"account_token", "business_profile", "business_type", "capabilities", "company", "default_currency", "documents", "email", "expand", "external_account", "individual", "metadata", "settings", "tos_acceptance"}

  /**
   * `UpdateAccount`: update an account.
   */
  datatype UpdateAccount = UpdateAccount(inner: UpdateAccountBuilder, account: string)
  {
    /** `UpdateAccount::new`: `account` as given, every optional parameter unset. */
    static function New(account: string): (r: UpdateAccount)
      ensures r.account == account
      ensures r.inner.Serialized() == {}
    {
      UpdateAccount(UpdateAccountBuilder.New(), account)
    }

    /** `account_token`: sets `account_token` and nothing else. */
    function AccountToken(accountToken: string): (r: UpdateAccount)
      ensures r.inner.accountToken == Some(accountToken)
      ensures r.(inner := r.inner.(accountToken := inner.accountToken)) == this
      ensures r.inner.Serialized() == inner.Serialized() + {"account_token"}
    {
      this.(inner := inner.(accountToken := Some(accountToken)))
    }

    /** `business_profile`: sets `business_profile` and nothing else. */
    function BusinessProfile(businessProfile: BusinessProfileSpecs): (r: UpdateAccount)
      ensures r.inner.businessProfile == Some(businessProfile)
      ensures r.(inner := r.inner.(businessProfile := inner.businessProfile)) == this
      ensures r.inner.Serialized() == inner.Serialized() + {"business_profile"}
    {
      this.(inner := inner.(businessProfile := Some(businessProfile)))
    }

    /** `business_type`: sets `business_type` and nothing else. */
    function BusinessType(businessType: AccountBusinessType): (r: UpdateAccount)
      ensures r.inner.businessType == Some(businessType)
      ensures r.(inner := r.inner.(businessType := inner.businessType)) == this
      ensures r.inner.Serialized() == inner.Serialized() + {"business_type"}
    {
      this.(inner := inner.(businessType := Some(businessType)))
    }

    /** `capabilities`: sets `capabilities` and nothing else. */
    function Capabilities(capabilities: CapabilitiesParam): (r: UpdateAccount)
      ensures r.inner.capabilities == Some(capabilities)
      ensures r.(inner := r.inner.(capabilities := inner.capabilities)) == this
      ensures r.inner.Serialized() == inner.Serialized() + {"capabilities"}
    {
      this.(inner := inner.(capabilities := Some(capabilities)))
    }

    /** `company`: sets `company` and nothing else. */
    function Company(company: UpdateAccountCompany): (r: UpdateAccount)
      ensures r.inner.company == Some(company)
      ensures r.(inner := r.inner.(company := inner.company)) == this
      ensures r.inner.Serialized() == inner.Serialized() + {"company"}
    {
      this.(inner := inner.(company := Some(company)))
    }

    /** `default_currency`: sets `default_currency` and nothing else. */
    function DefaultCurrency(defaultCurrency: Currency): (r: UpdateAccount)
      ensures r.inner.defaultCurrency == Some(defaultCurrency)
      ensures r.(inner := r.inner.(defaultCurrency := inner.defaultCurrency)) == this
      ensures r.inner.Serialized() == inner.Serialized() + {"default_currency"}
    {
      this.(inner := inner.(defaultCurrency := Some(defaultCurrency)))
    }

    /** `documents`: sets `documents` and nothing else. */
    function Documents(documents: DocumentsSpecs): (r: UpdateAccount)
      ensures r.inner.documents == Some(documents)
      ensures r.(inner := r.inner.(documents := inner.documents)) == this
      ensures r.inner.Serialized() == inner.Serialized() + {"documents"}
    {
      this.(inner := inner.(documents := Some(documents)))
    }

    /** `email`: sets `email` and nothing else. */
    function Email(email: string): (r: UpdateAccount)
      ensures r.inner.email == Some(email)
      ensures r.(inner := r.inner.(email := inner.email)) == this
      ensures r.inner.Serialized() == inner.Serialized() + {"email"}
    {
      this.(inner := inner.(email := Some(email)))
    }

    /** `expand`: sets `expand` and nothing else. */
    function Expand(expand: seq<string>): (r: UpdateAccount)
      ensures r.inner.expand == Some(expand)
      ensures r.(inner := r.inner.(expand := inner.expand)) == this
      ensures r.inner.Serialized() == inner.Serialized() + {"expand"}
    {
      this.(inner := inner.(expand := Some(expand)))
    }

    /** `external_account`: sets `external_account` and nothing else. */
    function ExternalAccount(externalAccount: string): (r: UpdateAccount)
      ensures r.inner.externalAccount == Some(externalAccount)
      ensures r.(inner := r.inner.(externalAccount := inner.externalAccount)) == this
      ensures r.inner.Serialized() == inner.Serialized() + {"external_account"}
    {
      this.(inner := inner.(externalAccount := Some(externalAccount)))
    }

    /** `individual`: sets `individual` and nothing else. */
    function Individual(individual: UpdateAccountIndividual): (r: UpdateAccount)
      ensures r.inner.individual == Some(individual)
      ensures r.(inner := r.inner.(individual := inner.individual)) == this
      ensures r.inner.Serialized() == inner.Serialized() + {"individual"}
    {
      this.(inner := inner.(individual := Some(individual)))
    }

    /** `metadata`: sets `metadata` and nothing else. */
    function Metadata(metadata: map<string, string>): (r: UpdateAccount)
      ensures r.inner.metadata == Some(metadata)
      ensures r.(inner := r.inner.(metadata := inner.metadata)) == this
      ensures r.inner.Serialized() == inner.Serialized() + {"metadata"}
    {
      this.(inner := inner.(metadata := Some(metadata)))
    }

    /** `settings`: sets `settings` and nothing else. */
    function Settings(settings: UpdateAccountSettings): (r: UpdateAccount)
      ensures r.inner.settings == Some(settings)
      ensures r.(inner := r.inner.(settings := inner.settings)) == this
      ensures r.inner.Serialized() == inner.Serialized() + {"settings"}
    {
      this.(inner := inner.(settings := Some(settings)))
    }

    /** `tos_acceptance`: sets `tos_acceptance` and nothing else. */
    function TosAcceptance(tosAcceptance: TosAcceptanceSpecs): (r: UpdateAccount)
      ensures r.inner.tosAcceptance == Some(tosAcceptance)
      ensures r.(inner := r.inner.(tosAcceptance := inner.tosAcceptance)) == this
      ensures r.inner.Serialized() == inner.Serialized() + {"tos_acceptance"}
    {
      this.(inner := inner.(tosAcceptance := Some(tosAcceptance)))
    }

    /** `build`: POST `/accounts/{account}`, with the builder as a form body. */
    function Build(): (r: RequestBuilder<UpdateAccountBuilder>)
      ensures r.verb == Post && r.params == Form(inner)
      ensures IsSegment(account) ==> Route(r.verb, r.path) == Some(UpdateAccountEndpoint(account))
    {
      SplitJoinAt(["", "accounts", account], 2);
      RequestBuilder(Post, Join(["", "accounts", account]), Form(inner))
    }
  }

  /**
   * `RejectAccountBuilder`: the parameters of `RejectAccount`.
   */
  datatype RejectAccountBuilder = RejectAccountBuilder(
    expand: Option<seq<string>>,
    reason: string
  )
  {
    /** Whether the field with wire name `name` is serialised: a required field always, an optional one when it is set. */
    predicate Sends(name: string)
    {
      match name
      case "expand" => expand.Some?
      case "reason" => true
      case _ => false
    }

    /** The names of the fields that are serialised. */
    function Serialized(): set<string>
    {
      set n | n in RejectAccountBuilderFields && Sends(n)
    }

    /** `RejectAccountBuilder::new`: the required field as given, every optional field unset. */
    static function New(reason: string): (r: RejectAccountBuilder)
      ensures r.reason == reason
      ensures r.Serialized() == {"reason"}
    {
      RejectAccountBuilder(Option.None, reason)
    }
  }

  /** The wire names of the fields of `RejectAccountBuilder`. */
  const RejectAccountBuilderFields: set<string> := {"expand", "reason"}

  /**
   * `RejectAccount`: reject an account, giving a reason.
   */
  datatype RejectAccount = RejectAccount(inner: RejectAccountBuilder, account: string)
  {
    /** `RejectAccount::new`: `account` and `reason` as given, every optional parameter unset. */
    static function New(account: string, reason: string): (r: RejectAccount)
      ensures r.account == account
      ensures r.inner.reason == reason
      ensures r.inner.Serialized() == {"reason"}
    {
      RejectAccount(RejectAccountBuilder.New(reason), account)
    }

    /** `expand`: sets `expand` and nothing else. */
    function Expand(expand: seq<string>): (r: RejectAccount)
      ensures r.inner.expand == Some(expand)
      ensures r.(inner := r.inner.(expand := inner.expand)) == this
      ensures r.inner.Serialized() == inner.Serialized() + {"expand"}
    {
      this.(inner := inner.(expand := Some(expand)))
    }

    /** `build`: POST `/accounts/{account}/reject`, with the builder as a form body. */
    function Build(): (r: RequestBuilder<RejectAccountBuilder>)
      ensures r.verb == Post && r.params == Form(inner)
      ensures IsSegment(account) ==> Route(r.verb, r.path) == Some(RejectAccountEndpoint(account))
    {
      SplitJoinAt(["", "accounts", account, "reject"], 2);
      RequestBuilder(Post, Join(["", "accounts", account, "reject"]), Form(inner))
    }
  }

  /** The operations of this file, each with the ids its path carries. */
  datatype Endpoint =
      DeleteAccountEndpoint(account: string)
    | RetrieveForMyAccountAccountEndpoint
    | ListAccountEndpoint
    | RetrieveAccountEndpoint(account: string)
    | CapabilitiesAccountEndpoint(account: string)
    | PersonsAccountEndpoint(account: string)
    | CreateAccountEndpoint
    | UpdateAccountEndpoint(account: string)
    | RejectAccountEndpoint(account: string)

  /**
   * The operation a method and a path address, read back from the path's
   * segments; `None` for any other request.
   */
  function Route(verb: StripeMethod, path: string): Option<Endpoint>
  {
    var s := Split(path);
    if verb == Delete && |s| == 3 && s[0] == "" && s[1] == "accounts" then Some(DeleteAccountEndpoint(s[2]))
    else if verb == Get && |s| == 2 && s[0] == "" && s[1] == "account" then Some(RetrieveForMyAccountAccountEndpoint)
    else if verb == Get && |s| == 2 && s[0] == "" && s[1] == "accounts" then Some(ListAccountEndpoint)
    else if verb == Get && |s| == 3 && s[0] == "" && s[1] == "accounts" then Some(RetrieveAccountEndpoint(s[2]))
    else if verb == Get && |s| == 4 && s[0] == "" && s[1] == "accounts" && s[3] == "capabilities" then Some(CapabilitiesAccountEndpoint(s[2]))
    else if verb == Get && |s| == 4 && s[0] == "" && s[1] == "accounts" && s[3] == "persons" then Some(PersonsAccountEndpoint(s[2]))
    else if verb == Post && |s| == 2 && s[0] == "" && s[1] == "accounts" then Some(CreateAccountEndpoint)
    else if verb == Post && |s| == 3 && s[0] == "" && s[1] == "accounts" then Some(UpdateAccountEndpoint(s[2]))
    else if verb == Post && |s| == 4 && s[0] == "" && s[1] == "accounts" && s[3] == "reject" then Some(RejectAccountEndpoint(s[2]))
    else Option.None
  }
}
