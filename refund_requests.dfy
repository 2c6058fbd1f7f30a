/**
 * The requests on refunds (stripe_core): list, retrieve, create, update, cancel
 * and expire a refund. Each parameter struct is public, `new` is its derived
 * `Default`, and its `send` names the method and the path it hands to the client.
 */
module RefundRequests {
  import opened Wrappers
  import opened Requests

  /**
   * `CreateRefundOrigin`: where a refund comes from.
   */
  datatype Origin = CustomerBalance

  /** The wire names of the variants. */
  const OriginNames: set<string> := {"customer_balance"}

  /** `as_str`: the wire name of a variant. */
  function OriginAsStr(e: Origin): (r: string)
    ensures r in OriginNames
  {
    match e
    case CustomerBalance => "customer_balance"
  }

  /** `from_str`: a variant for exactly the listed names, inverting `as_str`; `Err(())` for any other string. */
  function OriginFromStr(s: string): (r: Result<Origin, ()>)
    ensures r.Ok? <==> s in OriginNames
    ensures r.Ok? ==> OriginAsStr(r.value) == s
  {
    match s
    case "customer_balance" => Ok(Origin.CustomerBalance)
    case _ => Err(())
  }

  /** Parsing the wire name of any variant gives that variant back. */
  lemma OriginRoundTrip(e: Origin)
    ensures OriginFromStr(OriginAsStr(e)) == Ok(e)
  {
  }

  /**
   * `CreateRefundReason`: why a refund is made.
   */
  datatype Reason = Duplicate | Fraudulent | RequestedByCustomer

  /** The wire names of the variants. */
  const ReasonNames: set<string> := {"duplicate", "fraudulent", "requested_by_customer"}

  /** `as_str`: the wire name of a variant. */
  function ReasonAsStr(e: Reason): (r: string)
    ensures r in ReasonNames
  {
    match e
    case Duplicate => "duplicate"
    case Fraudulent => "fraudulent"
    case RequestedByCustomer => "requested_by_customer"
  }

  /** `from_str`: a variant for exactly the listed names, inverting `as_str`; `Err(())` for any other string. */
  function ReasonFromStr(s: string): (r: Result<Reason, ()>)
    ensures r.Ok? <==> s in ReasonNames
    ensures r.Ok? ==> ReasonAsStr(r.value) == s
  {
    match s
    case "duplicate" => Ok(Reason.Duplicate)
    case "fraudulent" => Ok(Reason.Fraudulent)
    case "requested_by_customer" => Ok(Reason.RequestedByCustomer)
    case _ => Err(())
  }

  /** Parsing the wire name of any variant gives that variant back. */
  lemma ReasonRoundTrip(e: Reason)
    ensures ReasonFromStr(ReasonAsStr(e)) == Ok(e)
  {
  }

  /**
   * `ListRefund`: the filters of a refund listing.
   */
  datatype ListRefund = ListRefund(
    charge: Option<string>,
    created: Option<RangeQueryTs>,
    endingBefore: Option<string>,
    expand: Option<seq<string>>,
    limit: Option<I64>,
    paymentIntent: Option<string>,
    startingAfter: Option<string>
  )
  {
    /** Whether the field with wire name `name` is serialised: when it is set. */
    predicate Sends(name: string)
    {
      match name
      case "charge" => charge.Some?
      case "created" => created.Some?
      case "ending_before" => endingBefore.Some?
      case "expand" => expand.Some?
      case "limit" => limit.Some?
      case "payment_intent" => paymentIntent.Some?
      case "starting_after" => startingAfter.Some?
      case _ => false
    }

    /** The names of the fields that are serialised. */
    function Serialized(): set<string>
    {
      set n | n in ListRefundFields && Sends(n)
    }

    /** `ListRefund::new`: every field unset. */
    static function New(): (r: ListRefund)
      ensures r.Serialized() == {}
    {
      ListRefund(None, None, None, None, None, None, None)
    }

    /** `send`: the client call it makes is GET `/refunds`, with the parameters as the query string. */
    function Send(): (r: RequestBuilder<ListRefund>)
      ensures r.verb == Get && r.params == Query(this)
      ensures Route(r.verb, r.path) == Some(ListRefundEndpoint)
    {
      SplitJoin(["", "refunds"]);
      RequestBuilder(Get, Join(["", "refunds"]), Query(this))
    }
  }

  /** The wire names of the fields of `ListRefund`. */
  const ListRefundFields: set<string> := {"charge", "created", "ending_before", "expand", "limit", "payment_intent", "starting_after"}

  /**
   * `RetrieveRefund`: the parameters of retrieving one refund.
   */
  datatype RetrieveRefund = RetrieveRefund(
    expand: Option<seq<string>>
  )
  {
    /** Whether the field with wire name `name` is serialised: when it is set. */
    predicate Sends(name: string)
    {
      match name
      case "expand" => expand.Some?
      case _ => false
    }

    /** The names of the fields that are serialised. */
    function Serialized(): set<string>
    {
      set n | n in RetrieveRefundFields && Sends(n)
    }

    /** `RetrieveRefund::new`: every field unset. */
    static function New(): (r: RetrieveRefund)
      ensures r.Serialized() == {}
    {
      RetrieveRefund(None)
    }

    /** `send`: the client call it makes is GET `/refunds/{refund}`, with the parameters as the query string. */
    function Send(refund: string): (r: RequestBuilder<RetrieveRefund>)
      ensures r.verb == Get && r.params == Query(this)
      ensures IsSegment(refund) ==> Route(r.verb, r.path) == Some(RetrieveRefundEndpoint(refund))
    {
      SplitJoinAt(["", "refunds", refund], 2);
      RequestBuilder(Get, Join(["", "refunds", refund]), Query(this))
    }
  }

  /** The wire names of the fields of `RetrieveRefund`. */
  const RetrieveRefundFields: set<string> := {"expand"}

  /**
   * `CreateRefund`: the parameters of a new refund.
   */
  datatype CreateRefund = CreateRefund(
    amount: Option<I64>,
    charge: Option<string>,
    currency: Option<Currency>,
    customer: Option<string>,
    expand: Option<seq<string>>,
    instructionsEmail: Option<string>,
    metadata: Option<map<string, string>>,
    origin: Option<Origin>,
    paymentIntent: Option<string>,
    reason: Option<Reason>,
    refundApplicationFee: Option<bool>,
    reverseTransfer: Option<bool>
  )
  {
    /** Whether the field with wire name `name` is serialised: when it is set. */
    predicate Sends(name: string)
    {
      match name
      case "amount" => amount.Some?
      case "charge" => charge.Some?
      case "currency" => currency.Some?
      case "customer" => customer.Some?
      case "expand" => expand.Some?
      case "instructions_email" => instructionsEmail.Some?
      case "metadata" => metadata.Some?
      case "origin" => origin.Some?
      case "payment_intent" => paymentIntent.Some?
      case "reason" => reason.Some?
      case "refund_application_fee" => refundApplicationFee.Some?
      case "reverse_transfer" => reverseTransfer.Some?
      case _ => false
    }

    /** The names of the fields that are serialised. */
    function Serialized(): set<string>
    {
      set n | n in CreateRefundFields && Sends(n)
    }

    /** `CreateRefund::new`: every field unset. */
    static function New(): (r: CreateRefund)
      ensures r.Serialized() == {}
    {
      CreateRefund(None, None, None, None, None, None, None, None, None, None, None, None)
    }

    /** `send`: the client call it makes is POST `/refunds`, with the parameters as a form body. */
    function Send(): (r: RequestBuilder<CreateRefund>)
      ensures r.verb == Post && r.params == Form(this)
      ensures Route(r.verb, r.path) == Some(CreateRefundEndpoint)
    {
      SplitJoin(["", "refunds"]);
      RequestBuilder(Post, Join(["", "refunds"]), Form(this))
    }
  }

  /** The wire names of the fields of `CreateRefund`. */
  const CreateRefundFields: set<string> := {"amount", "charge", "currency", "customer", "expand", "instructions_email", "metadata", "origin", "payment_intent", "reason", "refund_application_fee", "reverse_transfer"}

  /**
   * `UpdateRefund`: the parameters of updating a refund.
   */
  datatype UpdateRefund = UpdateRefund(
    expand: Option<seq<string>>,
    metadata: Option<map<string, string>>
  )
  {
    /** Whether the field with wire name `name` is serialised: when it is set. */
    predicate Sends(name: string)
    {
      match name
      case "expand" => expand.Some?
      case "metadata" => metadata.Some?
      case _ => false
    }

    /** The names of the fields that are serialised. */
    function Serialized(): set<string>
    {
      set n | n in UpdateRefundFields && Sends(n)
    }

    /** `UpdateRefund::new`: every field unset. */
    static function New(): (r: UpdateRefund)
      ensures r.Serialized() == {}
    {
      UpdateRefund(None, None)
    }

    /** `send`: the client call it makes is POST `/refunds/{refund}`, with the parameters as a form body. */
    function Send(refund: string): (r: RequestBuilder<UpdateRefund>)
      ensures r.verb == Post && r.params == Form(this)
      ensures IsSegment(refund) ==> Route(r.verb, r.path) == Some(UpdateRefundEndpoint(refund))
    {
      SplitJoinAt(["", "refunds", refund], 2);
      RequestBuilder(Post, Join(["", "refunds", refund]), Form(this))
    }
  }

  /** The wire names of the fields of `UpdateRefund`. */
  const UpdateRefundFields: set<string> := {"expand", "metadata"}

  /**
   * `CancelRefund`: the parameters of cancelling a refund.
   */
  datatype CancelRefund = CancelRefund(
    expand: Option<seq<string>>
  )
  {
    /** Whether the field with wire name `name` is serialised: when it is set. */
    predicate Sends(name: string)
    {
      match name
      case "expand" => expand.Some?
      case _ => false
    }

    /** The names of the fields that are serialised. */
    function Serialized(): set<string>
    {
      set n | n in CancelRefundFields && Sends(n)
    }

    /** `CancelRefund::new`: every field unset. */
    static function New(): (r: CancelRefund)
      ensures r.Serialized() == {}
    {
      CancelRefund(None)
    }

    /** `send`: the client call it makes is POST `/refunds/{refund}/cancel`, with the parameters as a form body. */
    function Send(refund: string): (r: RequestBuilder<CancelRefund>)
      ensures r.verb == Post && r.params == Form(this)
      ensures IsSegment(refund) ==> Route(r.verb, r.path) == Some(CancelRefundEndpoint(refund))
    {
      SplitJoinAt(["", "refunds", refund, "cancel"], 2);
      RequestBuilder(Post, Join(["", "refunds", refund, "cancel"]), Form(this))
    }
  }

  /** The wire names of the fields of `CancelRefund`. */
  const CancelRefundFields: set<string> := {"expand"}

  /**
   * `ExpireRefund`: the parameters of expiring a test-mode refund.
   */
  datatype ExpireRefund = ExpireRefund(
    expand: Option<seq<string>>
  )
  {
    /** Whether the field with wire name `name` is serialised: when it is set. */
    predicate Sends(name: string)
    {
      match name
      case "expand" => expand.Some?
      case _ => false
    }

    /** The names of the fields that are serialised. */
    function Serialized(): set<string>
    {
      set n | n in ExpireRefundFields && Sends(n)
    }

    /** `ExpireRefund::new`: every field unset. */
    static function New(): (r: ExpireRefund)
      ensures r.Serialized() == {}
    {
      ExpireRefund(None)
    }

    /** `send`: the client call it makes is POST `/test_helpers/refunds/{refund}/expire`, with the parameters as a form body. */
    function Send(refund: string): (r: RequestBuilder<ExpireRefund>)
      ensures r.verb == Post && r.params == Form(this)
      ensures IsSegment(refund) ==> Route(r.verb, r.path) == Some(ExpireRefundEndpoint(refund))
    {
      SplitJoinAt(["", "test_helpers", "refunds", refund, "expire"], 3);
      RequestBuilder(Post, Join(["", "test_helpers", "refunds", refund, "expire"]), Form(this))
    }
  }

  /** The wire names of the fields of `ExpireRefund`. */
  const ExpireRefundFields: set<string> := {"expand"}

  /** The operations of this file, each with the ids its path carries. */
  datatype Endpoint =
      ListRefundEndpoint
    | RetrieveRefundEndpoint(refund: string)
    | CreateRefundEndpoint
    | UpdateRefundEndpoint(refund: string)
    | CancelRefundEndpoint(refund: string)
    | ExpireRefundEndpoint(refund: string)

  /**
   * The operation a method and a path address, read back from the path's
   * segments; `None` for any other request.
   */
  function Route(verb: StripeMethod, path: string): Option<Endpoint>
  {
    var s := Split(path);
    if verb == Get && |s| == 2 && s[0] == "" && s[1] == "refunds" then Some(ListRefundEndpoint)
    else if verb == Get && |s| == 3 && s[0] == "" && s[1] == "refunds" then Some(RetrieveRefundEndpoint(s[2]))
    else if verb == Post && |s| == 2 && s[0] == "" && s[1] == "refunds" then Some(CreateRefundEndpoint)
    else if verb == Post && |s| == 3 && s[0] == "" && s[1] == "refunds" then Some(UpdateRefundEndpoint(s[2]))
    else if verb == Post && |s| == 4 && s[0] == "" && s[1] == "refunds" && s[3] == "cancel" then Some(CancelRefundEndpoint(s[2]))
    else if verb == Post && |s| == 5 && s[0] == "" && s[1] == "test_helpers" && s[2] == "refunds" && s[4] == "expire" then Some(ExpireRefundEndpoint(s[3]))
    else None
  }
}
