/**
 * The requests on Treasury transaction entries (async-stripe-treasury):
 * listing the entries of a financial account and retrieving one entry.
 */
module TreasuryTransactionEntryRequests {
  import opened Wrappers
  import opened Requests

  /**
   * `ListTreasuryTransactionEntryOrderBy`: the timestamp the listed entries are ordered by.
   */
  datatype OrderBy = Created | EffectiveAt

  /** The wire names of the variants. */
  const OrderByNames: set<string> := {"created", "effective_at"}

  /** `as_str`: the wire name of a variant. */
  function OrderByAsStr(e: OrderBy): (r: string)
    ensures r in OrderByNames
  {
    match e
    case Created => "created"
    case EffectiveAt => "effective_at"
  }

  /** `from_str`: a variant for exactly the listed names, inverting `as_str`; `StripeParseError` for any other string. */
  function OrderByFromStr(s: string): (r: Result<OrderBy, StripeParseError>)
    ensures r.Ok? <==> s in OrderByNames
    ensures r.Ok? ==> OrderByAsStr(r.value) == s
  {
    match s
    case "created" => Ok(OrderBy.Created)
    case "effective_at" => Ok(OrderBy.EffectiveAt)
    case _ => Err(StripeParseError)
  }

  /** Parsing the wire name of any variant gives that variant back. */
  lemma OrderByRoundTrip(e: OrderBy)
    ensures OrderByFromStr(OrderByAsStr(e)) == Ok(e)
  {
  }

  /**
   * `ListTreasuryTransactionEntryBuilder`: the parameters of `ListTreasuryTransactionEntry`.
   */
  datatype ListTreasuryTransactionEntryBuilder = ListTreasuryTransactionEntryBuilder(
    created: Option<RangeQueryTs>,
    effectiveAt: Option<RangeQueryTs>,
    endingBefore: Option<string>,
    expand: Option<seq<string>>,
    financialAccount: string,
    limit: Option<I64>,
    orderBy: Option<OrderBy>,
    startingAfter: Option<string>,
    transaction: Option<string>
  )
  {
    /** Whether the field with wire name `name` is serialised: a required field always, an optional one when it is set. */
    predicate Sends(name: string)
    {
      match name
      case "created" => created.Some?
      case "effective_at" => effectiveAt.Some?
      case "ending_before" => endingBefore.Some?
      case "expand" => expand.Some?
      case "financial_account" => true
      case "limit" => limit.Some?
      case "order_by" => orderBy.Some?
      case "starting_after" => startingAfter.Some?
      case "transaction" => transaction.Some?
      case _ => false
    }

    /** The names of the fields that are serialised. */
    function Serialized(): set<string>
    {
      set n | n in ListTreasuryTransactionEntryBuilderFields && Sends(n)
    }

    /** `ListTreasuryTransactionEntryBuilder::new`: the required field as given, every optional field unset. */
    static function New(financialAccount: string): (r: ListTreasuryTransactionEntryBuilder)
      ensures r.financialAccount == financialAccount
      ensures r.Serialized() == {"financial_account"}
    {
      ListTreasuryTransactionEntryBuilder(None, None, None, None, financialAccount, None, None, None, None)
    }
  }

  /** The wire names of the fields of `ListTreasuryTransactionEntryBuilder`. */
  const ListTreasuryTransactionEntryBuilderFields: set<string> := {"created", "effective_at", "ending_before", "expand", "financial_account", "limit", "order_by", "starting_after", "transaction"}

  /**
   * `ListTreasuryTransactionEntry`: list the transaction entries of one financial account.
   */
  datatype ListTreasuryTransactionEntry = ListTreasuryTransactionEntry(inner: ListTreasuryTransactionEntryBuilder)
  {
    /** `ListTreasuryTransactionEntry::new`: `financial_account` as given, every optional parameter unset. */
    static function New(financialAccount: string): (r: ListTreasuryTransactionEntry)
      ensures r.inner.financialAccount == financialAccount
      ensures r.inner.Serialized() == {"financial_account"}
    {
      ListTreasuryTransactionEntry(ListTreasuryTransactionEntryBuilder.New(financialAccount))
    }

    /** `created`: sets `created` and nothing else. */
    function Created(created: RangeQueryTs): (r: ListTreasuryTransactionEntry)
      ensures r.inner.created == Some(created)
      ensures r.(inner := r.inner.(created := inner.created)) == this
      ensures r.inner.Serialized() == inner.Serialized() + {"created"}
    {
      this.(inner := inner.(created := Some(created)))
    }

    /** `effective_at`: sets `effective_at` and nothing else. */
    function EffectiveAt(effectiveAt: RangeQueryTs): (r: ListTreasuryTransactionEntry)
      ensures r.inner.effectiveAt == Some(effectiveAt)
      ensures r.(inner := r.inner.(effectiveAt := inner.effectiveAt)) == this
      ensures r.inner.Serialized() == inner.Serialized() + {"effective_at"}
    {
      this.(inner := inner.(effectiveAt := Some(effectiveAt)))
    }

    /** `ending_before`: sets `ending_before` and nothing else. */
    function EndingBefore(endingBefore: string): (r: ListTreasuryTransactionEntry)
      ensures r.inner.endingBefore == Some(endingBefore)
      ensures r.(inner := r.inner.(endingBefore := inner.endingBefore)) == this
      ensures r.inner.Serialized() == inner.Serialized() + {"ending_before"}
    {
      this.(inner := inner.(endingBefore := Some(endingBefore)))
    }

    /** `expand`: sets `expand` and nothing else. */
    function Expand(expand: seq<string>): (r: ListTreasuryTransactionEntry)
      ensures r.inner.expand == Some(expand)
      ensures r.(inner := r.inner.(expand := inner.expand)) == this
      ensures r.inner.Serialized() == inner.Serialized() + {"expand"}
    {
      this.(inner := inner.(expand := Some(expand)))
    }

    /** `limit`: sets `limit` and nothing else. */
    function Limit(limit: I64): (r: ListTreasuryTransactionEntry)
      ensures r.inner.limit == Some(limit)
      ensures r.(inner := r.inner.(limit := inner.limit)) == this
      ensures r.inner.Serialized() == inner.Serialized() + {"limit"}
    {
      this.(inner := inner.(limit := Some(limit)))
    }

    /** `order_by`: sets `order_by` and nothing else. */
    function OrderBy(orderBy: OrderBy): (r: ListTreasuryTransactionEntry)
      ensures r.inner.orderBy == Some(orderBy)
      ensures r.(inner := r.inner.(orderBy := inner.orderBy)) == this
      ensures r.inner.Serialized() == inner.Serialized() + {"order_by"}
    {
      this.(inner := inner.(orderBy := Some(orderBy)))
    }

    /** `starting_after`: sets `starting_after` and nothing else. */
    function StartingAfter(startingAfter: string): (r: ListTreasuryTransactionEntry)
      ensures r.inner.startingAfter == Some(startingAfter)
      ensures r.(inner := r.inner.(startingAfter := inner.startingAfter)) == this
      ensures r.inner.Serialized() == inner.Serialized() + {"starting_after"}
    {
      this.(inner := inner.(startingAfter := Some(startingAfter)))
    }

    /** `transaction`: sets `transaction` and nothing else. */
    function Transaction(transaction: string): (r: ListTreasuryTransactionEntry)
      ensures r.inner.transaction == Some(transaction)
      ensures r.(inner := r.inner.(transaction := inner.transaction)) == this
      ensures r.inner.Serialized() == inner.Serialized() + {"transaction"}
    {
      this.(inner := inner.(transaction := Some(transaction)))
    }

    /** `build`: GET `/treasury/transaction_entries`, with the builder as the query string. */
    function Build(): (r: RequestBuilder<ListTreasuryTransactionEntryBuilder>)
      ensures r.verb == Get && r.params == Query(inner)
      ensures Route(r.verb, r.path) == Some(ListTreasuryTransactionEntryEndpoint)
    {
      SplitJoin(["", "treasury", "transaction_entries"]);
      RequestBuilder(Get, Join(["", "treasury", "transaction_entries"]), Query(inner))
    }
  }

  /**
   * `RetrieveTreasuryTransactionEntryBuilder`: the parameters of `RetrieveTreasuryTransactionEntry`.
   */
  datatype RetrieveTreasuryTransactionEntryBuilder = RetrieveTreasuryTransactionEntryBuilder(
    expand: Option<seq<string>>
  )
  {
    /** Whether the field with wire name `name` is serialised: when it is set. */
    predicate Sends(name: string)
    {
      match name
      case "expand" => expand.Some?
      case _ => false
    }

    /** The names of the fields that are serialised. */
    function Serialized(): set<string>
    {
      set n | n in RetrieveTreasuryTransactionEntryBuilderFields && Sends(n)
    }

    /** `RetrieveTreasuryTransactionEntryBuilder::new`: every field unset. */
    static function New(): (r: RetrieveTreasuryTransactionEntryBuilder)
      ensures r.Serialized() == {}
    {
      RetrieveTreasuryTransactionEntryBuilder(None)
    }
  }

  /** The wire names of the fields of `RetrieveTreasuryTransactionEntryBuilder`. */
  const RetrieveTreasuryTransactionEntryBuilderFields: set<string> := {"expand"}

  /**
   * `RetrieveTreasuryTransactionEntry`: retrieve one transaction entry by id.
   */
  datatype RetrieveTreasuryTransactionEntry = RetrieveTreasuryTransactionEntry(inner: RetrieveTreasuryTransactionEntryBuilder, id: string)
  {
    /** `RetrieveTreasuryTransactionEntry::new`: `id` as given, every optional parameter unset. */
    static function New(id: string): (r: RetrieveTreasuryTransactionEntry)
      ensures r.id == id
      ensures r.inner.Serialized() == {}
    {
      RetrieveTreasuryTransactionEntry(RetrieveTreasuryTransactionEntryBuilder.New(), id)
    }

    /** `expand`: sets `expand` and nothing else. */
    function Expand(expand: seq<string>): (r: RetrieveTreasuryTransactionEntry)
      ensures r.inner.expand == Some(expand)
      ensures r.(inner := r.inner.(expand := inner.expand)) == this
      ensures r.inner.Serialized() == inner.Serialized() + {"expand"}
    {
      this.(inner := inner.(expand := Some(expand)))
    }

    /** `build`: GET `/treasury/transaction_entries/{id}`, with the builder as the query string. */
    function Build(): (r: RequestBuilder<RetrieveTreasuryTransactionEntryBuilder>)
      ensures r.verb == Get && r.params == Query(inner)
      ensures IsSegment(id) ==> Route(r.verb, r.path) == Some(RetrieveTreasuryTransactionEntryEndpoint(id))
    {
      SplitJoinAt(["", "treasury", "transaction_entries", id], 3);
      RequestBuilder(Get, Join(["", "treasury", "transaction_entries", id]), Query(inner))
    }
  }

  /** The operations of this file, each with the ids its path carries. */
  datatype Endpoint =
      ListTreasuryTransactionEntryEndpoint
    | RetrieveTreasuryTransactionEntryEndpoint(id: string)

  /**
   * The operation a method and a path address, read back from the path's
   * segments; `None` for any other request.
   */
  function Route(verb: StripeMethod, path: string): Option<Endpoint>
  {
    var s := Split(path);
    if verb == Get && |s| == 3 && s[0] == "" && s[1] == "treasury" && s[2] == "transaction_entries" then Some(ListTreasuryTransactionEntryEndpoint)
    else if verb == Get && |s| == 4 && s[0] == "" && s[1] == "treasury" && s[2] == "transaction_entries" then Some(RetrieveTreasuryTransactionEntryEndpoint(s[3]))
    else None
  }
}
