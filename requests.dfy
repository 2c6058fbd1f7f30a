/**
 * What a generated request's `build` hands to the client (stripe_client_core's
 * `RequestBuilder`): an HTTP method, a path, and whether the builder's
 * parameters go into the query string, into a form body, or nowhere.
 *
 * The encoding itself is not part of this model. What it keeps is the
 * observable choice of the serialised fields. Every optional field of a
 * generated builder is `#[serde(skip_serializing_if = "Option::is_none")]`,
 * so a field is serialised exactly when it is set.
 */
module Requests {
  import opened Wrappers

  /** `StripeMethod`. */
  datatype StripeMethod = Get | Post | Delete

  /** The error of every generated `FromStr` on a closed request enum. */
  datatype StripeParseError = StripeParseError

  /** How a request carries its parameters. */
  datatype Params<P> = NoParams | Query(query: P) | Form(form: P)

  /** `RequestBuilder::new(method, path)`, optionally followed by `.query(..)` or `.form(..)`. */
  datatype RequestBuilder<P> = RequestBuilder(verb: StripeMethod, path: string, params: Params<P>)

  /** Rust's `i64`. */
  type I64 = x: int | -0x8000_0000_0000_0000 <= x < 0x8000_0000_0000_0000

  /** `stripe_types::Timestamp`: seconds since the Unix epoch, an `i64`. */
  type Timestamp = I64

  /** `stripe_types::RangeQueryTs`: a timestamp filter; its shape is not part of this model. */
  type RangeQueryTs(==)

  /** `stripe_types::Currency`: a three-letter currency code; its variants are not part of this model. */
  type Currency(==)

  /** A path segment: an id or a literal piece between two slashes. */
  predicate IsSegment(s: string)
  {
    '/' !in s
  }

  /** The segments of a path, split at every '/'; `"/a/b"` gives `["", "a", "b"]`. */
  function Split(s: string): (r: seq<string>)
    ensures |r| >= 1
    ensures forall i :: 0 <= i < |r| ==> IsSegment(r[i])
  {
    if s == [] then [""]
    else if s[0] == '/' then [""] + Split(s[1..])
    else
      var t := Split(s[1..]);
      [[s[0]] + t[0]] + t[1..]
  }

  /** The segments joined with '/', as `format!` builds a path. */
  function Join(segs: seq<string>): (r: string)
    requires |segs| >= 1
  {
    if |segs| == 1 then segs[0] else segs[0] + "/" + Join(segs[1..])
  }

  /** A segment followed by '/' splits off as the first piece. */
  lemma {:induction false} SplitCons(w: string, rest: string)
    requires IsSegment(w)
    ensures Split(w + "/" + rest) == [w] + Split(rest)
    decreases |w|
  {
    if w == [] {
      assert w + "/" + rest == ['/'] + rest;
      assert (['/'] + rest)[1..] == rest;
    } else {
      var s := w + "/" + rest;
      assert s[0] == w[0];
      assert s[1..] == w[1..] + "/" + rest;
      SplitCons(w[1..], rest);
      assert [w[0]] + w[1..] == w;
    }
  }

  /** A single segment splits to itself. */
  lemma {:induction false} SplitSegment(w: string)
    requires IsSegment(w)
    ensures Split(w) == [w]
    decreases |w|
  {
    if w != [] {
      SplitSegment(w[1..]);
      assert [w[0]] + w[1..] == w;
    }
  }

  /** Splitting undoes joining whenever no segment contains a '/'. */
  lemma {:induction false} SplitJoin(segs: seq<string>)
    requires |segs| >= 1
    requires forall i :: 0 <= i < |segs| ==> IsSegment(segs[i])
    ensures Split(Join(segs)) == segs
    decreases |segs|
  {
    if |segs| == 1 {
      SplitSegment(segs[0]);
    } else {
      SplitCons(segs[0], Join(segs[1..]));
      SplitJoin(segs[1..]);
      assert [segs[0]] + segs[1..] == segs;
    }
  }

  /**
   * `SplitJoin` for a path with one unchecked segment, the id at index `k`:
   * the round trip holds once that id is '/'-free.
   */
  lemma SplitJoinAt(segs: seq<string>, k: nat)
    requires k < |segs|
    requires forall i :: 0 <= i < |segs| && i != k ==> IsSegment(segs[i])
    ensures IsSegment(segs[k]) ==> Split(Join(segs)) == segs
  {
    if IsSegment(segs[k]) {
      SplitJoin(segs);
    }
  }
}
