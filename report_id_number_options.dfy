/**
 * `GelatoReportIdNumberOptions` (misc): an object with no fields.
 *
 * Its builder has no slots: `from_value` accepts every object.
 */
module ReportIdNumberOptions {
  import opened Wrappers
  import opened Json

  datatype IdNumberOptions = IdNumberOptions

  /** `key`: no name has a slot; every key is ignored. */
  function Key(k: string): (r: Option<()>)
    ensures r.None?
  {
    None
  }

  class Builder {
    /** `deser_default`: nothing to set. */
    constructor DeserDefault()
    {
    }

    /** `take_out`: always a value. */
    method TakeOut() returns (r: Option<IdNumberOptions>)
      ensures r == Some(IdNumberOptions)
    {
      r := Some(IdNumberOptions);
    }
  }

  /** The result of `from_value`: every object, and nothing else. */
  function FromValueSpec(v: Value): Option<IdNumberOptions>
  {
    if v.Object? then Some(IdNumberOptions) else None
  }

  /** `from_value`: walk the entries, which touch nothing, then `take_out`. */
  method FromValue(v: Value) returns (r: Option<IdNumberOptions>)
    ensures !v.Object? ==> r.None?
    ensures r == FromValueSpec(v)
  {
    if !v.Object? { return None; }
    var es := v.entries;
    var b := new Builder.DeserDefault();
    var i := 0;
    while i < |es|
      invariant 0 <= i <= |es|
    {
      i := i + 1;
    }
    r := b.TakeOut();
  }

  /** Every object parses, whatever keys it holds, and nothing else does. */
  lemma FromValueObjects(v: Value)
    ensures FromValueSpec(v).Some? <==> v.Object?
  {
  }
}
