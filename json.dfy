/**
 * The JSON values of miniserde (`miniserde::json::Value`) and the facts about
 * object entries that every generated `from_value` relies on.
 *
 * An object is a sequence of (key, value) entries in iteration order.
 * miniserde stores objects in a sorted map, so a real object has each key at
 * most once; the sequence also admits repeated keys, and every property below
 * holds for any order and any repetition.
 */
module Json {
  import opened Wrappers

  /** A JSON number as miniserde keeps it; floats are opaque. */
  type Float(==)
  datatype Number = U64(u: nat) | I64(i: int) | F64(f: Float)

  datatype Value =
    | Null
    | Bool(b: bool)
    | Number(n: Number)
    | String(s: string)
    | Array(items: seq<Value>)
    | Object(entries: Entries)

  /** `miniserde::Error`: a deserialisation failure, with no detail. */
  datatype DeError = DeError

  type Entry = (string, Value)
  type Entries = seq<Entry>

  /** The value of the last entry under key `k`: the one a loop over the entries stores last. */
  function Lookup(es: Entries, k: string): Option<Value>
  {
    if es == [] then None
    else if es[|es| - 1].0 == k then Some(es[|es| - 1].1)
    else Lookup(es[..|es| - 1], k)
  }

  /** `Lookup` finds a value exactly when the key occurs, and the value it finds is stored under that key. */
  lemma {:induction false} LookupFinds(es: Entries, k: string)
    ensures Lookup(es, k).Some? <==> HasKey(es, k)
    ensures Lookup(es, k).Some? ==> exists i :: 0 <= i < |es| && es[i] == (k, Lookup(es, k).value)
  {
    if es != [] && es[|es| - 1].0 != k {
      var init := es[..|es| - 1];
      LookupFinds(init, k);
      assert forall i :: 0 <= i < |init| ==> init[i] == es[i];
      if HasKey(es, k) {
        var i :| 0 <= i < |es| && es[i].0 == k;
        assert init[i].0 == k;
      }
    }
  }

  /** Some entry has key `k`. */
  predicate HasKey(es: Entries, k: string)
  {
    exists i :: 0 <= i < |es| && es[i].0 == k
  }

  /** Every entry under key `k` converts: the abort variant of `from_value` never stops at `k`. */
  predicate Converts<T>(es: Entries, k: string, conv: Value -> Option<T>)
  {
    forall i :: 0 <= i < |es| && es[i].0 == k ==> conv(es[i].1).Some?
  }

  /**
   * The contents of the builder slot for key `k` after every entry has been
   * assigned to it: the conversion of the last value under `k`, or the slot's
   * default when `k` never occurs.
   */
  function Slot<T>(es: Entries, k: string, conv: Value -> Option<T>, default: Option<T>): Option<T>
  {
    match Lookup(es, k)
    case None => default
    case Some(v) => conv(v)
  }

  /** One more entry: under its own key it replaces the slot, under any other key it is invisible. */
  lemma LookupSnoc(es: Entries, e: Entry, k: string)
    ensures Lookup(es + [e], k) == if e.0 == k then Some(e.1) else Lookup(es, k)
  {
    assert (es + [e])[..|es|] == es;
  }

  /** The entries up to `i + 1` are the entries up to `i` and entry `i`. */
  lemma PrefixSnoc(es: Entries, i: nat)
    requires i < |es|
    ensures es[..i + 1] == es[..i] + [es[i]]
  {
  }

  /** An entry under another key, inserted anywhere, does not change `Lookup`. */
  lemma {:induction false} LookupIgnores(es1: Entries, e: Entry, es2: Entries, k: string)
    requires e.0 != k
    ensures Lookup(es1 + [e] + es2, k) == Lookup(es1 + es2, k)
    decreases |es2|
  {
    if es2 == [] {
      assert es1 + [e] + es2 == es1 + [e];
      assert es1 + es2 == es1;
      LookupSnoc(es1, e, k);
    } else {
      var init, last := es2[..|es2| - 1], es2[|es2| - 1];
      assert es2 == init + [last];
      assert es1 + [e] + es2 == (es1 + [e] + init) + [last];
      assert es1 + es2 == (es1 + init) + [last];
      LookupSnoc(es1 + [e] + init, last, k);
      LookupSnoc(es1 + init, last, k);
      LookupIgnores(es1, e, init, k);
    }
  }

  /** The last entry under `k` decides `Lookup`, whatever came before it. */
  lemma {:induction false} LookupLastWins(es1: Entries, v: Value, es2: Entries, k: string)
    requires forall i :: 0 <= i < |es2| ==> es2[i].0 != k
    ensures Lookup(es1 + [(k, v)] + es2, k) == Some(v)
    decreases |es2|
  {
    if es2 == [] {
      assert es1 + [(k, v)] + es2 == es1 + [(k, v)];
      LookupSnoc(es1, (k, v), k);
    } else {
      var init, last := es2[..|es2| - 1], es2[|es2| - 1];
      assert es1 + [(k, v)] + es2 == (es1 + [(k, v)] + init) + [last];
      LookupSnoc(es1 + [(k, v)] + init, last, k);
      LookupLastWins(es1, v, init, k);
    }
  }

  /** Inserting an entry under another key changes neither `Converts` nor `Slot` for `k`. */
  lemma SlotIgnores<T>(es1: Entries, e: Entry, es2: Entries, k: string, conv: Value -> Option<T>, default: Option<T>)
    requires e.0 != k
    ensures Slot(es1 + [e] + es2, k, conv, default) == Slot(es1 + es2, k, conv, default)
    ensures Converts(es1 + [e] + es2, k, conv) <==> Converts(es1 + es2, k, conv)
  {
    LookupIgnores(es1, e, es2, k);
    ConvertsDrop(es1, e, es2, k, conv);
  }

  /** Dropping an entry that is under another key, or that converts, does not change `Converts` for `k`. */
  lemma ConvertsDrop<T>(es1: Entries, e: Entry, es2: Entries, k: string, conv: Value -> Option<T>)
    requires e.0 != k || conv(e.1).Some?
    ensures Converts(es1 + [e] + es2, k, conv) <==> Converts(es1 + es2, k, conv)
  {
    var long, short := es1 + [e] + es2, es1 + es2;
    if Converts(short, k, conv) {
      forall i | 0 <= i < |long| && long[i].0 == k ensures conv(long[i].1).Some? {
        if i < |es1| {
          assert long[i] == short[i];
        } else if i > |es1| {
          assert long[i] == short[i - 1];
        }
      }
    }
    if Converts(long, k, conv) {
      forall i | 0 <= i < |short| && short[i].0 == k ensures conv(short[i].1).Some? {
        if i < |es1| {
          assert short[i] == long[i];
        } else {
          assert short[i] == long[i + 1];
        }
      }
    }
  }

  /**
   * An earlier entry under `k` is overwritten by a later one: removing it
   * changes no slot, and, when the earlier value converts, no `Converts`.
   */
  lemma SlotOverwritten<T>(es1: Entries, k: string, x1: Value, es2: Entries, x2: Value,
                           j: string, conv: Value -> Option<T>, default: Option<T>)
    ensures Slot(es1 + [(k, x1)] + es2 + [(k, x2)], j, conv, default) == Slot(es1 + es2 + [(k, x2)], j, conv, default)
    ensures j != k || conv(x1).Some? ==>
      (Converts(es1 + [(k, x1)] + es2 + [(k, x2)], j, conv) <==> Converts(es1 + es2 + [(k, x2)], j, conv))
  {
    var tail := es2 + [(k, x2)];
    assert es1 + [(k, x1)] + es2 + [(k, x2)] == es1 + [(k, x1)] + tail;
    assert es1 + es2 + [(k, x2)] == es1 + tail;
    if j != k {
      LookupIgnores(es1, (k, x1), tail, j);
    } else {
      LookupSnoc(es1 + [(k, x1)] + es2, (k, x2), j);
      LookupSnoc(es1 + es2, (k, x2), j);
    }
    if j != k || conv(x1).Some? {
      ConvertsDrop(es1, (k, x1), tail, j, conv);
    }
  }

  /** A value under `k` that fails to convert breaks `Converts` for `k`, wherever it stands. */
  lemma ConvertsFails<T>(es: Entries, i: nat, conv: Value -> Option<T>)
    requires i < |es| && conv(es[i].1).None?
    ensures !Converts(es, es[i].0, conv)
  {
  }

  /** `Converts` for a prefix extended by one entry. */
  lemma ConvertsSnoc<T>(es: Entries, i: nat, k: string, conv: Value -> Option<T>)
    requires i < |es|
    ensures Converts(es[..i + 1], k, conv) <==> Converts(es[..i], k, conv) && (es[i].0 == k ==> conv(es[i].1).Some?)
  {
    assert forall j :: 0 <= j < i ==> es[..i + 1][j] == es[..i][j];
  }

  /** An absent key leaves its slot at the default; a present one gives the conversion of its last value. */
  lemma SlotFilled<T>(es: Entries, k: string, conv: Value -> Option<T>, default: Option<T>)
    ensures Lookup(es, k).None? ==> Slot(es, k, conv, default) == default && Converts(es, k, conv)
    ensures Lookup(es, k).Some? ==> Slot(es, k, conv, default) == conv(Lookup(es, k).value)
    ensures Lookup(es, k).Some? && Converts(es, k, conv) ==> Slot(es, k, conv, default).Some?
  {
    LookupFinds(es, k);
    if Lookup(es, k).Some? {
      var i :| 0 <= i < |es| && es[i] == (k, Lookup(es, k).value);
    }
  }
}
