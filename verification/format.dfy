/**
 tosholi/format.py: `_scrub`, which removes `None`-valued entries from
 nested dicts, and what `dump` and `dumps` hand to the TOML encoder. The
 source mutates the dict in place; here `Scrub` returns the scrubbed value.
 */
module Format {
  import opened Wrappers

  /**
   The output of `dataclasses.asdict`: `None`, a scalar, a list (or tuple or
   set), or a dict whose entries keep insertion order.
   */
  datatype Value =
    | Null
    | Scalar(repr: string)
    | Array(items: seq<Value>)
    | Table(entries: seq<(string, Value)>)

  /** The keys of a dict in order. */
  function Keys(es: seq<(string, Value)>): (ks: seq<string>)
    ensures |ks| == |es|
    ensures forall i :: 0 <= i < |es| ==> ks[i] == es[i].0
  {
    if |es| == 0 then [] else [es[0].0] + Keys(es[1..])
  }

  /** No element occurs twice. */
  predicate Distinct<T(==)>(s: seq<T>) {
    forall i, j :: 0 <= i < j < |s| ==> s[i] != s[j]
  }

  /** A Python dict never holds a key twice. */
  predicate DistinctKeys(es: seq<(string, Value)>) {
    Distinct(Keys(es))
  }

  /** `d.get(k)`: the value stored under `k`, if any. */
  function Lookup(es: seq<(string, Value)>, k: string): (r: Option<Value>)
    ensures r.None? <==> k !in Keys(es)
  {
    if |es| == 0 then None
    else if es[0].0 == k then Some(es[0].1)
    else Lookup(es[1..], k)
  }

  /** `a` is `b` with some elements deleted, the rest in their original order. */
  predicate Subsequence<T(==)>(a: seq<T>, b: seq<T>)
    decreases |b|
  {
    |a| == 0 ||
    (|b| > 0 && ((a[0] == b[0] && Subsequence(a[1..], b[1..])) || Subsequence(a, b[1..])))
  }

  /** No dict reachable through dict nesting holds a `None` value. */
  predicate NullFree(v: Value)
    decreases v
  {
    v.Table? ==> forall i :: 0 <= i < |v.entries| ==> !v.entries[i].1.Null? && NullFree(v.entries[i].1)
  }

  /** `_scrub`: drops `None` entries from a dict and scrubs the others; any other value is left alone. */
  function Scrub(v: Value): (r: Value)
    ensures !v.Table? ==> r == v
    ensures v.Table? ==> r.Table? && |r.entries| <= |v.entries|
    ensures NullFree(r)
    decreases v, 1, 0
  {
    match v
    case Table(es) => Table(ScrubEntries(v, 0))
    case _ => v
  }

  /**
   The loop of `_scrub` over a snapshot of the keys, from position `i` of
   dict `d` on: every remaining value is non-`None` and scrubbed, the keys
   kept are exactly those whose value was not `None`, and they keep their
   relative order.
   */
  function ScrubEntries(d: Value, i: nat): (r: seq<(string, Value)>)
    requires d.Table? && i <= |d.entries|
    ensures |r| <= |d.entries| - i
    ensures forall j :: 0 <= j < |r| ==> !r[j].1.Null? && NullFree(r[j].1)
    ensures forall k :: k in Keys(r) <==>
      exists j :: i <= j < |d.entries| && d.entries[j].0 == k && !d.entries[j].1.Null?
    ensures Subsequence(Keys(r), Keys(d.entries[i..]))
    decreases d, 0, |d.entries| - i
  {
    var es := d.entries;
    assert i < |es| ==> Keys(es[i..]) == [es[i].0] + Keys(es[i + 1..]) by {
      if i < |es| {
        assert es[i..][1..] == es[i + 1..];
      }
    }
    if i == |es| then []
    else if es[i].1.Null? then ScrubEntries(d, i + 1)
    else [(es[i].0, Scrub(es[i].1))] + ScrubEntries(d, i + 1)
  }

  /** What `dump` hands the TOML encoder: the `asdict` mapping after `_scrub`. */
  function DumpPayload(data: Value): (r: Value)
    ensures NullFree(r)
    ensures data.Table? ==> r.Table?
  {
    Scrub(data)
  }

  /** What `dumps` hands the TOML encoder: the `asdict` mapping as it is. */
  function DumpsPayload(data: Value): Value {
    data
  }

  /**
   Looking a key up in a scrubbed dict: a key that was absent or held `None`
   is absent, any other key holds its scrubbed value.
   */
  lemma ScrubLookup(d: Value, k: string)
    requires d.Table? && DistinctKeys(d.entries)
    ensures Lookup(d.entries, k).None? ==> Lookup(Scrub(d).entries, k).None?
    ensures Lookup(d.entries, k) == Some(Null) ==> Lookup(Scrub(d).entries, k).None?
    ensures forall v :: Lookup(d.entries, k) == Some(v) && !v.Null? ==>
      Lookup(Scrub(d).entries, k) == Some(Scrub(v))
  {
    ScrubEntriesLookup(d, 0, k);
    assert d.entries[0..] == d.entries;
  }

  /** `ScrubLookup` for the loop from position `i` on. */
  lemma {:induction false} ScrubEntriesLookup(d: Value, i: nat, k: string)
    requires d.Table? && i <= |d.entries| && DistinctKeys(d.entries)
    ensures Lookup(ScrubEntries(d, i), k) ==
      match Lookup(d.entries[i..], k)
      case Some(v) => if v.Null? then None else Some(Scrub(v))
      case None => None
    decreases |d.entries| - i
  {
    var es := d.entries;
    if i < |es| {
      ScrubEntriesLookup(d, i + 1, k);
      assert es[i..][1..] == es[i + 1..];
      if es[i].0 == k {
        var rest := es[i + 1..];
        assert k !in Keys(rest) by {
          forall j | 0 <= j < |rest| ensures Keys(rest)[j] != k {
            assert Keys(rest)[j] == Keys(es)[i + 1 + j];
            assert Keys(es)[i] == k;
          }
        }
      }
    }
  }

  /** Every element of a subsequence occurs in the sequence. */
  lemma {:induction false} SubsequenceElements<T>(a: seq<T>, b: seq<T>, x: T)
    requires Subsequence(a, b) && x in a
    ensures x in b
    decreases |b|
  {
    if a[0] == b[0] && Subsequence(a[1..], b[1..]) {
      if x != a[0] {
        SubsequenceElements(a[1..], b[1..], x);
      }
    } else {
      SubsequenceElements(a, b[1..], x);
    }
  }

  /** A subsequence of a sequence without repeats has none either. */
  lemma {:induction false} SubsequenceDistinct<T>(a: seq<T>, b: seq<T>)
    requires Subsequence(a, b) && Distinct(b)
    ensures Distinct(a)
    decreases |b|
  {
    if |a| > 0 {
      if a[0] == b[0] && Subsequence(a[1..], b[1..]) {
        SubsequenceDistinct(a[1..], b[1..]);
        forall i | 1 <= i < |a| ensures a[i] != a[0] {
          SubsequenceElements(a[1..], b[1..], a[i]);
        }
      } else {
        SubsequenceDistinct(a, b[1..]);
      }
    }
  }

  /** A dict with distinct keys still has distinct keys after scrubbing. */
  lemma ScrubKeepsKeysDistinct(d: Value)
    requires d.Table? && DistinctKeys(d.entries)
    ensures Scrub(d).Table? && DistinctKeys(Scrub(d).entries)
  {
    assert d.entries[0..] == d.entries;
    SubsequenceDistinct(Keys(ScrubEntries(d, 0)), Keys(d.entries));
  }

  /** Scrubbing a value with no `None` in any nested dict changes nothing. */
  lemma {:induction false} ScrubFixesNullFree(v: Value)
    requires NullFree(v)
    ensures Scrub(v) == v
    decreases v, 1, 0
  {
    if v.Table? {
      ScrubEntriesFixesNullFree(v, 0);
      assert v.entries[0..] == v.entries;
    }
  }

  /** `ScrubFixesNullFree` for the entries of a dict from position `i` on. */
  lemma {:induction false} ScrubEntriesFixesNullFree(d: Value, i: nat)
    requires d.Table? && i <= |d.entries| && NullFree(d)
    ensures ScrubEntries(d, i) == d.entries[i..]
    decreases d, 0, |d.entries| - i
  {
    if i < |d.entries| {
      ScrubFixesNullFree(d.entries[i].1);
      ScrubEntriesFixesNullFree(d, i + 1);
      assert d.entries[i..] == [d.entries[i]] + d.entries[i + 1..];
    }
  }

  /** `_scrub` is idempotent. */
  lemma ScrubIdempotent(v: Value)
    ensures Scrub(Scrub(v)) == Scrub(v)
  {
    ScrubFixesNullFree(Scrub(v));
  }

  /** `_scrub` leaves a value unchanged exactly when no nested dict holds `None`. */
  lemma ScrubUnchangedIff(v: Value)
    ensures Scrub(v) == v <==> NullFree(v)
  {
    if NullFree(v) {
      ScrubFixesNullFree(v);
    }
  }

  /** `dump` and `dumps` encode the same mapping exactly when it holds no `None` in nested dicts. */
  lemma DumpDumpsAgree(data: Value)
    ensures DumpPayload(data) == DumpsPayload(data) <==> NullFree(data)
  {
    ScrubUnchangedIff(data);
  }

  /** A `None` field is left out of what `dump` encodes but not of what `dumps` encodes. */
  lemma DumpDropsNoneExample()
    ensures DumpPayload(Table([("field1", Null), ("field2", Scalar("abc"))])) == Table([("field2", Scalar("abc"))])
    ensures Lookup(DumpsPayload(Table([("field1", Null), ("field2", Scalar("abc"))])).entries, "field1") == Some(Null)
  {
  }

  /** Scrubbing descends through dicts only: a dict inside a list keeps its `None`. */
  lemma ScrubNestedExample()
    ensures Scrub(Table([("a", Table([("b", Null), ("c", Scalar("1"))])), ("l", Array([Table([("x", Null)])]))]))
         == Table([("a", Table([("c", Scalar("1"))])), ("l", Array([Table([("x", Null)])]))])
  {
    var inner := Table([("b", Null), ("c", Scalar("1"))]);
    assert ScrubEntries(inner, 1) == [("c", Scalar("1"))];
    assert Scrub(inner) == Table([("c", Scalar("1"))]);
    var outer := Table([("a", inner), ("l", Array([Table([("x", Null)])]))]);
    assert ScrubEntries(outer, 1) == [("l", Array([Table([("x", Null)])]))];
  }
}
