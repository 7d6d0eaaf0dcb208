/** A JavaScript object used as a dictionary with string keys. Its keys keep
    insertion order (the order `Object.keys` and `Object.entries` report), so
    it is modelled as a sequence of entries with distinct keys. */
module Dict {
  import opened Js

  datatype Entry<V> = Entry(key: string, value: V)

  type Dict<V> = seq<Entry<V>>

  /** `Object.keys(d)`. */
  function Keys<V>(d: Dict<V>): (ks: seq<string>)
    ensures |ks| == |d|
    ensures forall i :: 0 <= i < |d| ==> ks[i] == d[i].key
  {
    if d == [] then [] else [d[0].key] + Keys(d[1..])
  }

  predicate Distinct(ks: seq<string>) {
    forall i, j :: 0 <= i < j < |ks| ==> ks[i] != ks[j]
  }

  /** Every dictionary the program builds has distinct keys. */
  predicate Valid<V>(d: Dict<V>) {
    Distinct(Keys(d))
  }

  /** `d[k]`, with None for `undefined`. */
  function Lookup<V>(d: Dict<V>, k: string): (r: Option<V>)
    ensures r.None? <==> k !in Keys(d)
  {
    if d == [] then None else if d[0].key == k then Some(d[0].value) else Lookup(d[1..], k)
  }

  /** In a dictionary with distinct keys, looking up the key of an entry finds that entry. */
  lemma {:induction false} LookupAt<V>(d: Dict<V>, i: nat)
    requires Valid(d) && i < |d|
    ensures Lookup(d, d[i].key) == Some(d[i].value)
  {
    if i > 0 {
      assert Keys(d)[0] != Keys(d)[i];
      assert Valid(d[1..]) by {
        forall a, b | 0 <= a < b < |d| - 1 ensures Keys(d[1..])[a] != Keys(d[1..])[b] {
          assert Keys(d)[a + 1] != Keys(d)[b + 1];
        }
      }
      LookupAt(d[1..], i - 1);
    }
  }

  /** An entry put in front of a dictionary comes first in its keys and is
      found first by a lookup. */
  lemma ConsFacts<V>(e: Entry<V>, d: Dict<V>)
    ensures Keys([e] + d) == [e.key] + Keys(d)
    ensures forall x :: Lookup([e] + d, x) == if e.key == x then Some(e.value) else Lookup(d, x)
  {
    assert ([e] + d)[0] == e && ([e] + d)[1..] == d;
  }

  lemma AppendAssoc<T>(a: seq<T>, b: seq<T>, c: seq<T>)
    ensures a + (b + c) == (a + b) + c
  {
  }

  /** `{ ...d, [k]: v }`: an existing key keeps its position, a new key goes last. */
  function Assign<V>(d: Dict<V>, k: string, v: V): (r: Dict<V>)
    ensures Lookup(r, k) == Some(v)
    ensures forall x :: x != k ==> Lookup(r, x) == Lookup(d, x)
    ensures k in Keys(d) ==> Keys(r) == Keys(d)
    ensures k !in Keys(d) ==> Keys(r) == Keys(d) + [k]
  {
    if d == [] then
      ConsFacts(Entry(k, v), []);
      [Entry(k, v)]
    else
      ConsFacts(d[0], d[1..]);
      assert d == [d[0]] + d[1..];
      if d[0].key == k then
        ConsFacts(Entry(k, v), d[1..]);
        [Entry(k, v)] + d[1..]
      else
        var rest := Assign(d[1..], k, v);
        ConsFacts(d[0], rest);
        AppendAssoc([d[0].key], Keys(d[1..]), [k]);
        [d[0]] + rest
  }

  lemma AssignValid<V>(d: Dict<V>, k: string, v: V)
    requires Valid(d)
    ensures Valid(Assign(d, k, v))
  {
    var ks := Keys(d);
    if k !in ks {
      assert Keys(Assign(d, k, v)) == ks + [k];
    }
  }

  /** Assigning a key that is not yet present appends one entry. */
  lemma {:induction false} AssignNewKeyAppends<V>(d: Dict<V>, k: string, v: V)
    requires k !in Keys(d)
    ensures Assign(d, k, v) == d + [Entry(k, v)]
  {
    if d != [] {
      var rest, e := d[1..], Entry(k, v);
      assert Keys(d) == [d[0].key] + Keys(rest);
      AssignNewKeyAppends(rest, k, v);
      calc {
        Assign(d, k, v);
        [d[0]] + Assign(rest, k, v);
        [d[0]] + (rest + [e]);
        { AppendAssoc([d[0]], rest, [e]); }
        ([d[0]] + rest) + [e];
        { assert [d[0]] + rest == d; }
        d + [e];
      }
    }
  }

  /** `delete d[k]` on a copy. */
  function Remove<V>(d: Dict<V>, k: string): (r: Dict<V>)
    ensures Lookup(r, k) == None
    ensures forall x :: x != k ==> Lookup(r, x) == Lookup(d, x)
    ensures forall x :: x in Keys(r) <==> x in Keys(d) && x != k
  {
    if d == [] then []
    else if d[0].key == k then Remove(d[1..], k)
    else [d[0]] + Remove(d[1..], k)
  }

  /** Removing a key keeps the remaining keys in order, so distinct keys stay distinct. */
  lemma {:induction false} RemoveValid<V>(d: Dict<V>, k: string)
    requires Valid(d)
    ensures Valid(Remove(d, k))
  {
    if d != [] {
      assert Valid(d[1..]) by {
        forall a, b | 0 <= a < b < |d| - 1 ensures Keys(d[1..])[a] != Keys(d[1..])[b] {
          assert Keys(d)[a + 1] != Keys(d)[b + 1];
        }
      }
      RemoveValid(d[1..], k);
      if d[0].key != k {
        var rest := Remove(d[1..], k);
        assert d[0].key !in Keys(d[1..]) by {
          forall j | 0 <= j < |d| - 1 ensures Keys(d[1..])[j] != d[0].key {
            assert Keys(d)[0] != Keys(d)[j + 1];
          }
        }
        assert d[0].key !in Keys(rest);
        assert Keys([d[0]] + rest) == [d[0].key] + Keys(rest);
      }
    }
  }

  /** `{}`. */
  function Empty<V>(): (r: Dict<V>)
    ensures Keys(r) == [] && Valid(r)
  {
    []
  }
}
