/** Python dictionaries from text to text: pairs with distinct keys, in insertion order. */
module Dicts {
  import opened Options

  type Dict = seq<(string, string)>

  /** d[key] = value: replace in place, or append. */
  function DictSet(d: Dict, key: string, value: string): Dict {
    if d == [] then [(key, value)]
    else if d[0].0 == key then [(key, value)] + d[1..]
    else [d[0]] + DictSet(d[1..], key, value)
  }

  function Lookup(d: Dict, key: string): Option<string> {
    if d == [] then None else if d[0].0 == key then Some(d[0].1) else Lookup(d[1..], key)
  }

  predicate DistinctKeys(d: Dict) {
    forall i, j :: 0 <= i < j < |d| ==> d[i].0 != d[j].0
  }

  predicate HasKey(d: Dict, key: string) {
    exists pair <- d :: pair.0 == key
  }

  lemma {:induction false} DictSetNew(d: Dict, key: string, value: string)
    requires !HasKey(d, key)
    ensures DictSet(d, key, value) == d + [(key, value)]
  {
    if d != [] {
      assert d == [d[0]] + d[1..];
      DictSetNew(d[1..], key, value);
    }
  }

  lemma {:induction false} DictSetKeys(d: Dict, key: string, value: string)
    ensures forall pair <- DictSet(d, key, value) :: pair == (key, value) || pair in d
  {
    if d != [] {
      DictSetKeys(d[1..], key, value);
    }
  }

  lemma {:induction false} DictSetKeepsOthers(d: Dict, key: string, value: string, other: string)
    requires other != key
    ensures Lookup(DictSet(d, key, value), other) == Lookup(d, other)
  {
    if d != [] && d[0].0 != key {
      DictSetKeepsOthers(d[1..], key, value, other);
    }
  }

  lemma {:induction false} DictSetDistinct(d: Dict, key: string, value: string)
    requires DistinctKeys(d)
    ensures DistinctKeys(DictSet(d, key, value))
  {
    if d != [] {
      var rest := DictSet(d[1..], key, value);
      DictSetDistinct(d[1..], key, value);
      DictSetKeys(d[1..], key, value);
      if d[0].0 != key {
        forall j | 0 <= j < |rest|
          ensures rest[j].0 != d[0].0
        {
          if rest[j] in d[1..] {
            var i :| 1 <= i < |d| && d[i] == rest[j];
          }
        }
      }
    }
  }

  /** A dictionary has no more entries than there are keys to choose from. */
  lemma {:induction false} DistinctKeysBound(d: Dict, keys: set<string>)
    requires DistinctKeys(d) && forall pair <- d :: pair.0 in keys
    ensures |d| <= |keys|
    decreases |d|
  {
    if d != [] {
      forall pair <- d[1..]
        ensures pair.0 in keys - {d[0].0}
      {
        var i :| 1 <= i < |d| && d[i] == pair;
      }
      DistinctKeysBound(d[1..], keys - {d[0].0});
      assert |keys - {d[0].0}| == |keys| - 1;
    }
  }
}
