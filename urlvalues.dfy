/** The part of Go's net/url.Values the events compiler uses: a multimap from
    parameter name to an ordered list of values, Set, Add, and Encode, which
    emits the keys in sorted order and each key's values in insertion order.
    Percent-escaping is not modelled: keys and values are emitted verbatim. */
module UrlValues {

  type Values = map<string, seq<string>>

  /** v[key], which is nil (here: empty) for a missing key. */
  function Get(v: Values, key: string): seq<string>
  {
    if key in v then v[key] else []
  }

  /** Values.Set: the key now holds exactly one value. */
  function Set(v: Values, key: string, value: string): (r: Values)
    ensures r.Keys == v.Keys + {key}
    ensures Get(r, key) == [value]
    ensures forall k :: k in v && k != key ==> k in r && r[k] == v[k]
  {
    v[key := [value]]
  }

  /** Values.Add: the value goes after the key's existing values. */
  function Add(v: Values, key: string, value: string): (r: Values)
    ensures r.Keys == v.Keys + {key}
    ensures Get(r, key) == Get(v, key) + [value]
    ensures forall k :: k in v && k != key ==> k in r && r[k] == v[k]
  {
    v[key := Get(v, key) + [value]]
  }

  // ---- byte-wise string order, as sort.Strings uses ----

  /** Strict lexicographic order on strings (code points compare in the same
      order as their UTF-8 bytes). */
  predicate Less(a: string, b: string)
    decreases |a|
  {
    |b| > 0 && (|a| == 0 || a[0] < b[0] || (a[0] == b[0] && Less(a[1..], b[1..])))
  }

  lemma {:induction false} LessIrreflexive(a: string)
    ensures !Less(a, a)
    decreases |a|
  {
    if |a| > 0 { LessIrreflexive(a[1..]); }
  }

  lemma {:induction false} LessAsymmetric(a: string, b: string)
    requires Less(a, b)
    ensures !Less(b, a)
    decreases |a|
  {
    if |a| > 0 && a[0] == b[0] { LessAsymmetric(a[1..], b[1..]); }
  }

  lemma {:induction false} LessTransitive(a: string, b: string, c: string)
    requires Less(a, b) && Less(b, c)
    ensures Less(a, c)
    decreases |a|
  {
    if |a| > 0 && a[0] == b[0] && b[0] == c[0] { LessTransitive(a[1..], b[1..], c[1..]); }
  }

  lemma {:induction false} LessTotal(a: string, b: string)
    requires a != b
    ensures Less(a, b) || Less(b, a)
    decreases |a|
  {
    if |a| > 0 && |b| > 0 && a[0] == b[0] {
      assert a == [a[0]] + a[1..] && b == [b[0]] + b[1..];
      LessTotal(a[1..], b[1..]);
    }
  }

  lemma LessIsAsymmetric()
    ensures forall a, b :: Less(a, b) ==> !Less(b, a)
  {
    forall a, b | Less(a, b) ensures !Less(b, a) { LessAsymmetric(a, b); }
  }

  predicate IsLeast(m: string, keys: set<string>)
  {
    m in keys && forall k :: k in keys && k != m ==> Less(m, k)
  }

  lemma {:induction false} LeastExists(keys: set<string>)
    requires keys != {}
    ensures exists m :: IsLeast(m, keys)
    decreases keys
  {
    var x :| x in keys;
    if keys != {x} {
      var rest := keys - {x};
      LeastExists(rest);
      var m :| IsLeast(m, rest);
      LessTotal(x, m);
      if Less(x, m) {
        forall k | k in keys && k != x ensures Less(x, k) {
          if k != m { LessTransitive(x, m, k); }
        }
        assert IsLeast(x, keys);
      } else {
        assert IsLeast(m, keys);
      }
    } else {
      assert IsLeast(x, keys);
    }
  }

  /** The smallest key of a non-empty set. */
  function Least(keys: set<string>): (m: string)
    requires keys != {}
    ensures IsLeast(m, keys)
  {
    LeastExists(keys);
    LessIsAsymmetric();
    var m :| IsLeast(m, keys);
    m
  }

  /** The keys in strictly increasing order, as sort.Strings leaves them. */
  function SortedKeys(keys: set<string>): seq<string>
    decreases keys
  {
    if keys == {} then []
    else
      var m := Least(keys);
      [m] + SortedKeys(keys - {m})
  }

  /** SortedKeys lists exactly the given keys, in strictly increasing order. */
  lemma {:induction false} SortedKeysSorted(keys: set<string>)
    ensures var ks := SortedKeys(keys);
            (forall i :: 0 <= i < |ks| ==> ks[i] in keys)
            && (forall k :: k in keys ==> k in ks)
            && (forall i, j :: 0 <= i < j < |ks| ==> Less(ks[i], ks[j]))
    decreases keys
  {
    if keys != {} {
      var m := Least(keys);
      var rest := SortedKeys(keys - {m});
      SortedKeysSorted(keys - {m});
      var ks := [m] + rest;
      assert SortedKeys(keys) == ks;
      forall i | 0 <= i < |ks| ensures ks[i] in keys {
        if i > 0 { assert ks[i] == rest[i - 1]; }
      }
      forall k | k in keys ensures k in ks {
        if k != m { assert k in rest; }
      }
      forall i, j | 0 <= i < j < |ks| ensures Less(ks[i], ks[j]) {
        assert ks[j] == rest[j - 1];
        if i > 0 { assert ks[i] == rest[i - 1]; }
      }
    }
  }

  /** Every element of a strictly increasing sequence is distinct from the others. */
  lemma SortedDistinct(ks: seq<string>, i: int, j: int)
    requires forall i, j :: 0 <= i < j < |ks| ==> Less(ks[i], ks[j])
    requires 0 <= i < |ks| && 0 <= j < |ks| && i != j
    ensures ks[i] != ks[j]
  {
    if i < j { LessIrreflexive(ks[i]); } else { LessIrreflexive(ks[j]); }
  }

  /** One (key, value) pair per value, keys in the given order. */
  function PairsOf(v: Values, ks: seq<string>): seq<(string, string)>
  {
    if ks == [] then []
    else seq(|Get(v, ks[0])|, i requires 0 <= i < |Get(v, ks[0])| => (ks[0], Get(v, ks[0])[i])) + PairsOf(v, ks[1..])
  }

  /** The pairs in the order Encode writes them. */
  function Pairs(v: Values): seq<(string, string)>
  {
    PairsOf(v, SortedKeys(v.Keys))
  }

  /** key=value items separated by '&'. */
  function Join(ps: seq<(string, string)>): string
  {
    if ps == [] then ""
    else if |ps| == 1 then ps[0].0 + "=" + ps[0].1
    else ps[0].0 + "=" + ps[0].1 + "&" + Join(ps[1..])
  }

  /** Values.Encode, without escaping. */
  function Encode(v: Values): string
  {
    Join(Pairs(v))
  }

  /** The values listed under one key, in order. */
  function ValuesFor(ps: seq<(string, string)>, key: string): seq<string>
  {
    if ps == [] then []
    else (if ps[0].0 == key then [ps[0].1] else []) + ValuesFor(ps[1..], key)
  }

  lemma {:induction false} ValuesForAppend(a: seq<(string, string)>, b: seq<(string, string)>, key: string)
    ensures ValuesFor(a + b, key) == ValuesFor(a, key) + ValuesFor(b, key)
    decreases |a|
  {
    if a == [] {
      assert a + b == b;
    } else {
      assert (a + b)[0] == a[0] && (a + b)[1..] == a[1..] + b;
      ValuesForAppend(a[1..], b, key);
    }
  }

  lemma {:induction false} ValuesForExpand(k: string, vs: seq<string>, key: string)
    ensures ValuesFor(seq(|vs|, i requires 0 <= i < |vs| => (k, vs[i])), key) == if k == key then vs else []
    decreases |vs|
  {
    var ps := seq(|vs|, i requires 0 <= i < |vs| => (k, vs[i]));
    if vs != [] {
      assert ps[1..] == seq(|vs[1..]|, i requires 0 <= i < |vs[1..]| => (k, vs[1..][i]));
      ValuesForExpand(k, vs[1..], key);
      if k == key { assert vs == [vs[0]] + vs[1..]; }
    }
  }

  lemma {:induction false} ValuesForPairsOf(v: Values, ks: seq<string>, key: string)
    requires forall i, j :: 0 <= i < j < |ks| ==> ks[i] != ks[j]
    ensures ValuesFor(PairsOf(v, ks), key) == if key in ks then Get(v, key) else []
    decreases |ks|
  {
    if ks != [] {
      var vs := Get(v, ks[0]);
      var head := seq(|vs|, i requires 0 <= i < |vs| => (ks[0], vs[i]));
      assert PairsOf(v, ks) == head + PairsOf(v, ks[1..]);
      ValuesForAppend(head, PairsOf(v, ks[1..]), key);
      ValuesForExpand(ks[0], vs, key);
      ValuesForPairsOf(v, ks[1..], key);
      assert key in ks <==> key == ks[0] || key in ks[1..];
      if key == ks[0] {
        assert key !in ks[1..] by {
          forall j | 0 <= j < |ks[1..]| ensures ks[1..][j] != key { assert ks[1..][j] == ks[j + 1]; }
        }
        assert Get(v, key) + [] == Get(v, key);
      }
    }
  }

  /** Encode keeps every value of every key, in the order they were added,
      and nothing else under that key. */
  lemma EncodedValuesOfKey(v: Values, key: string)
    ensures ValuesFor(Pairs(v), key) == Get(v, key)
  {
    var ks := SortedKeys(v.Keys);
    SortedKeysSorted(v.Keys);
    forall i, j | 0 <= i < j < |ks| ensures ks[i] != ks[j] { SortedDistinct(ks, i, j); }
    ValuesForPairsOf(v, ks, key);
  }


  /** The pairs of the first key come first, followed by those of the rest. */
  lemma PairsOfSplit(v: Values, ks: seq<string>, i: nat)
    requires ks != [] && i < |PairsOf(v, ks)|
    ensures |PairsOf(v, ks)| == |Get(v, ks[0])| + |PairsOf(v, ks[1..])|
    ensures i < |Get(v, ks[0])| ==> PairsOf(v, ks)[i].0 == ks[0]
    ensures i >= |Get(v, ks[0])| ==> PairsOf(v, ks)[i] == PairsOf(v, ks[1..])[i - |Get(v, ks[0])|]
  {
  }

  /** The position in ks of the key that pair i was written for. */
  function KeyIndex(v: Values, ks: seq<string>, i: nat): (k: nat)
    requires i < |PairsOf(v, ks)|
    ensures k < |ks| && PairsOf(v, ks)[i].0 == ks[k]
    decreases |ks|
  {
    PairsOfSplit(v, ks, i);
    if i < |Get(v, ks[0])| then 0 else 1 + KeyIndex(v, ks[1..], i - |Get(v, ks[0])|)
  }

  /** Later pairs are written for keys at the same or a later position. */
  lemma {:induction false} KeyIndexMonotone(v: Values, ks: seq<string>, i: nat, j: nat)
    requires i <= j < |PairsOf(v, ks)|
    ensures KeyIndex(v, ks, i) <= KeyIndex(v, ks, j)
    decreases |ks|
  {
    PairsOfSplit(v, ks, j);
    var n := |Get(v, ks[0])|;
    if i >= n {
      KeyIndexMonotone(v, ks[1..], i - n, j - n);
    }
  }

  lemma PairsOfOrdered(v: Values, ks: seq<string>, i: int, j: int)
    requires forall a, b :: 0 <= a < b < |ks| ==> Less(ks[a], ks[b])
    requires 0 <= i <= j < |PairsOf(v, ks)|
    ensures PairsOf(v, ks)[i].0 == PairsOf(v, ks)[j].0 || Less(PairsOf(v, ks)[i].0, PairsOf(v, ks)[j].0)
    ensures PairsOf(v, ks)[i].0 in ks && PairsOf(v, ks)[j].0 in ks
  {
    var a, b := KeyIndex(v, ks, i), KeyIndex(v, ks, j);
    KeyIndexMonotone(v, ks, i, j);
    if a < b {
      assert Less(ks[a], ks[b]);
    }
  }

  /** Encode emits keys in non-decreasing order: all values of a key come
      before any value of a larger key. */
  lemma EncodedKeysSorted(v: Values, i: int, j: int)
    requires 0 <= i <= j < |Pairs(v)|
    ensures Pairs(v)[i].0 == Pairs(v)[j].0 || Less(Pairs(v)[i].0, Pairs(v)[j].0)
  {
    SortedKeysSorted(v.Keys);
    PairsOfOrdered(v, SortedKeys(v.Keys), i, j);
  }
}
