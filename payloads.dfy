/**
  The insertion-ordered key/value payload every builder keeps (a PHP array
  with string keys), and the three ways the builders change it:
  assignment `$payload[$k] = $v`, `unset($payload[$k])`, and the
  right-biased merge `[...$payload, ...$options]` / `array_merge`.

  A payload is its keys in insertion order, each once, together with the
  value of each key.
 */
module Payloads {
  import opened Values

  datatype Entry = Entry(key: string, value: Value)

  /** The keys in insertion order, and the value of each key. */
  datatype Payload = Payload(keys: seq<string>, values: map<string, Value>)

  predicate Distinct(ks: seq<string>) {
    forall i, j :: 0 <= i < j < |ks| ==> ks[i] != ks[j]
  }

  /** Every key occurs once, and exactly the listed keys have a value: what a PHP array guarantees. */
  ghost predicate WellFormed(p: Payload) {
    Distinct(p.keys) && forall k :: k in p.values <==> k in p.keys
  }

  const Empty: Payload := Payload([], map[])

  /** The keys, in order. */
  function Keys(p: Payload): seq<string> {
    p.keys
  }

  /** `$p[$k]` if the key exists. */
  function Lookup(p: Payload, k: string): (r: Option<Value>)
    ensures r.Some? <==> k in p.values
  {
    if k in p.values then Some(p.values[k]) else None
  }

  /** `$p[$k] ?? null` */
  function ValueOrNull(r: Option<Value>): Value {
    match r
    case Some(v) => v
    case None => Null
  }

  /** `isset($p[$k])`: the key exists and its value is not null. */
  predicate IsSet(p: Payload, k: string) {
    k in p.values && p.values[k] != Null
  }

  /** The entries in order, as `foreach ($p as $key => $value)` visits them. */
  function EntriesOf(p: Payload): (es: seq<Entry>)
    ensures |es| == |p.keys|
    ensures forall i :: 0 <= i < |es| ==> es[i].key == p.keys[i]
    ensures WellFormed(p) ==> forall i :: 0 <= i < |es| ==> es[i].value == p.values[p.keys[i]]
  {
    seq(|p.keys|, i requires 0 <= i < |p.keys| => Entry(p.keys[i], ValueOrNull(Lookup(p, p.keys[i]))))
  }

  /**
    `$p[$k] = $v`: the key now has value `v`; an existing key keeps its
    position and a new key goes last; no other key changes.
   */
  function Set(p: Payload, k: string, v: Value): (r: Payload)
    ensures r.keys == if k in p.values then p.keys else p.keys + [k]
    ensures r.values == p.values[k := v]
  {
    if k in p.values then Payload(p.keys, p.values[k := v])
    else Payload(p.keys + [k], p.values[k := v])
  }

  /** `ks` without the key `k`, order kept. */
  function Without(ks: seq<string>, k: string): (r: seq<string>)
    ensures forall x :: x in r <==> x in ks && x != k
    ensures Distinct(ks) ==> Distinct(r)
  {
    if ks == [] then []
    else
      var rest := Without(ks[1..], k);
      assert Distinct(ks) ==> Distinct(ks[1..]) && ks[0] !in rest by {
        if Distinct(ks) {
          assert forall i, j :: 0 <= i < j < |ks[1..]| ==> ks[1..][i] == ks[i + 1] && ks[1..][j] == ks[j + 1];
          assert ks[0] !in ks[1..];
        }
      }
      (if ks[0] == k then [] else [ks[0]]) + rest
  }

  /** `unset($p[$k])`: the key is gone, every other entry stays where it was. */
  function Unset(p: Payload, k: string): (r: Payload)
    ensures r.keys == Without(p.keys, k)
    ensures r.values == p.values - {k}
  {
    Payload(Without(p.keys, k), p.values - {k})
  }

  /** The keys of `ks` that have no value in `seen`, in the order of `ks`. */
  function NewKeys(ks: seq<string>, seen: map<string, Value>): seq<string> {
    if ks == [] then [] else (if ks[0] in seen then [] else [ks[0]]) + NewKeys(ks[1..], seen)
  }

  /** A key is new exactly when it is among `ks` and has no value in `seen`. */
  lemma {:induction false} NewKeysMember(ks: seq<string>, seen: map<string, Value>, x: string)
    ensures x in NewKeys(ks, seen) <==> x in ks && x !in seen
  {
    if ks != [] {
      NewKeysMember(ks[1..], seen, x);
      assert ks == [ks[0]] + ks[1..];
    }
  }

  lemma {:induction false} NewKeysIgnoresAbsent(ks: seq<string>, seen: map<string, Value>, x: string, v: Value)
    requires x !in ks
    ensures NewKeys(ks, seen[x := v]) == NewKeys(ks, seen)
  {
    if ks != [] {
      NewKeysIgnoresAbsent(ks[1..], seen, x, v);
    }
  }

  /** A payload without its first key. */
  function Rest(o: Payload): (r: Payload)
    requires WellFormed(o) && o.keys != []
    ensures WellFormed(r)
    ensures r.keys == o.keys[1..]
    ensures r.values == o.values - {o.keys[0]}
  {
    assert o.keys[0] !in o.keys[1..] by {
      assert forall j :: 0 <= j < |o.keys[1..]| ==> o.keys[1..][j] == o.keys[j + 1];
    }
    assert Distinct(o.keys[1..]) by {
      forall i, j | 0 <= i < j < |o.keys[1..]| ensures o.keys[1..][i] != o.keys[1..][j] {
        assert o.keys[1..][i] == o.keys[i + 1] && o.keys[1..][j] == o.keys[j + 1];
      }
    }
    Payload(o.keys[1..], o.values - {o.keys[0]})
  }

  /**
    `[...$p, ...$o]` (and `array_merge($p, $o)` for string keys), computed
    as PHP does: each entry of `o` is assigned in turn. The result keeps the
    keys of `p` where they were, appends the new keys in `o`'s order, and
    takes every value of `o` over the one in `p`.
   */
  function Merge(p: Payload, o: Payload): (r: Payload)
    requires WellFormed(o)
    ensures r.keys == p.keys + NewKeys(o.keys, p.values)
    ensures r.values == p.values + o.values
    decreases |o.keys|
  {
    if o.keys == [] then
      MergeNothing(p, o);
      p
    else
      var k := o.keys[0];
      var r := Merge(Set(p, k, o.values[k]), Rest(o));
      MergeKeysStep(p.keys, p.values, k, o.values[k], o.keys[1..]);
      MergeValuesStep(p.values, o.values, k);
      r
  }

  lemma MergeNothing(p: Payload, o: Payload)
    requires WellFormed(o) && o.keys == []
    ensures NewKeys(o.keys, p.values) == [] && p.values + o.values == p.values
  {
    assert o.values == map[];
  }

  lemma MergeValuesStep(pv: map<string, Value>, ov: map<string, Value>, k: string)
    requires k in ov
    ensures pv[k := ov[k]] + (ov - {k}) == pv + ov
  {
  }

  lemma MergeKeysStep(kp: seq<string>, seen: map<string, Value>, k: string, v: Value, ko: seq<string>)
    requires k !in ko
    ensures (if k in seen then kp else kp + [k]) + NewKeys(ko, seen[k := v]) == kp + NewKeys([k] + ko, seen)
  {
    var ks := [k] + ko;
    assert ks[0] == k && ks[1..] == ko;
    NewKeysIgnoresAbsent(ko, seen, k, v);
    if k in seen {
      assert NewKeys(ks, seen) == [] + NewKeys(ko, seen);
    } else {
      assert NewKeys(ks, seen) == [k] + NewKeys(ko, seen);
      assert (kp + [k]) + NewKeys(ko, seen) == kp + ([k] + NewKeys(ko, seen));
    }
  }

  // ---------------------------------------------------------------------------
  // The payload operations keep a payload a well-formed PHP array
  // ---------------------------------------------------------------------------

  lemma EmptyWellFormed()
    ensures WellFormed(Empty)
  {
  }

  lemma SetWellFormed(p: Payload, k: string, v: Value)
    requires WellFormed(p)
    ensures WellFormed(Set(p, k, v))
  {
    if k !in p.values {
      var ks := p.keys + [k];
      assert forall i :: 0 <= i < |p.keys| ==> ks[i] == p.keys[i];
    }
  }

  lemma UnsetWellFormed(p: Payload, k: string)
    requires WellFormed(p)
    ensures WellFormed(Unset(p, k))
  {
  }

  lemma MergeWellFormed(p: Payload, o: Payload)
    requires WellFormed(p) && WellFormed(o)
    ensures WellFormed(Merge(p, o))
  {
    var r := Merge(p, o);
    var nk := NewKeys(o.keys, p.values);
    forall x | x in nk ensures x !in p.keys {
      NewKeysMember(o.keys, p.values, x);
    }
    NewKeysDistinct(o.keys, p.values);
    DistinctAppend(p.keys, nk);
    forall k ensures k in r.values <==> k in r.keys {
      NewKeysMember(o.keys, p.values, k);
    }
  }

  lemma DistinctAppend(a: seq<string>, b: seq<string>)
    requires Distinct(a) && Distinct(b)
    requires forall x :: x in b ==> x !in a
    ensures Distinct(a + b)
  {
    forall i, j | 0 <= i < j < |a + b| ensures (a + b)[i] != (a + b)[j] {
      if j < |a| {
        assert (a + b)[i] == a[i] && (a + b)[j] == a[j];
      } else if i < |a| {
        assert (a + b)[i] == a[i] && (a + b)[j] == b[j - |a|];
        assert b[j - |a|] in b;
      } else {
        assert (a + b)[i] == b[i - |a|] && (a + b)[j] == b[j - |a|];
      }
    }
  }

  lemma {:induction false} NewKeysDistinct(ks: seq<string>, seen: map<string, Value>)
    requires Distinct(ks)
    ensures Distinct(NewKeys(ks, seen))
  {
    if ks != [] {
      assert Distinct(ks[1..]) by {
        forall i, j | 0 <= i < j < |ks[1..]| ensures ks[1..][i] != ks[1..][j] {
          assert ks[1..][i] == ks[i + 1] && ks[1..][j] == ks[j + 1];
        }
      }
      NewKeysDistinct(ks[1..], seen);
      assert ks[0] !in ks[1..] by {
        assert forall j :: 0 <= j < |ks[1..]| ==> ks[1..][j] == ks[j + 1];
      }
      NewKeysMember(ks[1..], seen, ks[0]);
      DistinctAppend(if ks[0] in seen then [] else [ks[0]], NewKeys(ks[1..], seen));
    }
  }

  // ---------------------------------------------------------------------------
  // Properties of the payload operations
  // ---------------------------------------------------------------------------

  /** Looking up a key after assigning it gives the value; no other key changes. */
  lemma LookupSet(p: Payload, k: string, v: Value, j: string)
    ensures Lookup(Set(p, k, v), j) == if j == k then Some(v) else Lookup(p, j)
  {
  }

  /** After `unset`, the key is absent; no other key changes. */
  lemma LookupUnset(p: Payload, k: string, j: string)
    ensures Lookup(Unset(p, k), j) == if j == k then None else Lookup(p, j)
  {
  }

  /** Assigning a new key appends exactly one entry at the end. */
  lemma SetAppends(p: Payload, k: string, v: Value)
    requires WellFormed(p) && k !in p.values
    ensures EntriesOf(Set(p, k, v)) == EntriesOf(p) + [Entry(k, v)]
  {
    var r := Set(p, k, v);
    assert forall i :: 0 <= i < |p.keys| ==> p.keys[i] != k;
  }

  /** Assigning an existing key rewrites that entry in place and nothing else. */
  lemma SetInPlace(p: Payload, k: string, v: Value, i: nat)
    requires WellFormed(p) && i < |p.keys| && p.keys[i] == k
    ensures EntriesOf(Set(p, k, v)) == EntriesOf(p)[i := Entry(k, v)]
  {
    var r := Set(p, k, v);
    forall j | 0 <= j < |p.keys| && j != i ensures p.keys[j] != k {
    }
  }

  /** Assigning a key twice: the last assignment wins. */
  lemma SetOverwrites(p: Payload, k: string, v1: Value, v2: Value)
    ensures Set(Set(p, k, v1), k, v2) == Set(p, k, v2)
  {
    assert p.values[k := v1][k := v2] == p.values[k := v2];
  }

  /** Assigning a key its current value changes nothing. */
  lemma SetSameValue(p: Payload, k: string)
    requires k in p.values
    ensures Set(p, k, p.values[k]) == p
  {
    assert p.values[k := p.values[k]] == p.values;
  }

  /** Removing a key that was just added gives back the payload before. */
  lemma {:induction false} UnsetUndoesSet(p: Payload, k: string, v: Value)
    requires WellFormed(p) && k !in p.values
    ensures Unset(Set(p, k, v), k) == p
  {
    WithoutAbsent(p.keys, k);
    WithoutLast(p.keys, k);
    assert p.values[k := v] - {k} == p.values;
  }

  lemma {:induction false} WithoutAbsent(ks: seq<string>, k: string)
    requires k !in ks
    ensures Without(ks, k) == ks
  {
    if ks != [] {
      WithoutAbsent(ks[1..], k);
    }
  }

  lemma {:induction false} WithoutLast(ks: seq<string>, k: string)
    ensures Without(ks + [k], k) == Without(ks, k)
  {
    if ks == [] {
      assert [k][1..] == [];
    } else {
      assert (ks + [k])[1..] == ks[1..] + [k];
      WithoutLast(ks[1..], k);
    }
  }

  /** `unset` twice is `unset` once. */
  lemma UnsetIdempotent(p: Payload, k: string)
    ensures Unset(Unset(p, k), k) == Unset(p, k)
  {
    var r := Unset(p, k);
    WithoutAbsent(r.keys, k);
    assert r.values - {k} == r.values;
  }

  /** `unset` of an absent key leaves a well-formed payload as it was. */
  lemma UnsetAbsent(p: Payload, k: string)
    requires WellFormed(p) && k !in p.values
    ensures Unset(p, k) == p
  {
    WithoutAbsent(p.keys, k);
    assert p.values - {k} == p.values;
  }

  /** Merging nothing changes nothing. */
  lemma MergeEmpty(p: Payload)
    ensures Merge(p, Empty) == p
  {
  }

  /** Options whose keys are all new are appended in their own order. */
  lemma MergeFreshAppends(p: Payload, o: Payload)
    requires WellFormed(o)
    requires forall k :: k in o.keys ==> k !in p.values
    ensures Merge(p, o).keys == p.keys + o.keys
  {
    NewKeysAllNew(o.keys, p.values);
  }

  lemma {:induction false} NewKeysAllNew(ks: seq<string>, seen: map<string, Value>)
    requires forall k :: k in ks ==> k !in seen
    ensures NewKeys(ks, seen) == ks
  {
    if ks != [] {
      NewKeysAllNew(ks[1..], seen);
    }
  }

  /** Merging the same options again changes nothing more. */
  lemma MergeIdempotent(p: Payload, o: Payload)
    requires WellFormed(o)
    ensures Merge(Merge(p, o), o) == Merge(p, o)
  {
    var r := Merge(p, o);
    var m := Merge(r, o);
    NewKeysAllSeen(o.keys, r.values);
    assert m.keys == r.keys;
    assert m.values == r.values by {
      MapUnionAbsorbs(r.values, o.values);
    }
  }

  lemma MapUnionAbsorbs(a: map<string, Value>, b: map<string, Value>)
    requires forall k :: k in b ==> k in a && a[k] == b[k]
    ensures a + b == a
  {
  }

  lemma {:induction false} NewKeysAllSeen(ks: seq<string>, seen: map<string, Value>)
    requires forall k :: k in ks ==> k in seen
    ensures NewKeys(ks, seen) == []
  {
    if ks != [] {
      NewKeysAllSeen(ks[1..], seen);
    }
  }

  /** Merging a single entry is assigning it. */
  lemma MergeSingle(p: Payload, k: string, v: Value)
    ensures WellFormed(Payload([k], map[k := v]))
    ensures Merge(p, Payload([k], map[k := v])) == Set(p, k, v)
  {
    assert NewKeys([k], p.values) == if k in p.values then [] else [k] by {
      assert [k][1..] == [];
    }
  }
}
