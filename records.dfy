/** A string-keyed JavaScript object whose key order matters. `Object.keys`,
    `Object.values` and `Object.entries` list the array-index keys first, in
    ascending numeric order, and then every other key in insertion order;
    assigning to an existing key keeps its position. Only own keys are
    modelled: nothing is inherited from `Object.prototype`. */
module Records {

  /** No key is listed twice. */
  ghost predicate Distinct(keys: seq<string>)
    decreases |keys|
  {
    keys == [] || (keys[|keys| - 1] !in keys[..|keys| - 1] && Distinct(keys[..|keys| - 1]))
  }

  /** A list has no repeated key exactly when no key occurs in it more than once. */
  lemma {:induction false} DistinctCounts(keys: seq<string>)
    ensures Distinct(keys) <==> forall k :: multiset(keys)[k] <= 1
    decreases |keys|
  {
    if keys != [] {
      var n := |keys| - 1;
      var front, last := keys[..n], keys[n];
      DistinctCounts(front);
      assert keys == front + [last];
      assert multiset(keys) == multiset(front) + multiset{last};
      if last in front {
        assert multiset(keys)[last] == multiset(front)[last] + 1;
      } else if !Distinct(front) {
        var k :| multiset(front)[k] > 1;
        assert multiset(keys)[k] > 1;
      } else {
        assert forall k :: multiset(keys)[k] <= 1 by {
          forall k
            ensures multiset(keys)[k] <= 1
          {
            if k == last {
              assert multiset(front)[k] == 0;
            }
          }
        }
      }
    }
  }

  /** The value of a decimal digit. */
  function DigitValue(c: char): nat
  {
    if '0' <= c <= '9' then c as int - '0' as int else 0
  }

  /** Every character is a decimal digit. */
  predicate AllDigits(k: string)
    decreases |k|
  {
    k == [] || (AllDigits(k[..|k| - 1]) && '0' <= k[|k| - 1] <= '9')
  }

  /** The number a string of decimal digits spells. */
  function DecimalValue(k: string): nat
    decreases |k|
  {
    if k == [] then 0 else DecimalValue(k[..|k| - 1]) * 10 + DigitValue(k[|k| - 1])
  }

  /** An array index: the decimal form, without leading zeros, of a whole
      number below 2^32 - 1 (section 6.1.7 of ECMA-262). */
  predicate IsIndex(k: string)
  {
    && 0 < |k|
    && AllDigits(k)
    && (k[0] == '0' ==> |k| == 1)
    && DecimalValue(k) < 0xFFFF_FFFF
  }

  /** The keys of `keys` that are array indices (`index`) or that are not. */
  function Select(keys: seq<string>, index: bool): seq<string>
    decreases |keys|
  {
    if keys == [] then []
    else
      var n := |keys| - 1;
      Select(keys[..n], index) + if IsIndex(keys[n]) <==> index then [keys[n]] else []
  }

  /** A selection holds exactly the keys of the kind asked for. */
  lemma {:induction false} SelectMembers(keys: seq<string>, index: bool)
    ensures forall k :: k in Select(keys, index) <==> k in keys && (IsIndex(k) <==> index)
    decreases |keys|
  {
    if keys != [] {
      var n := |keys| - 1;
      SelectMembers(keys[..n], index);
      assert keys == keys[..n] + [keys[n]];
    }
  }

  /** Each key of `keys` lands in exactly one of the two selections. */
  lemma {:induction false} SelectSplits(keys: seq<string>)
    ensures multiset(Select(keys, true)) + multiset(Select(keys, false)) == multiset(keys)
    decreases |keys|
  {
    if keys != [] {
      var n := |keys| - 1;
      var front, last := keys[..n], keys[n];
      SelectSplits(front);
      assert keys == front + [last];
      assert multiset(keys) == multiset(front) + multiset{last};
      if IsIndex(last) {
        assert Select(keys, true) == Select(front, true) + [last];
        assert Select(keys, false) == Select(front, false);
      } else {
        assert Select(keys, true) == Select(front, true);
        assert Select(keys, false) == Select(front, false) + [last];
      }
    }
  }

  /** Numbers in ascending order. */
  ghost predicate Ascending(keys: seq<string>)
  {
    forall i, j :: 0 <= i < j < |keys| ==> DecimalValue(keys[i]) <= DecimalValue(keys[j])
  }

  /** `k` put into an ascending list before the first key whose number is not smaller. */
  function Insert(k: string, sorted: seq<string>): seq<string>
    decreases |sorted|
  {
    if sorted == [] then [k]
    else if DecimalValue(k) <= DecimalValue(sorted[0]) then [k] + sorted
    else [sorted[0]] + Insert(k, sorted[1..])
  }

  /** Inserting adds `k` and keeps an ascending list ascending. */
  lemma {:induction false} InsertSorts(k: string, sorted: seq<string>)
    ensures multiset(Insert(k, sorted)) == multiset(sorted) + multiset{k}
    ensures Ascending(sorted) ==> Ascending(Insert(k, sorted))
    decreases |sorted|
  {
    if sorted == [] {
    } else if DecimalValue(k) <= DecimalValue(sorted[0]) {
      assert Insert(k, sorted) == [k] + sorted;
    } else {
      var rest := Insert(k, sorted[1..]);
      assert Insert(k, sorted) == [sorted[0]] + rest;
      InsertSorts(k, sorted[1..]);
      assert sorted == [sorted[0]] + sorted[1..];
      if Ascending(sorted) {
        InsertAscending(k, sorted, rest);
      }
    }
  }

  /** The step of Insert past a smaller first key keeps the list ascending. */
  lemma InsertAscending(k: string, sorted: seq<string>, rest: seq<string>)
    requires sorted != [] && DecimalValue(sorted[0]) < DecimalValue(k)
    requires multiset(rest) == multiset(sorted[1..]) + multiset{k}
    requires Ascending(sorted)
    requires Ascending(sorted[1..]) ==> Ascending(rest)
    ensures Ascending([sorted[0]] + rest)
  {
    assert Ascending(sorted[1..]);
    var r := [sorted[0]] + rest;
    forall j | 0 <= j < |rest|
      ensures DecimalValue(sorted[0]) <= DecimalValue(rest[j])
    {
      BoundedAfterFirst(k, sorted, rest, rest[j]);
    }
    forall i, j | 0 <= i < j < |r|
      ensures DecimalValue(r[i]) <= DecimalValue(r[j])
    {
      assert r[j] == rest[j - 1];
      if i > 0 {
        assert r[i] == rest[i - 1];
      }
    }
  }

  /** A key of an ascending list, or a key with a larger number, is not
      smaller than the list's first key. */
  lemma BoundedAfterFirst(k: string, sorted: seq<string>, rest: seq<string>, x: string)
    requires sorted != [] && DecimalValue(sorted[0]) < DecimalValue(k)
    requires multiset(rest) == multiset(sorted[1..]) + multiset{k}
    requires Ascending(sorted) && x in rest
    ensures DecimalValue(sorted[0]) <= DecimalValue(x)
  {
    assert x in multiset(rest);
    if x != k {
      assert x in multiset(sorted[1..]);
      var m :| 0 <= m < |sorted[1..]| && sorted[1..][m] == x;
      assert sorted[m + 1] == x;
    }
  }

  /** The keys in ascending numeric order, by insertion. */
  function SortIndices(keys: seq<string>): seq<string>
    decreases |keys|
  {
    if keys == [] then [] else Insert(keys[|keys| - 1], SortIndices(keys[..|keys| - 1]))
  }

  /** Sorting keeps the keys and puts them in ascending order. */
  lemma {:induction false} SortIndicesSorts(keys: seq<string>)
    ensures multiset(SortIndices(keys)) == multiset(keys)
    ensures Ascending(SortIndices(keys))
    decreases |keys|
  {
    if keys != [] {
      var n := |keys| - 1;
      SortIndicesSorts(keys[..n]);
      InsertSorts(keys[n], SortIndices(keys[..n]));
      assert keys == keys[..n] + [keys[n]];
    }
  }

  /** Without array-index keys, the enumeration order is the insertion order. */
  lemma {:induction false} SelectPlain(keys: seq<string>)
    requires forall i :: 0 <= i < |keys| ==> !IsIndex(keys[i])
    ensures Select(keys, true) == [] && Select(keys, false) == keys
    decreases |keys|
  {
    if keys != [] {
      var n := |keys| - 1;
      var front, last := keys[..n], keys[n];
      assert forall i :: 0 <= i < |front| ==> front[i] == keys[i];
      SelectPlain(front);
      assert keys == front + [last];
    }
  }

  /** The sorted array indices followed by the other keys hold the same keys,
      the indices first and in ascending order. */
  lemma OrderParts(keys: seq<string>)
    ensures var indices := SortIndices(Select(keys, true));
            var r := indices + Select(keys, false);
            && multiset(r) == multiset(keys)
            && |indices| == |Select(keys, true)|
            && (forall i :: 0 <= i < |indices| ==> IsIndex(r[i]))
            && Ascending(r[..|indices|])
            && r[|indices|..] == Select(keys, false)
  {
    var indices := SortIndices(Select(keys, true));
    var r := indices + Select(keys, false);
    SortIndicesSorts(Select(keys, true));
    SelectSplits(keys);
    SelectMembers(keys, true);
    assert |indices| == |multiset(indices)| == |multiset(Select(keys, true))| == |Select(keys, true)|;
    forall i | 0 <= i < |indices|
      ensures IsIndex(r[i])
    {
      assert r[i] == indices[i];
      assert indices[i] in multiset(Select(keys, true));
    }
    assert r[..|indices|] == indices;
  }

  datatype Record<V> = Record(keys: seq<string>, entries: map<string, V>)
  {
    /** Keys are listed once each, and exactly the keys of `entries` are listed;
        `keys` is the insertion order. */
    ghost predicate Valid()
    {
      && Distinct(keys)
      && (forall k :: k in entries <==> k in keys)
    }

    /** The order `Object.keys` lists the keys in: the array indices in
        ascending numeric order, then the other keys in insertion order. */
    function Order(): seq<string>
    {
      SortIndices(Select(keys, true)) + Select(keys, false)
    }

    /** The enumeration order lists every key once. */
    lemma OrderValid()
      requires Valid()
      ensures Distinct(Order())
      ensures forall k :: k in Order() <==> k in entries
    {
      OrderParts(keys);
      DistinctCounts(keys);
      DistinctCounts(Order());
      OrderListed();
    }

    /** The enumeration order lists exactly the keys of the object. */
    lemma OrderListed()
      requires Valid()
      ensures forall k :: k in Order() <==> k in entries
    {
      OrderParts(keys);
      assert forall k :: k in Order() <==> k in multiset(keys);
    }

    /** An object with no array-index key lists its keys in insertion order. */
    lemma OrderPlain()
      requires forall k :: k in keys ==> !IsIndex(k)
      ensures Order() == keys
    {
      SelectPlain(keys);
    }

    /** `obj[k] = v`: a new key goes to the end, an existing key keeps its place. */
    function Put(k: string, v: V): (r: Record<V>)
      ensures Valid() ==> r.Valid()
      ensures r.entries == entries[k := v]
      ensures k in entries ==> r.keys == keys
      ensures k !in entries ==> r.keys == keys + [k]
    {
      if k in entries then Record(keys, entries[k := v])
      else
        assert (keys + [k])[..|keys|] == keys;
        Record(keys + [k], entries[k := v])
    }
  }

  /** `{}` */
  function Empty<V>(): (r: Record<V>)
    ensures r.Valid() && r.keys == [] && r.entries == map[]
  {
    Record([], map[])
  }
}
