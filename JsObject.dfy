/**
 * The order in which `Object.keys` lists the own properties of a plain
 * JavaScript object (OrdinaryOwnPropertyKeys, section 10.1.11.1 of
 * ECMA-262): first the keys that are array indices, in ascending numeric
 * order, then the other string keys in the order they were created.
 */
module JsObject {
  import opened Seqs

  predicate IsDigit(c: char) {
    '0' <= c <= '9'
  }

  function DigitValue(c: char): nat
    requires IsDigit(c)
  {
    c as int - '0' as int
  }

  /** The number a string of decimal digits denotes. */
  function DigitsValue(s: string): nat
    requires forall i :: 0 <= i < |s| ==> IsDigit(s[i])
  {
    if |s| == 0 then 0 else DigitsValue(s[..|s| - 1]) * 10 + DigitValue(s[|s| - 1])
  }

  /** The largest array index, 2^32 - 2. */
  const MaxArrayIndex: nat := 0xFFFF_FFFE

  /** `k` is the canonical decimal form of an integer between 0 and 2^32 - 2. */
  predicate IsArrayIndex(k: string) {
    && |k| > 0
    && (forall i :: 0 <= i < |k| ==> IsDigit(k[i]))
    && (k[0] != '0' || |k| == 1)
    && DigitsValue(k) <= MaxArrayIndex
  }

  function IndexValue(k: string): nat
    requires IsArrayIndex(k)
  {
    DigitsValue(k)
  }

  /** Every key is an array index and they come in non-decreasing numeric order. */
  predicate Ascending(keys: seq<string>) {
    && (forall i :: 0 <= i < |keys| ==> IsArrayIndex(keys[i]))
    && (forall i, j :: 0 <= i < j < |keys| ==> IndexValue(keys[i]) <= IndexValue(keys[j]))
  }

  /** Places the array index `k` into the ascending list `sorted`. */
  function InsertIndex(k: string, sorted: seq<string>): (r: seq<string>)
    requires IsArrayIndex(k) && Ascending(sorted)
    ensures Ascending(r)
    ensures multiset(r) == multiset(sorted) + multiset{k}
  {
    if |sorted| == 0 then [k]
    else if IndexValue(k) <= IndexValue(sorted[0]) then [k] + sorted
    else
      var rest := InsertIndex(k, sorted[1..]);
      assert sorted == [sorted[0]] + sorted[1..];
      InsertedAfterHead(sorted[0], k, sorted[1..], rest);
      [sorted[0]] + rest
  }

  /** A head no larger than the inserted key and the old tail stays ahead of the new tail. */
  lemma InsertedAfterHead(h: string, k: string, tail: seq<string>, rest: seq<string>)
    requires IsArrayIndex(h) && IsArrayIndex(k) && IndexValue(h) <= IndexValue(k)
    requires Ascending([h] + tail) && Ascending(rest)
    requires multiset(rest) == multiset(tail) + multiset{k}
    ensures Ascending([h] + rest)
  {
    forall j | 0 <= j < |rest| ensures IndexValue(h) <= IndexValue(rest[j]) {
      assert rest[j] in multiset(rest);
      if rest[j] != k {
        assert ([h] + tail)[0] == h;
        assert rest[j] in multiset(tail);
        var t :| 0 <= t < |tail| && tail[t] == rest[j];
        assert ([h] + tail)[t + 1] == tail[t];
      }
    }
    var s := [h] + rest;
    forall i, j | 0 <= i < j < |s| ensures IndexValue(s[i]) <= IndexValue(s[j]) {
      assert s[j] == rest[j - 1];
      if i > 0 { assert s[i] == rest[i - 1]; }
    }
  }

  /** The array-index keys of `created`, sorted by their numeric value. */
  function IndexKeys(created: seq<string>): (r: seq<string>)
    ensures Ascending(r)
  {
    if |created| == 0 then []
    else
      var rest := IndexKeys(created[..|created| - 1]);
      var k := created[|created| - 1];
      if IsArrayIndex(k) then InsertIndex(k, rest) else rest
  }

  /** The keys of `created` that are not array indices, in creation order. */
  function NamedKeys(created: seq<string>): (r: seq<string>)
    ensures forall i :: 0 <= i < |r| ==> !IsArrayIndex(r[i])
  {
    if |created| == 0 then []
    else
      var rest := NamedKeys(created[..|created| - 1]);
      var k := created[|created| - 1];
      if IsArrayIndex(k) then rest else rest + [k]
  }

  /** `Object.keys` of an object whose properties were created in the order `created`. */
  function OwnKeys(created: seq<string>): seq<string> {
    IndexKeys(created) + NamedKeys(created)
  }

  /** `Object.keys` lists every created key exactly as often as it was created. */
  lemma {:induction false} OwnKeysPermutation(created: seq<string>)
    ensures multiset(OwnKeys(created)) == multiset(created)
  {
    if |created| > 0 {
      var p, k := created[..|created| - 1], created[|created| - 1];
      assert created == p + [k];
      OwnKeysPermutation(p);
    }
  }

  /** Corollary: the keys are the created ones, and none is repeated when none was created twice. */
  lemma OwnKeysSameKeys(created: seq<string>)
    ensures forall k :: k in OwnKeys(created) <==> k in created
    ensures Distinct(created) ==> Distinct(OwnKeys(created))
  {
    OwnKeysPermutation(created);
    forall k ensures k in OwnKeys(created) <==> k in created {
      assert k in OwnKeys(created) <==> k in multiset(OwnKeys(created));
      assert k in created <==> k in multiset(created);
    }
  }

  /** Array-index keys come first, in ascending numeric order. */
  lemma OwnKeysIndicesFirst(created: seq<string>)
    ensures forall i, j :: 0 <= i < j < |OwnKeys(created)| && IsArrayIndex(OwnKeys(created)[j]) ==>
      IsArrayIndex(OwnKeys(created)[i]) && IndexValue(OwnKeys(created)[i]) <= IndexValue(OwnKeys(created)[j])
  {
  }

  lemma {:induction false} NamedKeysAppend(a: seq<string>, b: seq<string>)
    ensures NamedKeys(a + b) == NamedKeys(a) + NamedKeys(b)
  {
    if |b| == 0 {
      assert a + b == a;
    } else {
      var p, k := b[..|b| - 1], b[|b| - 1];
      assert a + b == (a + p) + [k];
      assert (a + b)[..|a + b| - 1] == a + p;
      NamedKeysAppend(a, p);
    }
  }

  lemma {:induction false} NamedKeysOfNamed(keys: seq<string>)
    requires forall i :: 0 <= i < |keys| ==> !IsArrayIndex(keys[i])
    ensures NamedKeys(keys) == keys
  {
    if |keys| > 0 {
      var p := keys[..|keys| - 1];
      assert keys == p + [keys[|keys| - 1]];
      NamedKeysOfNamed(p);
    }
  }

  lemma {:induction false} NamedKeysOfIndices(keys: seq<string>)
    requires forall i :: 0 <= i < |keys| ==> IsArrayIndex(keys[i])
    ensures NamedKeys(keys) == []
  {
    if |keys| > 0 {
      NamedKeysOfIndices(keys[..|keys| - 1]);
    }
  }

  /** The keys that are not array indices keep their creation order. */
  lemma OwnKeysNamedOrder(created: seq<string>)
    ensures NamedKeys(OwnKeys(created)) == NamedKeys(created)
  {
    NamedKeysAppend(IndexKeys(created), NamedKeys(created));
    NamedKeysOfIndices(IndexKeys(created));
    NamedKeysOfNamed(NamedKeys(created));
  }

  lemma {:induction false} IndexKeysOfNamed(created: seq<string>)
    requires forall i :: 0 <= i < |created| ==> !IsArrayIndex(created[i])
    ensures IndexKeys(created) == []
  {
    if |created| > 0 {
      IndexKeysOfNamed(created[..|created| - 1]);
    }
  }

  /** When no key is an array index, `Object.keys` is exactly the creation order. */
  lemma OwnKeysCreationOrder(created: seq<string>)
    requires forall i :: 0 <= i < |created| ==> !IsArrayIndex(created[i])
    ensures OwnKeys(created) == created
  {
    IndexKeysOfNamed(created);
    NamedKeysOfNamed(created);
  }

  /** Array indices jump ahead: "20250801" is listed before "2025-08-01" even if created after it. */
  lemma IndexKeyJumpsAhead()
    ensures OwnKeys(["2025-08-01", "20250801"]) == ["20250801", "2025-08-01"]
  {
    var c := ["2025-08-01", "20250801"];
    assert !IsArrayIndex(c[0]) by { assert !IsDigit(c[0][4]); }
    assert DigitsValue("2") == 2;
    assert "20"[..1] == "2";
    assert DigitsValue("20") == 20;
    assert "202"[..2] == "20";
    assert DigitsValue("202") == 202;
    assert "2025"[..3] == "202";
    assert DigitsValue("2025") == 2025;
    assert "20250"[..4] == "2025";
    assert DigitsValue("20250") == 20250;
    assert "202508"[..5] == "20250";
    assert DigitsValue("202508") == 202508;
    assert "2025080"[..6] == "202508";
    assert DigitsValue("2025080") == 2025080;
    assert "20250801"[..7] == "2025080";
    assert DigitsValue("20250801") == 20250801;
    assert IsArrayIndex(c[1]);
    assert c[..1] == ["2025-08-01"] && c[..1][..0] == [];
    assert IndexKeys(c[..1]) == [];
    assert IndexKeys(c) == ["20250801"];
    assert NamedKeys(c[..1]) == ["2025-08-01"];
    assert NamedKeys(c) == ["2025-08-01"];
  }
}
