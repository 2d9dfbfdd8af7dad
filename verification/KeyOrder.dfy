// Signing keys in sorted order, and sums of weights over them, independent of any iteration order.
module KeyOrder {
  // Go's string order.
  predicate Less(a: string, b: string) {
    b != "" && (a == "" || a[0] < b[0] || (a[0] == b[0] && Less(a[1..], b[1..])))
  }

  lemma {:induction false} LessTotal(a: string, b: string)
    ensures (a == b && !Less(a, b) && !Less(b, a)) || (a != b && (Less(a, b) <==> !Less(b, a)))
  {
    if a != "" && b != "" && a[0] == b[0] {
      LessTotal(a[1..], b[1..]);
      assert a == [a[0]] + a[1..] && b == [b[0]] + b[1..];
    }
  }

  // One text is a proper beginning of the other, or has the smaller character where they first differ.
  ghost predicate Precedes(a: string, b: string) {
    exists i :: 0 <= i <= |a| && i < |b| && a[..i] == b[..i] && (i == |a| || a[i] < b[i])
  }

  // What the order is.
  lemma {:induction false} LessMeans(a: string, b: string)
    ensures Less(a, b) <==> Precedes(a, b)
    ensures Less(a, b) <==>
            exists i :: 0 <= i <= |a| && i < |b| && a[..i] == b[..i] && (i == |a| || a[i] < b[i])
  {
    if Less(a, b) {
      if a == "" || a[0] < b[0] {
        assert a[..0] == b[..0];
      } else {
        LessMeans(a[1..], b[1..]);
        var i :| && 0 <= i <= |a| - 1 && i < |b| - 1 && a[1..][..i] == b[1..][..i]
                 && (i == |a| - 1 || a[1..][i] < b[1..][i]);
        assert a[..i + 1] == [a[0]] + a[1..][..i] && b[..i + 1] == [b[0]] + b[1..][..i];
      }
    }
    if i :| 0 <= i <= |a| && i < |b| && a[..i] == b[..i] && (i == |a| || a[i] < b[i]) {
      DiffersFirst(a, b, i);
    }
  }

  lemma {:induction false} DiffersFirst(a: string, b: string, i: nat)
    requires i <= |a| && i < |b| && a[..i] == b[..i] && (i == |a| || a[i] < b[i])
    ensures Less(a, b)
  {
    if i > 0 {
      assert a[0] == a[..i][0] == b[..i][0] == b[0];
      assert a[1..][..i - 1] == a[..i][1..] == b[..i][1..] == b[1..][..i - 1];
      DiffersFirst(a[1..], b[1..], i - 1);
    }
  }

  lemma {:induction false} LessTransitive(a: string, b: string, c: string)
    requires Less(a, b) && Less(b, c)
    ensures Less(a, c)
  {
    if a != "" && a[0] == b[0] && b[0] == c[0] {
      LessTransitive(a[1..], b[1..], c[1..]);
    }
  }

  predicate Ascending(s: seq<string>) { forall i, j :: 0 <= i < j < |s| ==> Less(s[i], s[j]) }

  // The ascending listing in terms of characters.
  lemma AscendingMeans(s: seq<string>)
    requires Ascending(s)
    ensures forall i, j :: 0 <= i < j < |s| ==> Precedes(s[i], s[j])
  {
    forall i, j | 0 <= i < j < |s| ensures Precedes(s[i], s[j]) {
      LessMeans(s[i], s[j]);
    }
  }

  ghost predicate Lists(s: seq<string>, keys: set<string>) { forall k :: k in s <==> k in keys }

  // A set has only one strictly ascending listing.
  lemma {:induction false} AscendingUnique(s: seq<string>, t: seq<string>)
    requires Ascending(s) && Ascending(t) && forall k :: k in s <==> k in t
    ensures s == t
  {
    if s != [] || t != [] {
      FirstIsLeast(s, t);
      forall k ensures k in s[1..] <==> k in t[1..] {
        TailMembers(s, k);
        TailMembers(t, k);
      }
      AscendingUnique(s[1..], t[1..]);
      assert s == [s[0]] + s[1..] && t == [t[0]] + t[1..];
    }
  }

  lemma TailMembers(s: seq<string>, k: string)
    requires Ascending(s) && s != []
    ensures k in s[1..] <==> k in s && k != s[0]
  {
    if k in s[1..] {
      var i :| 0 <= i < |s[1..]| && s[1..][i] == k;
      assert Less(s[0], s[i + 1]);
      LessTotal(s[0], k);
    }
  }

  lemma FirstIsLeast(s: seq<string>, t: seq<string>)
    requires Ascending(s) && Ascending(t) && (s != [] || t != []) && forall k :: k in s <==> k in t
    ensures s != [] && t != [] && s[0] == t[0]
  {
    if s != [] {
      assert s[0] in t;
    }
    if t != [] {
      assert t[0] in s;
    }
    assert s[0] in t && t[0] in s;
    var i :| 0 <= i < |t| && t[i] == s[0];
    var j :| 0 <= j < |s| && s[j] == t[0];
    if i > 0 && j > 0 {
      assert Less(t[0], t[i]) && Less(s[0], s[j]);
      LessTotal(s[0], t[0]);
    }
  }

  // ---------- insertion into a sorted listing ----------

  function Insert(s: seq<string>, k: string): seq<string> {
    if s == [] then [k]
    else if Less(k, s[0]) then [k] + s
    else if k == s[0] then s
    else [s[0]] + Insert(s[1..], k)
  }

  lemma {:induction false} InsertMembers(s: seq<string>, k: string)
    ensures forall x :: x in Insert(s, k) <==> x == k || x in s
  {
    if s != [] && !Less(k, s[0]) && k != s[0] {
      InsertMembers(s[1..], k);
      assert s == [s[0]] + s[1..];
    }
  }

  lemma {:induction false} InsertAscending(s: seq<string>, k: string)
    requires Ascending(s)
    ensures Ascending(Insert(s, k))
  {
    if s == [] {
    } else if Less(k, s[0]) {
      forall i | 0 <= i < |s| ensures Less(k, s[i]) {
        if i > 0 {
          LessTransitive(k, s[0], s[i]);
        }
      }
    } else if k != s[0] {
      LessTotal(k, s[0]);
      InsertAscending(s[1..], k);
      InsertMembers(s[1..], k);
      var rest := Insert(s[1..], k);
      forall i | 0 <= i < |rest| ensures Less(s[0], rest[i]) {
        assert rest[i] in rest;
      }
    }
  }

  // The ascending listing of a set.
  ghost function Sorted(keys: set<string>): (s: seq<string>)
    ensures Ascending(s) && Lists(s, keys)
  {
    if keys == {} then []
    else
      var k :| k in keys;
      var rest := Sorted(keys - {k});
      InsertAscending(rest, k);
      InsertMembers(rest, k);
      Insert(rest, k)
  }

  lemma SortedIsTheListing(s: seq<string>, keys: set<string>)
    requires Ascending(s) && Lists(s, keys)
    ensures s == Sorted(keys)
  {
    AscendingUnique(s, Sorted(keys));
  }

  // sort.Strings, on keys without repetition.
  method SortStrings(keys: seq<string>) returns (sorted: seq<string>)
    ensures sorted == Sorted(set k | k in keys)
  {
    sorted := [];
    for i := 0 to |keys|
      invariant Ascending(sorted)
      invariant forall x :: x in sorted <==> x in keys[..i]
    {
      InsertAscending(sorted, keys[i]);
      InsertMembers(sorted, keys[i]);
      sorted := Insert(sorted, keys[i]);
      assert keys[..i + 1] == keys[..i] + [keys[i]];
    }
    assert keys[..|keys|] == keys;
    SortedIsTheListing(sorted, set k | k in keys);
  }

  // ---------- sums ----------

  ghost function Sum(weights: map<string, int>): int {
    if weights == map[] then 0
    else
      var k :| k in weights;
      weights[k] + Sum(weights - {k})
  }

  // Nothing weighs nothing, one entry what it is; with SumRemove this is every sum.
  lemma SumSmall(k: string, weight: int)
    ensures Sum(map[]) == 0
    ensures Sum(map[k := weight]) == weight
  {
    SumRemove(map[k := weight], k);
    assert map[k := weight] - {k} == map[];
  }

  // Any entry can be taken out first.
  lemma {:induction false} SumRemove(weights: map<string, int>, k: string)
    requires k in weights
    ensures Sum(weights) == weights[k] + Sum(weights - {k})
    decreases |weights|
  {
    var j :| j in weights && Sum(weights) == weights[j] + Sum(weights - {j});
    if j != k {
      SumRemove(weights - {j}, k);
      SumRemove(weights - {k}, j);
      assert weights - {j} - {k} == weights - {k} - {j};
    }
  }

  // calculateTotalWeight: whichever order the map is walked in, the total is the sum.
  method CalculateTotalWeight(weights: map<string, int>) returns (total: int)
    ensures total == Sum(weights)
    ensures weights == map[] ==> total == 0
    ensures forall k :: weights.Keys == {k} ==> total == weights[k]
  {
    total := 0;
    var rest := weights.Keys;
    ghost var left := weights;
    while rest != {}
      invariant rest <= weights.Keys
      invariant left == map k | k in rest :: weights[k]
      invariant total + Sum(left) == Sum(weights)
      decreases rest
    {
      var k :| k in rest;
      SumRemove(left, k);
      total, rest := total + weights[k], rest - {k};
      left := left - {k};
    }
    assert left == map[];
    forall k | weights.Keys == {k} ensures total == weights[k] {
      assert weights == map[k := weights[k]];
      SumSmall(k, weights[k]);
    }
  }

  // The part of a weight table not held by the given keys.
  function Outside(weights: map<string, int>, keys: set<string>): map<string, int> {
    map k | k in weights && k !in keys :: weights[k]
  }

  // Weight beyond what the others hold must come from one of the keys.
  lemma OneOfThem(weights: map<string, int>, keys: set<string>)
    requires Sum(Outside(weights, keys)) < Sum(weights)
    ensures exists k :: k in weights && k in keys
  {
    assert (forall k :: k in weights ==> k !in keys) ==> Outside(weights, keys) == weights;
  }
}
