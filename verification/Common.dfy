/** Shared vocabulary: optional values, results, checked 64-bit arithmetic and the
    "vector searched by key" idiom that every kernel table in this project uses. */
module Common {

  datatype Option<+T> = None | Some(value: T)

  datatype Result<+T, +E> = Ok(value: T) | Err(error: E)

  const U32_MAX: nat := 0xFFFF_FFFF
  const U64_MAX: nat := 0xFFFF_FFFF_FFFF_FFFF

  /** `saturating_add(1)` on an unsigned 64-bit counter. */
  function SatInc(x: nat): nat {
    if x < U64_MAX then x + 1 else U64_MAX
  }

  function SatSub(a: nat, b: nat): nat {
    if a < b then 0 else a - b
  }

  /** `iter().position(|e| key(e) == k)`: the first index holding key `k`. */
  function IndexOf<T>(s: seq<T>, key: T -> nat, k: nat): (r: Option<nat>)
    ensures r.Some? ==> r.value < |s| && key(s[r.value]) == k
                        && forall j :: 0 <= j < r.value ==> key(s[j]) != k
    ensures r.None? ==> forall j :: 0 <= j < |s| ==> key(s[j]) != k
  {
    IndexFrom(s, key, k, 0)
  }

  function IndexFrom<T>(s: seq<T>, key: T -> nat, k: nat, i: nat): (r: Option<nat>)
    requires i <= |s|
    ensures r.Some? ==> i <= r.value < |s| && key(s[r.value]) == k
                        && forall j :: i <= j < r.value ==> key(s[j]) != k
    ensures r.None? ==> forall j :: i <= j < |s| ==> key(s[j]) != k
    decreases |s| - i
  {
    if i == |s| then None
    else if key(s[i]) == k then Some(i)
    else IndexFrom(s, key, k, i + 1)
  }

  /** `iter().find(|e| key(e) == k)`. */
  function Lookup<T>(s: seq<T>, key: T -> nat, k: nat): (r: Option<T>)
    ensures r.Some? ==> key(r.value) == k && r.value in s
  {
    match IndexOf(s, key, k)
    case Some(i) => Some(s[i])
    case None => None
  }

  ghost predicate Unique<T>(s: seq<T>, key: T -> nat) {
    forall i, j :: 0 <= i < j < |s| ==> key(s[i]) != key(s[j])
  }

  /** `Vec::remove`. */
  function RemoveAt<T>(s: seq<T>, i: nat): (r: seq<T>)
    requires i < |s|
    ensures |r| == |s| - 1
    ensures forall j :: 0 <= j < i ==> r[j] == s[j]
    ensures forall j :: i <= j < |r| ==> r[j] == s[j + 1]
  {
    s[..i] + s[i + 1..]
  }

  /** `Vec::swap_remove`: the last element takes the freed position. */
  function SwapRemove<T>(s: seq<T>, i: nat): (r: seq<T>)
    requires i < |s|
    ensures |r| == |s| - 1
    ensures forall j :: 0 <= j < |r| ==> r[j] == if j == i then s[|s| - 1] else s[j]
  {
    if i == |s| - 1 then s[..i] else s[..|s| - 1][i := s[|s| - 1]]
  }

  lemma UniqueIndex<T>(s: seq<T>, key: T -> nat, i: nat)
    requires Unique(s, key) && i < |s|
    ensures IndexOf(s, key, key(s[i])) == Some(i)
    ensures Lookup(s, key, key(s[i])) == Some(s[i])
  {
  }

  /** Under unique keys, membership and lookup agree. */
  lemma LookupMember<T>(s: seq<T>, key: T -> nat, x: T)
    requires Unique(s, key) && x in s
    ensures Lookup(s, key, key(x)) == Some(x)
  {
  }

  lemma LookupPush<T>(s: seq<T>, key: T -> nat, x: T)
    requires Lookup(s, key, key(x)).None?
    ensures Unique(s, key) ==> Unique(s + [x], key)
    ensures forall k {:trigger Lookup(s + [x], key, k)} {:trigger Lookup(s, key, k)} ::
              Lookup(s + [x], key, k) == if k == key(x) then Some(x) else Lookup(s, key, k)
  {
    forall k
      ensures Lookup(s + [x], key, k) == if k == key(x) then Some(x) else Lookup(s, key, k)
    {
      var r := IndexOf(s, key, k);
      if r.Some? {
        assert (s + [x])[r.value] == s[r.value];
      } else {
        assert (s + [x])[|s|] == x;
      }
    }
  }

  lemma LookupSet<T>(s: seq<T>, key: T -> nat, i: nat, x: T)
    requires Unique(s, key) && i < |s| && key(x) == key(s[i])
    ensures Unique(s[i := x], key)
    ensures forall k {:trigger Lookup(s[i := x], key, k)} {:trigger Lookup(s, key, k)} ::
              Lookup(s[i := x], key, k) == if k == key(x) then Some(x) else Lookup(s, key, k)
  {
    var s' := s[i := x];
    assert Unique(s', key);
    forall k
      ensures Lookup(s', key, k) == if k == key(x) then Some(x) else Lookup(s, key, k)
    {
      UniqueIndex(s', key, i);
      var r := IndexOf(s, key, k);
      if r.Some? { UniqueIndex(s', key, r.value); }
    }
  }

  lemma LookupRemove<T>(s: seq<T>, key: T -> nat, i: nat)
    requires Unique(s, key) && i < |s|
    ensures Unique(RemoveAt(s, i), key)
    ensures forall k {:trigger Lookup(RemoveAt(s, i), key, k)} {:trigger Lookup(s, key, k)} ::
              Lookup(RemoveAt(s, i), key, k) == if k == key(s[i]) then None else Lookup(s, key, k)
  {
    var s' := RemoveAt(s, i);
    forall k
      ensures Lookup(s', key, k) == if k == key(s[i]) then None else Lookup(s, key, k)
    {
      var r := IndexOf(s, key, k);
      if r.Some? && r.value != i {
        var j := if r.value < i then r.value else r.value - 1;
        assert s'[j] == s[r.value];
        UniqueIndex(s', key, j);
      }
    }
  }

  lemma LookupSwapRemove<T>(s: seq<T>, key: T -> nat, i: nat)
    requires Unique(s, key) && i < |s|
    ensures Unique(SwapRemove(s, i), key)
    ensures forall k {:trigger Lookup(SwapRemove(s, i), key, k)} {:trigger Lookup(s, key, k)} ::
              Lookup(SwapRemove(s, i), key, k) == if k == key(s[i]) then None else Lookup(s, key, k)
  {
  }

  function Id(t: nat): nat { t }

  function Elements(line: seq<nat>): set<nat> {
    set x | x in line
  }

  function Keys<T(==)>(s: seq<T>, key: T -> nat): set<nat> {
    set x | x in s :: key(x)
  }

  lemma ElementsPush(line: seq<nat>, x: nat)
    ensures Elements(line + [x]) == Elements(line) + {x}
  {
  }

  lemma {:induction false} DistinctCount(line: seq<nat>)
    requires Unique(line, Id)
    ensures |Elements(line)| == |line|
  {
    if line != [] {
      var front, last := line[..|line| - 1], line[|line| - 1];
      DistinctCount(front);
      ElementsPush(front, last);
      assert line == front + [last];
      assert last !in front by {
        assert forall i :: 0 <= i < |front| ==> Id(line[i]) != Id(line[|line| - 1]);
      }
    }
  }

  lemma {:induction false} KeyCount<T>(s: seq<T>, key: T -> nat)
    ensures |Keys(s, key)| <= |s|
  {
    if s != [] {
      var front, last := s[..|s| - 1], s[|s| - 1];
      KeyCount(front, key);
      assert s == front + [last];
      assert Keys(s, key) == Keys(front, key) + {key(last)};
    }
  }

  /** Distinct keys all held by a vector are no more than the vector's entries. */
  lemma Pigeonhole<T>(line: seq<nat>, s: seq<T>, key: T -> nat)
    requires Unique(line, Id)
    requires forall x :: x in line ==> Lookup(s, key, x).Some?
    ensures |line| <= |s|
  {
    DistinctCount(line);
    KeyCount(s, key);
    forall x | x in Elements(line) ensures x in Keys(s, key) {
      assert Lookup(s, key, x).value in s;
    }
    Contained(Elements(line), Keys(s, key));
  }

  lemma Contained(a: set<nat>, b: set<nat>)
    requires a <= b
    ensures |a| <= |b|
  {
    assert b == a + (b - a);
  }

  /** `Vec::retain(|c| *c != x)`. */
  function Without(s: seq<nat>, x: nat): (r: seq<nat>)
    ensures forall y :: y in r <==> y in s && y != x
    ensures |r| <= |s|
    ensures x !in s ==> r == s
  {
    if s == [] then []
    else if s[0] == x then Without(s[1..], x)
    else [s[0]] + Without(s[1..], x)
  }

  lemma {:induction false} WithoutUnique(children: seq<nat>, id: nat)
    requires Unique(children, Id)
    ensures Unique(Without(children, id), Id)
  {
    if children != [] {
      WithoutUnique(children[1..], id);
      var rest := Without(children[1..], id);
      forall k | 0 <= k < |rest| ensures rest[k] != children[0] {
        assert rest[k] in children[1..];
        var m :| 0 <= m < |children[1..]| && children[1..][m] == rest[k];
        assert Id(children[0]) != Id(children[m + 1]);
      }
    }
  }

  // ---------------------------------------------------------------- weighted sums

  function Sum<T>(s: seq<T>, weight: T -> nat): nat {
    if s == [] then 0 else Sum(s[..|s| - 1], weight) + weight(s[|s| - 1])
  }

  lemma SumPush<T>(s: seq<T>, weight: T -> nat, x: T)
    ensures Sum(s + [x], weight) == Sum(s, weight) + weight(x)
  {
  }

  lemma {:induction false} SumSet<T>(s: seq<T>, weight: T -> nat, i: nat, x: T)
    requires i < |s|
    ensures Sum(s[i := x], weight) == Sum(s, weight) - weight(s[i]) + weight(x)
    ensures weight(s[i]) <= Sum(s, weight)
  {
    var front := s[..|s| - 1];
    if i == |s| - 1 {
      assert s[i := x][..|s| - 1] == front;
    } else {
      SumSet(front, weight, i, x);
      assert s[i := x][..|s| - 1] == front[i := x];
    }
  }

  lemma SumSwapRemove<T>(s: seq<T>, weight: T -> nat, i: nat)
    requires i < |s|
    ensures Sum(SwapRemove(s, i), weight) == Sum(s, weight) - weight(s[i])
  {
    if i < |s| - 1 { SumSet(s[..|s| - 1], weight, i, s[|s| - 1]); }
  }

  lemma {:induction false} SumFront<T>(s: seq<T>, weight: T -> nat)
    requires s != []
    ensures Sum(s, weight) == weight(s[0]) + Sum(s[1..], weight)
    decreases |s|
  {
    if |s| > 1 {
      SumFront(s[..|s| - 1], weight);
      assert s[1..][..|s| - 2] == s[..|s| - 1][1..];
    }
  }

  lemma {:induction false} SumBound<T>(s: seq<T>, weight: T -> nat, bound: nat)
    requires forall i :: 0 <= i < |s| ==> weight(s[i]) <= bound
    ensures Sum(s, weight) <= |s| * bound
  {
    if s != [] { SumBound(s[..|s| - 1], weight, bound); }
  }

  lemma SumTwo<T>(s: seq<T>, weight: T -> nat, i: nat, j: nat)
    requires i < j < |s|
    ensures weight(s[i]) + weight(s[j]) <= Sum(s, weight)
  {
    var rest := SwapRemove(s, j);
    SumSwapRemove(s, weight, j);
    assert rest[i] == s[i];
    SumSet(rest, weight, i, s[i]);
  }
}
