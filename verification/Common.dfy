/** Small vocabulary shared by the other modules. */
module Common {
  datatype Option<+T> = None | Some(value: T)

  /** Text of which only equality matters. */
  datatype Text = Text(chars: string)

  lemma NonEmpty(s: set<int>)
    ensures s != {} ==> exists x :: x in s
  {
    if forall x :: x !in s {
      assert s == {};
    }
  }

  /** The sum of the first k entries: the running total that the scheduler's `cumulative += d` loops keep. */
  function Prefix(ds: seq<nat>, k: nat): nat
    requires k <= |ds|
  {
    if k == 0 then 0 else Prefix(ds, k - 1) + ds[k - 1]
  }

  lemma {:induction false} PrefixMonotone(ds: seq<nat>, i: nat, j: nat)
    requires i <= j <= |ds|
    ensures Prefix(ds, i) <= Prefix(ds, j)
  {
    if i < j {
      PrefixMonotone(ds, i, j - 1);
    }
  }

  /** The minutes of a zone; one that is not in the table takes none. */
  function Minutes(duration: map<int, nat>, z: int): nat {
    if z in duration then duration[z] else 0
  }

  function EachMinutes(duration: map<int, nat>, zs: seq<int>): (ds: seq<nat>)
    ensures |ds| == |zs| && forall i | 0 <= i < |zs| :: ds[i] == Minutes(duration, zs[i])
  {
    seq(|zs|, i requires 0 <= i < |zs| => Minutes(duration, zs[i]))
  }

  /** The minutes of the first k zones of a list, repeated zones counting again. */
  function Before(duration: map<int, nat>, zs: seq<int>, k: nat): nat
    requires k <= |zs|
  {
    Prefix(EachMinutes(duration, zs), k)
  }

  method TotalMinutes(duration: map<int, nat>, zs: seq<int>) returns (total: nat)
    ensures total == Before(duration, zs, |zs|)
  {
    total := 0;
    for k := 0 to |zs|
      invariant total == Before(duration, zs, k)
    {
      total := total + Minutes(duration, zs[k]);
    }
  }

  function Max(a: int, b: int): (r: int)
    ensures a <= r && b <= r && (r == a || r == b)
  {
    if a > b then a else b
  }

  function Min(a: int, b: int): (r: int)
    ensures r <= a && r <= b && (r == a || r == b)
  {
    if a < b then a else b
  }

  function Insert(z: int, zs: seq<int>): (r: seq<int>)
    ensures |r| == |zs| + 1
  {
    if zs == [] || z <= zs[0] then [z] + zs else [zs[0]] + Insert(z, zs[1..])
  }

  /** Python's `sorted` on a list of integers, as insertion from the front. */
  function Sorted(zs: seq<int>): (r: seq<int>)
    ensures |r| == |zs|
  {
    if zs == [] then [] else Insert(zs[0], Sorted(zs[1..]))
  }

  predicate Ascending(zs: seq<int>) {
    forall i, j | 0 <= i < j < |zs| :: zs[i] <= zs[j]
  }

  lemma {:induction false} InsertPermutes(z: int, zs: seq<int>)
    ensures multiset(Insert(z, zs)) == multiset{z} + multiset(zs)
  {
    if zs != [] && z > zs[0] {
      InsertPermutes(z, zs[1..]);
      assert zs == [zs[0]] + zs[1..];
    }
  }

  lemma {:induction false} SortedPermutes(zs: seq<int>)
    ensures multiset(Sorted(zs)) == multiset(zs)
  {
    if zs != [] {
      SortedPermutes(zs[1..]);
      InsertPermutes(zs[0], Sorted(zs[1..]));
      assert zs == [zs[0]] + zs[1..];
    }
  }

  lemma {:induction false} InsertAscends(z: int, zs: seq<int>)
    requires Ascending(zs)
    ensures Ascending(Insert(z, zs))
    ensures Insert(z, zs)[0] == if zs == [] || z <= zs[0] then z else zs[0]
  {
    if zs != [] && z > zs[0] {
      InsertAscends(z, zs[1..]);
    }
  }

  lemma {:induction false} SortedAscends(zs: seq<int>)
    ensures Ascending(Sorted(zs))
  {
    if zs != [] {
      SortedAscends(zs[1..]);
      InsertAscends(zs[0], Sorted(zs[1..]));
    }
  }
}
