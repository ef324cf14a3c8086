/** How long after its program's start a zone has its turn. */
module ZoneOffsets {
  import opened Common

  /** The per-zone search adds up until it meets the zone: minutes before its first place. */
  function FirstOffset(duration: map<int, nat>, zs: seq<int>, z: int, k: nat): nat
    requires k <= |zs| && z in zs[k..]
    decreases |zs| - k
  {
    if zs[k] == z then Before(duration, zs, k)
    else
      assert zs[k..] == [zs[k]] + zs[k + 1..];
      FirstOffset(duration, zs, z, k + 1)
  }

  /** The bulk endpoint's dictionary keeps the last value written: minutes before its last place. */
  function LastOffset(duration: map<int, nat>, zs: seq<int>, z: int, k: nat): nat
    requires k <= |zs| && z in zs[..k]
    decreases k
  {
    if zs[k - 1] == z then Before(duration, zs, k - 1)
    else
      assert zs[..k] == zs[..k - 1] + [zs[k - 1]];
      LastOffset(duration, zs, z, k - 1)
  }

  lemma InSorted(zs: seq<int>, z: int)
    ensures z in zs <==> z in Sorted(zs)[0..] && z in Sorted(zs)[..|Sorted(zs)|]
  {
    SortedPermutes(zs);
    assert z in multiset(Sorted(zs)) <==> z in multiset(zs);
    assert Sorted(zs)[0..] == Sorted(zs) && Sorted(zs)[..|Sorted(zs)|] == Sorted(zs);
  }

  /** The places of the first and the last occurrence. */
  lemma {:induction false} FirstOffsetPlace(duration: map<int, nat>, zs: seq<int>, z: int, k: nat) returns (i: nat)
    requires k <= |zs| && z in zs[k..]
    ensures k <= i < |zs| && zs[i] == z && z !in zs[k..i]
    ensures FirstOffset(duration, zs, z, k) == Before(duration, zs, i)
    decreases |zs| - k
  {
    if zs[k] == z {
      i := k;
    } else {
      assert zs[k..] == [zs[k]] + zs[k + 1..];
      i := FirstOffsetPlace(duration, zs, z, k + 1);
      assert zs[k..i] == [zs[k]] + zs[k + 1..i];
    }
  }

  lemma {:induction false} LastOffsetPlace(duration: map<int, nat>, zs: seq<int>, z: int, k: nat) returns (i: nat)
    requires k <= |zs| && z in zs[..k]
    ensures i < k && zs[i] == z && z !in zs[i + 1..k]
    ensures LastOffset(duration, zs, z, k) == Before(duration, zs, i)
    decreases k
  {
    if zs[k - 1] == z {
      i := k - 1;
    } else {
      assert zs[..k] == zs[..k - 1] + [zs[k - 1]];
      i := LastOffsetPlace(duration, zs, z, k - 1);
      assert zs[i + 1..k] == zs[i + 1..k - 1] + [zs[k - 1]];
    }
  }

  predicate FirstPlace(zs: seq<int>, z: int, i: int) {
    0 <= i < |zs| && zs[i] == z && forall j | 0 <= j < i :: zs[j] != z
  }

  predicate LastPlace(zs: seq<int>, z: int, i: int) {
    0 <= i < |zs| && zs[i] == z && forall j | i < j < |zs| :: zs[j] != z
  }

  lemma FirstOffsetMeans(duration: map<int, nat>, zs: seq<int>, z: int) returns (i: nat)
    requires z in zs[0..]
    ensures FirstPlace(zs, z, i) && FirstOffset(duration, zs, z, 0) == Before(duration, zs, i)
  {
    i := FirstOffsetPlace(duration, zs, z, 0);
    assert forall j | 0 <= j < i :: zs[0..i][j] == zs[j];
  }

  lemma LastOffsetMeans(duration: map<int, nat>, zs: seq<int>, z: int) returns (i: nat)
    requires z in zs[..|zs|]
    ensures LastPlace(zs, z, i) && LastOffset(duration, zs, z, |zs|) == Before(duration, zs, i)
  {
    i := LastOffsetPlace(duration, zs, z, |zs|);
    assert forall j | i < j < |zs| :: zs[i + 1..|zs|][j - i - 1] == zs[j];
  }

  lemma {:induction false} BlockOfEqualZones(duration: map<int, nat>, zs: seq<int>, z: int, i: nat, j: nat)
    requires i <= j <= |zs| && forall k | i <= k < j :: zs[k] == z
    ensures Before(duration, zs, j) == Before(duration, zs, i) + (j - i) * Minutes(duration, z)
  {
    if i < j {
      BlockOfEqualZones(duration, zs, z, i, j - 1);
      assert (j - i) * Minutes(duration, z) == (j - 1 - i) * Minutes(duration, z) + Minutes(duration, z);
    }
  }

  /** In an ascending list all occurrences stand together. */
  lemma BlockBetween(zs: seq<int>, z: int, i: nat, j: nat)
    requires Ascending(zs) && i <= j < |zs| && zs[i] == zs[j] == z
    ensures forall k | i <= k < j :: zs[k] == z
  {
  }

  lemma PositiveProduct(a: nat, b: nat)
    requires a > 0
    ensures a * b == 0 <==> b == 0
  {
  }

  lemma BlockTakesTime(duration: map<int, nat>, zs: seq<int>, z: int, i: nat, j: nat)
    requires i <= j < |zs| && forall k | i <= k < j :: zs[k] == z
    ensures Before(duration, zs, i) == Before(duration, zs, j) <==> i == j || Minutes(duration, z) == 0
  {
    BlockOfEqualZones(duration, zs, z, i, j);
    if i < j {
      PositiveProduct(j - i, Minutes(duration, z));
    }
  }

  lemma CountBlock(zs: seq<int>, z: int, i: nat, j: nat)
    requires i <= j < |zs| && zs[i] == zs[j] == z && z !in zs[0..i] && z !in zs[j + 1..|zs|]
    ensures multiset(zs)[z] == 1 <==> i == j
  {
    assert zs == zs[..i] + zs[i..j] + [zs[j]] + zs[j + 1..|zs|];
    assert zs[..i] == zs[0..i];
    if i < j {
      assert zs[i..j] == [zs[i]] + zs[i + 1..j];
    } else {
      assert zs[i..j] == [];
    }
  }

  /** The two offsets agree exactly when the list has the zone once or the zone takes no time. */
  lemma OffsetsAgreeInList(duration: map<int, nat>, zs: seq<int>, z: int)
    requires z in zs[0..] && z in zs[..|zs|] && Ascending(zs)
    ensures FirstOffset(duration, zs, z, 0) == LastOffset(duration, zs, z, |zs|)
            <==> multiset(zs)[z] == 1 || Minutes(duration, z) == 0
  {
    var i := FirstOffsetPlace(duration, zs, z, 0);
    var j := LastOffsetPlace(duration, zs, z, |zs|);
    assert forall k | 0 <= k < i :: zs[0..i][k] == zs[k];
    BlockBetween(zs, z, i, j);
    CountBlock(zs, z, i, j);
    BlockTakesTime(duration, zs, z, i, j);
  }

  /** The first place is never later than the last. */
  lemma OffsetsOrdered(duration: map<int, nat>, zs: seq<int>, z: int)
    requires z in zs[0..] && z in zs[..|zs|]
    ensures FirstOffset(duration, zs, z, 0) <= LastOffset(duration, zs, z, |zs|)
  {
    var i := FirstOffsetPlace(duration, zs, z, 0);
    var j := LastOffsetPlace(duration, zs, z, |zs|);
    assert forall k | 0 <= k < i :: zs[0..i][k] == zs[k];
    PrefixMonotone(EachMinutes(duration, zs), i, j);
  }

  /** Adding up until the zone is met. */
  method MinutesBefore(duration: map<int, nat>, zs: seq<int>, z: int) returns (cum: nat)
    requires z in zs[0..]
    ensures cum == FirstOffset(duration, zs, z, 0)
  {
    var k := 0;
    cum := 0;
    while zs[k] != z
      invariant 0 <= k < |zs| && z in zs[k..]
      invariant cum == Before(duration, zs, k)
      invariant FirstOffset(duration, zs, z, k) == FirstOffset(duration, zs, z, 0)
      decreases |zs| - k
    {
      assert zs[k..] == [zs[k]] + zs[k + 1..];
      cum := cum + Minutes(duration, zs[k]);
      k := k + 1;
    }
  }

  /** The entry that the loop over all zones leaves in `offsets` for one zone. */
  method OffsetEntry(duration: map<int, nat>, zs: seq<int>, z: int) returns (off: nat)
    requires z in zs[..|zs|]
    ensures off == LastOffset(duration, zs, z, |zs|)
  {
    var cum := 0;
    off := 0;
    for k := 0 to |zs|
      invariant cum == Before(duration, zs, k)
      invariant z in zs[..k] ==> off == LastOffset(duration, zs, z, k)
    {
      assert zs[..k + 1] == zs[..k] + [zs[k]];
      if zs[k] == z {
        off := cum;
      }
      cum := cum + Minutes(duration, zs[k]);
    }
  }
}
