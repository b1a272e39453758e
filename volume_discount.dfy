// Volume-discount tiers and the first-match tier lookup of
// internal/models/volume_discount.go.
module VolumeDiscounts {
  import opened Common

  /** A tier: quantities from `minQty` up to `maxQty` (no upper end when absent). */
  datatype VolumeDiscount = VolumeDiscount(minQty: int, maxQty: Option<int>, discountPct: real)

  /** Whether a quantity falls inside a tier; both ends are inclusive. */
  predicate InTier(d: VolumeDiscount, qty: int)
  {
    qty >= d.minQty && (d.maxQty.None? || qty <= d.maxQty.value)
  }

  /**
   * GetDiscountForQuantity: the discount of the first tier, in list order,
   * that contains `qty`, or 0 when none does.
   */
  function DiscountForQuantity(discounts: seq<VolumeDiscount>, qty: int): (r: real)
    ensures (forall i :: 0 <= i < |discounts| ==> !InTier(discounts[i], qty)) ==> r == 0.0
    ensures r == 0.0 || exists i :: 0 <= i < |discounts| && InTier(discounts[i], qty) && r == discounts[i].discountPct
  {
    if |discounts| == 0 then 0.0
    else if InTier(discounts[0], qty) then discounts[0].discountPct
    else
      var r := DiscountForQuantity(discounts[1..], qty);
      assert r == 0.0 || exists i :: 1 <= i < |discounts| && InTier(discounts[i], qty) && r == discounts[i].discountPct by {
        if r != 0.0 {
          var k :| 0 <= k < |discounts[1..]| && InTier(discounts[1..][k], qty) && r == discounts[1..][k].discountPct;
          assert discounts[k + 1] == discounts[1..][k];
        }
      }
      r
  }

  /** The first tier that contains the quantity decides the discount. */
  lemma {:induction false} FirstTierWins(discounts: seq<VolumeDiscount>, qty: int, i: nat)
    requires i < |discounts| && InTier(discounts[i], qty)
    requires forall j :: 0 <= j < i ==> !InTier(discounts[j], qty)
    ensures DiscountForQuantity(discounts, qty) == discounts[i].discountPct
    decreases i
  {
    if i > 0 {
      assert !InTier(discounts[0], qty);
      var rest := discounts[1..];
      forall j | 0 <= j < i - 1
        ensures !InTier(rest[j], qty)
      {
        assert rest[j] == discounts[j + 1];
      }
      FirstTierWins(rest, qty, i - 1);
    }
  }

  /**
   * The tier search of the pricing configuration: every tier is examined and
   * the last one that contains the quantity wins, or 0 when none does.
   */
  function LastTierDiscount(discounts: seq<VolumeDiscount>, qty: int): real
  {
    if |discounts| == 0 then 0.0
    else if InTier(discounts[|discounts| - 1], qty) then discounts[|discounts| - 1].discountPct
    else LastTierDiscount(discounts[..|discounts| - 1], qty)
  }

  /** The last tier that contains the quantity decides the discount. */
  lemma {:induction false} LastTierWins(discounts: seq<VolumeDiscount>, qty: int, i: nat)
    requires i < |discounts| && InTier(discounts[i], qty)
    requires forall j :: i < j < |discounts| ==> !InTier(discounts[j], qty)
    ensures LastTierDiscount(discounts, qty) == discounts[i].discountPct
    decreases |discounts|
  {
    var n := |discounts|;
    if i < n - 1 {
      var front := discounts[..n - 1];
      assert !InTier(discounts[n - 1], qty);
      forall j | i < j < |front|
        ensures !InTier(front[j], qty)
      {
        assert front[j] == discounts[j];
      }
      LastTierWins(front, qty, i);
    }
  }

  /** Without a tier that contains the quantity the last-match search gives 0. */
  lemma {:induction false} NoTierNoDiscount(discounts: seq<VolumeDiscount>, qty: int)
    requires forall j :: 0 <= j < |discounts| ==> !InTier(discounts[j], qty)
    ensures LastTierDiscount(discounts, qty) == 0.0
    decreases |discounts|
  {
    if |discounts| > 0 {
      var front := discounts[..|discounts| - 1];
      forall j | 0 <= j < |front|
        ensures !InTier(front[j], qty)
      {
        assert front[j] == discounts[j];
      }
      NoTierNoDiscount(front, qty);
    }
  }

  /** No quantity lies in two different tiers. */
  ghost predicate Disjoint(discounts: seq<VolumeDiscount>)
  {
    forall i, j, qty :: 0 <= i < j < |discounts| && InTier(discounts[i], qty) ==> !InTier(discounts[j], qty)
  }

  /** With disjoint tiers, first-match and last-match selection agree. */
  lemma {:induction false} FirstMatchIsLastMatch(discounts: seq<VolumeDiscount>, qty: int)
    requires Disjoint(discounts)
    ensures DiscountForQuantity(discounts, qty) == LastTierDiscount(discounts, qty)
  {
    if i :| 0 <= i < |discounts| && InTier(discounts[i], qty) {
      var first := FirstIndexInTier(discounts, qty, i);
      FirstTierWins(discounts, qty, first);
      LastTierWins(discounts, qty, first);
    } else {
      NoTierNoDiscount(discounts, qty);
    }
  }

  /** The smallest index of a tier containing the quantity, given that one at `i` does. */
  lemma {:induction false} FirstIndexInTier(discounts: seq<VolumeDiscount>, qty: int, i: nat) returns (first: nat)
    requires i < |discounts| && InTier(discounts[i], qty)
    ensures first <= i && InTier(discounts[first], qty)
    ensures forall j :: 0 <= j < first ==> !InTier(discounts[j], qty)
    decreases i
  {
    if exists j :: 0 <= j < i && InTier(discounts[j], qty) {
      var j :| 0 <= j < i && InTier(discounts[j], qty);
      first := FirstIndexInTier(discounts, qty, j);
    } else {
      first := i;
    }
  }
}
