/** The static configuration of the auction fee calculator: the tiered
    buyer's-fee schedule and the fixed ancillary charges. Amounts are net
    pounds, held as exact reals. */
module Tariff {

  /** One row of the buyer's-fee schedule: `fee` is charged for any hammer
      price up to and including `limit` that is above the previous row's limit. */
  datatype Band = Band(limit: real, fee: real)

  /** The fee schedule, in the order the calculator scans it. It is written
      as four consecutive blocks so that the ordering of each block can be
      checked on its own. */
  const Bands: seq<Band> := BandsUpTo999 + BandsUpTo3749 + BandsUpTo13249 + BandsUpTo24999

  const BandsUpTo999: seq<Band> := [
    Band(49.0, 45.00),
    Band(99.0, 74.17),
    Band(149.0, 107.50),
    Band(199.0, 152.50),
    Band(249.0, 160.00),
    Band(299.0, 168.33),
    Band(349.0, 212.50),
    Band(399.0, 223.33),
    Band(449.0, 242.50),
    Band(499.0, 251.67),
    Band(749.0, 334.17)
  ]

  const BandsUpTo3749: seq<Band> := [
    Band(999.0, 401.67),
    Band(1249.0, 425.00),
    Band(1499.0, 440.00),
    Band(1749.0, 457.50),
    Band(1999.0, 473.33),
    Band(2249.0, 487.50),
    Band(2499.0, 505.00),
    Band(2749.0, 518.33),
    Band(2999.0, 525.00),
    Band(3249.0, 597.50),
    Band(3499.0, 605.83)
  ]

  const BandsUpTo13249: seq<Band> := [
    Band(3749.0, 617.50),
    Band(3999.0, 626.67),
    Band(4249.0, 631.67),
    Band(4499.0, 639.17),
    Band(4749.0, 646.67),
    Band(4999.0, 653.33),
    Band(11499.0, 800.00),
    Band(11749.0, 862.50),
    Band(12249.0, 893.33),
    Band(12749.0, 911.67),
    Band(13249.0, 922.50)
  ]

  const BandsUpTo24999: seq<Band> := [
    Band(13749.0, 930.00),
    Band(14249.0, 956.67),
    Band(14749.0, 974.17),
    Band(15249.0, 999.17),
    Band(15749.0, 1016.67),
    Band(16249.0, 1046.67),
    Band(16749.0, 1064.17),
    Band(17249.0, 1070.83),
    Band(18249.0, 1070.83),
    Band(24999.0, 1074.17)
  ]

  /** The three flat charges added to every purchase. */
  datatype FixedCharges = FixedCharges(assured: real, v5: real, online: real)

  const Fixed: FixedCharges := FixedCharges(61.00, 21.67, 0.00)

  /** The supported hammer-price range; prices outside it raise the advisory. */
  const MinSupported: real := 11.0
  const MaxSupported: real := 24999.0

  /** The fee the fallback assigns when no band matched a supported price. */
  const PlateauFee: real := 1074.17

  /** The VAT rate, applied to fees always and to the hammer price on request. */
  const VatRate: real := 0.20

  /** Each band's limit is below the next one's. */
  ghost predicate LimitsStepUp(bands: seq<Band>)
  {
    forall i :: 0 <= i < |bands| - 1 ==> bands[i].limit < bands[i + 1].limit
  }

  /** No band's fee is above the next one's. */
  ghost predicate FeesStepUp(bands: seq<Band>)
  {
    forall i :: 0 <= i < |bands| - 1 ==> bands[i].fee <= bands[i + 1].fee
  }

  /** Limits are strictly ascending over every pair of bands. */
  ghost predicate LimitsAscending(bands: seq<Band>)
  {
    forall i, j :: 0 <= i < j < |bands| ==> bands[i].limit < bands[j].limit
  }

  /** Fees are non-decreasing over every pair of bands. */
  ghost predicate FeesNonDecreasing(bands: seq<Band>)
  {
    forall i, j :: 0 <= i <= j < |bands| ==> bands[i].fee <= bands[j].fee
  }

  lemma {:induction false} LimitBelow(bands: seq<Band>, i: nat, j: nat)
    requires LimitsStepUp(bands)
    requires i < j < |bands|
    ensures bands[i].limit < bands[j].limit
    decreases j - i
  {
    if i + 1 < j {
      LimitBelow(bands, i, j - 1);
    }
  }

  lemma {:induction false} FeeAtMost(bands: seq<Band>, i: nat, j: nat)
    requires FeesStepUp(bands)
    requires i <= j < |bands|
    ensures bands[i].fee <= bands[j].fee
    decreases j - i
  {
    if i < j {
      FeeAtMost(bands, i, j - 1);
    }
  }

  /** Neighbour-wise ordering of a schedule gives ordering of every pair. */
  lemma StepUpOrdersAll(bands: seq<Band>)
    requires LimitsStepUp(bands) && FeesStepUp(bands)
    ensures LimitsAscending(bands) && FeesNonDecreasing(bands)
  {
    forall i, j | 0 <= i < j < |bands|
      ensures bands[i].limit < bands[j].limit
    {
      LimitBelow(bands, i, j);
    }
    forall i, j | 0 <= i <= j < |bands|
      ensures bands[i].fee <= bands[j].fee
    {
      FeeAtMost(bands, i, j);
    }
  }

  /** Two schedules in step order, the first ending below where the second
      starts, join into one in step order. */
  lemma {:induction false} StepUpJoin(a: seq<Band>, b: seq<Band>)
    requires LimitsStepUp(a) && FeesStepUp(a) && LimitsStepUp(b) && FeesStepUp(b)
    requires a != [] && b != []
    requires a[|a| - 1].limit < b[0].limit && a[|a| - 1].fee <= b[0].fee
    ensures LimitsStepUp(a + b) && FeesStepUp(a + b)
  {
    var ab := a + b;
    forall i | 0 <= i < |ab| - 1
      ensures ab[i].limit < ab[i + 1].limit && ab[i].fee <= ab[i + 1].fee
    {
      if i + 1 < |a| {
        assert ab[i] == a[i] && ab[i + 1] == a[i + 1];
      } else if i + 1 == |a| {
        assert ab[i] == a[|a| - 1] && ab[i + 1] == b[0];
      } else {
        assert ab[i] == b[i - |a|] && ab[i + 1] == b[i - |a| + 1];
      }
    }
  }

  lemma BandsUpTo999StepUp()
    ensures LimitsStepUp(BandsUpTo999) && FeesStepUp(BandsUpTo999)
  {
  }

  lemma BandsUpTo3749StepUp()
    ensures LimitsStepUp(BandsUpTo3749) && FeesStepUp(BandsUpTo3749)
  {
  }

  lemma BandsUpTo13249StepUp()
    ensures LimitsStepUp(BandsUpTo13249) && FeesStepUp(BandsUpTo13249)
  {
  }

  lemma BandsUpTo24999StepUp()
    ensures LimitsStepUp(BandsUpTo24999) && FeesStepUp(BandsUpTo24999)
  {
  }

  /** Neighbouring rows of the shipped schedule are in order. */
  lemma BandsStepUp()
    ensures LimitsStepUp(Bands) && FeesStepUp(Bands)
  {
    BandsUpTo999StepUp();
    BandsUpTo3749StepUp();
    BandsUpTo13249StepUp();
    BandsUpTo24999StepUp();
    var low := BandsUpTo999 + BandsUpTo3749;
    StepUpJoin(BandsUpTo999, BandsUpTo3749);
    assert low[|low| - 1] == BandsUpTo3749[|BandsUpTo3749| - 1];
    StepUpJoin(low, BandsUpTo13249);
    var mid := low + BandsUpTo13249;
    assert mid[|mid| - 1] == BandsUpTo13249[|BandsUpTo13249| - 1];
    StepUpJoin(mid, BandsUpTo24999);
  }

  /** The shipped schedule: limits strictly ascending, fees non-decreasing,
      and its last row is the top of the supported range at the plateau fee. */
  lemma BandsWellFormed()
    ensures |Bands| == 43
    ensures LimitsAscending(Bands) && FeesNonDecreasing(Bands)
    ensures Bands[|Bands| - 1] == Band(MaxSupported, PlateauFee)
  {
    BandsStepUp();
    StepUpOrdersAll(Bands);
  }

  /** Sum of the fixed ancillary charges, independent of price and band. */
  function FixedSum(): (s: real)
    ensures s == 82.67
  {
    Fixed.assured + Fixed.v5 + Fixed.online
  }
}
