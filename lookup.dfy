/** The buyer's-fee lookup: a linear scan of the schedule that takes the first
    band whose limit is at or above the hammer price, followed by a fallback
    that only fires for a supported price no band matched. */
module BandLookup {
  import opened Tariff

  datatype Option<T> = None | Some(value: T)

  /** Index of the first band whose limit is at or above `val`, if any. */
  function FirstMatch(bands: seq<Band>, val: real): (r: Option<nat>)
    ensures r.Some? ==> r.value < |bands| && val <= bands[r.value].limit
    ensures r.Some? ==> forall j :: 0 <= j < r.value ==> bands[j].limit < val
    ensures r.None? ==> forall j :: 0 <= j < |bands| ==> bands[j].limit < val
  {
    if bands == [] then None
    else if val <= bands[0].limit then Some(0)
    else match FirstMatch(bands[1..], val)
      case None => None
      case Some(k) => Some(k + 1)
  }

  /** The buyer's fee the calculator settles on for hammer price `val`: the
      fee of the first matching band; when none matches, the plateau fee for
      a price still within the supported maximum and otherwise the initial 0. */
  function BuyerFee(val: real): real
  {
    match FirstMatch(Bands, val)
    case Some(i) => Bands[i].fee
    case None => if val <= MaxSupported then PlateauFee else 0.0
  }

  /** The scan as the calculator runs it: walk the schedule in order and stop
      at the first band whose limit is at or above `val`, taking its fee;
      `fee` keeps its initial 0 when no band matches. */
  method ScanBands(bands: seq<Band>, val: real) returns (fee: real, found: bool)
    ensures found == FirstMatch(bands, val).Some?
    ensures fee == if found then bands[FirstMatch(bands, val).value].fee else 0.0
  {
    fee := 0.0;
    found := false;
    var i := 0;
    while i < |bands|
      invariant 0 <= i <= |bands|
      invariant forall j :: 0 <= j < i ==> bands[j].limit < val
      invariant !found && fee == 0.0
    {
      if val <= bands[i].limit {
        fee := bands[i].fee;
        found := true;
        break;
      }
      i := i + 1;
    }
  }

  /** The whole lookup: the scan over the shipped schedule, then the fallback
      that assigns the plateau fee when nothing was found for a price within
      the supported maximum. */
  method LookupBuyerFee(val: real) returns (fee: real)
    ensures fee == BuyerFee(val)
  {
    var found;
    fee, found := ScanBands(Bands, val);
    if !found && val <= MaxSupported {
      fee := PlateauFee;
    }
  }

  /** A band index is the first match exactly when `val` lies in that band's
      interval: above the previous band's limit and at most its own. */
  lemma FirstMatchIsInterval(val: real, i: nat)
    requires i < |Bands|
    ensures FirstMatch(Bands, val) == Some(i)
        <==> (i == 0 || Bands[i - 1].limit < val) && val <= Bands[i].limit
  {
    BandsWellFormed();
  }

  /** Every band's fee applies across its whole interval: the fee for `val`
      is band `i`'s fee whenever `val` is above the previous limit and at most
      band `i`'s limit. */
  lemma FeeOfInterval(val: real, i: nat)
    requires i < |Bands|
    requires i == 0 || Bands[i - 1].limit < val
    requires val <= Bands[i].limit
    ensures BuyerFee(val) == Bands[i].fee
  {
    FirstMatchIsInterval(val, i);
  }

  /** The scan finds a band exactly for the prices up to the top limit, so
      the fallback can never change the fee. */
  lemma ScanFindsBandIffSupported(val: real)
    ensures FirstMatch(Bands, val).Some? <==> val <= MaxSupported
  {
    BandsWellFormed();
  }

  /** The fallback is dead code: for every price the fee is either the fee of
      the first matching band or, above the supported maximum, 0. */
  lemma FallbackNeverFires(val: real)
    ensures val <= MaxSupported ==>
              FirstMatch(Bands, val).Some? && BuyerFee(val) == Bands[FirstMatch(Bands, val).value].fee
    ensures MaxSupported < val ==> BuyerFee(val) == 0.0
  {
    ScanFindsBandIffSupported(val);
  }

  /** Within the supported range a higher price never has a lower fee. */
  lemma FeeMonotoneInRange(v1: real, v2: real)
    requires v1 <= v2 <= MaxSupported
    ensures BuyerFee(v1) <= BuyerFee(v2)
  {
    BandsWellFormed();
    ScanFindsBandIffSupported(v1);
    ScanFindsBandIffSupported(v2);
  }

  /** Above the supported maximum the fee drops to 0, below the plateau:
      monotonicity holds only inside the range. */
  lemma FeeDropsAboveRange()
    ensures BuyerFee(MaxSupported) == PlateauFee
    ensures BuyerFee(25000.0) == 0.0
  {
    FallbackNeverFires(MaxSupported);
    FallbackNeverFires(25000.0);
    FeeOfInterval(MaxSupported, |Bands| - 1);
  }

  /** A price equal to a limit belongs to that band, not the next. */
  lemma BoundaryFees()
    ensures BuyerFee(0.0) == 45.00
    ensures BuyerFee(49.0) == 45.00
    ensures BuyerFee(50.0) == 74.17
    ensures BuyerFee(20000.0) == 1074.17
    ensures BuyerFee(24999.0) == 1074.17
  {
    FeeOfInterval(0.0, 0);
    FeeOfInterval(49.0, 0);
    FeeOfInterval(50.0, 1);
    FeeOfInterval(20000.0, 42);
    FeeOfInterval(24999.0, 42);
  }
}
