/** Module pricing: a base price scaled to the asset plus four fees rounded up, all checked in u128. */
module Pricing {
  import opened Machine

  /** The four fee shares, in basis points of the base price. */
  datatype Fees = Fees(creator: u16, operator: u16, protocol: u16, dbs: u16) {
    function Total(): nat {
      creator + operator + protocol + dbs
    }
  }

  /** What a module is sold at: the base price in whole currency units and its fee split. */
  datatype Terms = Terms(price: u64, fees: Fees)

  datatype FeeParts = FeeParts(creator: nat, operator: nat, protocol: nat, dbs: nat)

  function Pow10(n: nat): (p: nat)
    ensures p >= 1
  {
    if n == 0 then 1 else 10 * Pow10(n - 1)
  }

  function ScaleToAsset(price: u64, decimals: u8): Result<nat> {
    var p := Pow10(decimals);
    :- Need(p <= U128_MAX);
    CheckedMul(price, p, U128_MAX)
  }

  function FeeCeil(amount: nat, bps: u16): Result<nat> {
    if bps == 0 then Ok(0)
    else
      var product :- CheckedMul(amount, bps, U128_MAX);
      var numerator :- CheckedAdd(product, 9999, U128_MAX);
      Ok(numerator / 10000)
  }

  function BpsFloor(amount: nat, bps: u16): Result<nat> {
    var product :- CheckedMul(amount, bps, U128_MAX);
    Ok(product / 10000)
  }

  function PartsOf(base: nat, fees: Fees): Result<FeeParts> {
    var creator :- FeeCeil(base, fees.creator);
    var operator :- FeeCeil(base, fees.operator);
    var protocol :- FeeCeil(base, fees.protocol);
    var dbs :- FeeCeil(base, fees.dbs);
    Ok(FeeParts(creator, operator, protocol, dbs))
  }

  function PartsTotal(parts: FeeParts): Result<nat> {
    var two :- CheckedAdd(parts.creator, parts.operator, U128_MAX);
    var three :- CheckedAdd(two, parts.protocol, U128_MAX);
    CheckedAdd(three, parts.dbs, U128_MAX)
  }

  function PricePerToken(terms: Terms, decimals: u8): Result<u64> {
    var base :- ScaleToAsset(terms.price, decimals);
    var parts :- PartsOf(base, terms.fees);
    var fees :- PartsTotal(parts);
    var total :- CheckedAdd(base, fees, U128_MAX);
    if total <= U64_MAX then Ok(total) else Err
  }

  // ----- the exact values the checked arithmetic stands for -----

  /** The base price in the asset's smallest unit. */
  function Base(terms: Terms, decimals: u8): nat {
    terms.price * Pow10(decimals)
  }

  /** The least whole number of units that is at least `bps` ten-thousandths of the amount. */
  ghost predicate IsCeilShare(amount: nat, bps: u16, share: nat) {
    10000 * share >= amount * bps && (share > 0 ==> 10000 * (share - 1) < amount * bps)
  }

  /** The greatest whole number of units that is at most `bps` ten-thousandths of the amount. */
  ghost predicate IsFloorShare(amount: nat, bps: u16, share: nat) {
    10000 * share <= amount * bps < 10000 * (share + 1)
  }

  /** Up to u64 amounts a fee never overflows, and it is the exact share rounded up. */
  lemma FeeCeilExact(amount: nat, bps: u16)
    requires amount <= U64_MAX
    ensures FeeCeil(amount, bps).Ok?
    ensures IsCeilShare(amount, bps, FeeCeil(amount, bps).value)
    ensures bps <= 10000 ==> FeeCeil(amount, bps).value <= amount
  {
    var product := amount * bps;
    assert product <= U64_MAX * U16_MAX by {
      MulBounded(amount, bps, U64_MAX, U16_MAX);
    }
    if bps <= 10000 {
      MulBounded(amount, bps, amount, 10000);
    }
  }

  lemma BpsFloorExact(amount: nat, bps: u16)
    requires amount <= U64_MAX
    ensures BpsFloor(amount, bps).Ok?
    ensures IsFloorShare(amount, bps, BpsFloor(amount, bps).value)
    ensures bps <= 10000 ==> BpsFloor(amount, bps).value <= amount
  {
    MulBounded(amount, bps, U64_MAX, U16_MAX);
    if bps <= 10000 {
      MulBounded(amount, bps, amount, 10000);
    }
  }

  lemma MulBounded(a: nat, b: nat, x: nat, y: nat)
    requires a <= x && b <= y
    ensures a * b <= x * y
  {
    assert a * b <= x * b;
    assert x * b <= x * y;
  }

  /** A share computed to be the rounded-up one is the only such share. */
  lemma CeilShareUnique(amount: nat, bps: u16, s: nat, t: nat)
    requires IsCeilShare(amount, bps, s) && IsCeilShare(amount, bps, t)
    ensures s == t
  {
  }

  /** Whatever the intermediate checks, an `Ok` price is exact and every part of it fits in a u64. */
  lemma PriceParts(terms: Terms, decimals: u8)
    requires PricePerToken(terms, decimals).Ok?
    ensures ScaleToAsset(terms.price, decimals) == Ok(Base(terms, decimals))
    ensures PartsOf(Base(terms, decimals), terms.fees).Ok?
    ensures var parts := PartsOf(Base(terms, decimals), terms.fees).value;
            && PricePerToken(terms, decimals).value
               == Base(terms, decimals) + parts.creator + parts.operator + parts.protocol + parts.dbs
            && Base(terms, decimals) <= U64_MAX
            && IsCeilShare(Base(terms, decimals), terms.fees.creator, parts.creator)
            && IsCeilShare(Base(terms, decimals), terms.fees.operator, parts.operator)
            && IsCeilShare(Base(terms, decimals), terms.fees.protocol, parts.protocol)
            && IsCeilShare(Base(terms, decimals), terms.fees.dbs, parts.dbs)
  {
    var base := Base(terms, decimals);
    FeeCeilExact(base, terms.fees.creator);
    FeeCeilExact(base, terms.fees.operator);
    FeeCeilExact(base, terms.fees.protocol);
    FeeCeilExact(base, terms.fees.dbs);
  }

  /**
   * A price is quoted exactly when the true total, computed without any width, fits in a u64:
   * no intermediate u128 check ever refuses a price the account could hold.
   */
  lemma PriceQuotedIffItFits(terms: Terms, decimals: u8, creator: nat, operator: nat, protocol: nat, dbs: nat)
    requires terms.price > 0
    requires IsCeilShare(Base(terms, decimals), terms.fees.creator, creator)
    requires IsCeilShare(Base(terms, decimals), terms.fees.operator, operator)
    requires IsCeilShare(Base(terms, decimals), terms.fees.protocol, protocol)
    requires IsCeilShare(Base(terms, decimals), terms.fees.dbs, dbs)
    ensures var total := Base(terms, decimals) + creator + operator + protocol + dbs;
            && (PricePerToken(terms, decimals).Ok? <==> total <= U64_MAX)
            && (total <= U64_MAX ==> PricePerToken(terms, decimals).value == total)
  {
    var base := Base(terms, decimals);
    if base <= U64_MAX {
      assert Pow10(decimals) <= base by {
        MulBounded(1, Pow10(decimals), terms.price, Pow10(decimals));
      }
      FeeCeilExact(base, terms.fees.creator);
      FeeCeilExact(base, terms.fees.operator);
      FeeCeilExact(base, terms.fees.protocol);
      FeeCeilExact(base, terms.fees.dbs);
      var parts := PartsOf(base, terms.fees).value;
      CeilShareUnique(base, terms.fees.creator, parts.creator, creator);
      CeilShareUnique(base, terms.fees.operator, parts.operator, operator);
      CeilShareUnique(base, terms.fees.protocol, parts.protocol, protocol);
      CeilShareUnique(base, terms.fees.dbs, parts.dbs, dbs);
    } else if PricePerToken(terms, decimals).Ok? {
      PriceParts(terms, decimals);
    }
  }

  /** The price is the base with the whole fee split on top, rounded up by less than four units. */
  lemma PriceBound(terms: Terms, decimals: u8)
    requires PricePerToken(terms, decimals).Ok?
    ensures Base(terms, decimals) * (10000 + terms.fees.Total()) <= 10000 * PricePerToken(terms, decimals).value
    ensures 10000 * PricePerToken(terms, decimals).value
            <= Base(terms, decimals) * (10000 + terms.fees.Total()) + 39996
    ensures terms.fees.Total() <= 10000 ==> PricePerToken(terms, decimals).value <= 2 * Base(terms, decimals) + 3
  {
    PriceParts(terms, decimals);
    var base, f := Base(terms, decimals), terms.fees;
    var parts := PartsOf(base, f).value;
    var price := PricePerToken(terms, decimals).value;
    CeilShareBound(base, f.creator, parts.creator);
    CeilShareBound(base, f.operator, parts.operator);
    CeilShareBound(base, f.protocol, parts.protocol);
    CeilShareBound(base, f.dbs, parts.dbs);
    var exact := base * (10000 + f.Total());
    assert exact <= 10000 * price <= exact + 39996 by {
      Distribute(base, f);
    }
    if f.Total() <= 10000 {
      MulBounded(base, 10000 + f.Total(), base, 20000);
      assert exact <= base * 20000;
    }
  }

  lemma CeilShareBound(amount: nat, bps: u16, share: nat)
    requires IsCeilShare(amount, bps, share)
    ensures amount * bps <= 10000 * share <= amount * bps + 9999
  {
  }

  lemma Distribute(base: nat, f: Fees)
    ensures base * (10000 + f.Total())
            == base * 10000 + base * f.creator + base * f.operator + base * f.protocol + base * f.dbs
  {
  }

  /** Cheaper terms never cost more: the quoted price is monotone in every fee share. */
  lemma PriceMonotoneInFees(price: u64, low: Fees, high: Fees, decimals: u8)
    requires low.creator <= high.creator && low.operator <= high.operator
    requires low.protocol <= high.protocol && low.dbs <= high.dbs
    requires PricePerToken(Terms(price, high), decimals).Ok?
    ensures PricePerToken(Terms(price, low), decimals).Ok?
    ensures PricePerToken(Terms(price, low), decimals).value <= PricePerToken(Terms(price, high), decimals).value
  {
    var base := Base(Terms(price, high), decimals);
    PriceParts(Terms(price, high), decimals);
    FeeCeilMonotone(base, low.creator, high.creator);
    FeeCeilMonotone(base, low.operator, high.operator);
    FeeCeilMonotone(base, low.protocol, high.protocol);
    FeeCeilMonotone(base, low.dbs, high.dbs);
  }

  lemma FeeCeilMonotone(amount: nat, low: u16, high: u16)
    requires amount <= U64_MAX && low <= high
    ensures FeeCeil(amount, low).Ok? && FeeCeil(amount, high).Ok?
    ensures FeeCeil(amount, low).value <= FeeCeil(amount, high).value
  {
    FeeCeilExact(amount, low);
    FeeCeilExact(amount, high);
    MulBounded(amount, low, amount, high);
  }
}
