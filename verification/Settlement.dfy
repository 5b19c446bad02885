/** How a scored delivery divides its escrowed payment. */
module Settlement {
  import opened Machine
  import opened Pricing

  datatype Payout = Payout(creator: nat, operator: nat, protocol: nat, lecturer: nat, refund: nat) {
    function Paid(): nat {
      creator + operator + protocol + lecturer
    }

    function Total(): nat {
      Paid() + refund
    }
  }

  function SumParts(a: nat, b: nat, c: nat): Result<nat> {
    var two :- CheckedAdd(a, b, U128_MAX);
    CheckedAdd(two, c, U128_MAX)
  }

  /** The shares at a score, with the lecturer's share cut so that no more than the escrow is paid. */
  function Shares(base: nat, parts: FeeParts, escrowed: u64, score: u16): Result<Payout> {
    var creator :- BpsFloor(parts.creator, score);
    var operator :- BpsFloor(parts.operator, score);
    var protocol :- BpsFloor(parts.protocol, score);
    var dbs :- BpsFloor(parts.dbs, score);
    var delivery :- BpsFloor(base, score);
    var lecturerFull :- CheckedAdd(delivery, dbs, U128_MAX);
    var others :- SumParts(creator, operator, protocol);
    var total :- CheckedAdd(lecturerFull, others, U128_MAX);
    var lecturer :- if total <= escrowed then Ok(lecturerFull) else CheckedSub(escrowed, others);
    Ok(Payout(creator, operator, protocol, lecturer, 0))
  }

  /** The whole computation of a settlement: price parts, shares, refund, and the casts to token amounts. */
  function Split(terms: Terms, decimals: u8, escrowed: u64, score: u16, minimum: u16): Result<Payout> {
    var base :- ScaleToAsset(terms.price, decimals);
    var parts :- PartsOf(base, terms.fees);
    var shares :- if score >= minimum then Shares(base, parts, escrowed, score) else Ok(Payout(0, 0, 0, 0, 0));
    var three :- SumParts(shares.creator, shares.operator, shares.protocol);
    var paid :- CheckedAdd(three, shares.lecturer, U128_MAX);
    var refund :- CheckedSub(escrowed, paid);
    :- Need(shares.creator <= U64_MAX && shares.operator <= U64_MAX && shares.protocol <= U64_MAX
            && shares.lecturer <= U64_MAX && refund <= U64_MAX);
    Ok(shares.(refund := refund))
  }

  /** Nothing is stranded or overpaid, whatever was escrowed: the five amounts add up to the escrow. */
  lemma SplitConserves(terms: Terms, decimals: u8, escrowed: u64, score: u16, minimum: u16)
    requires Split(terms, decimals, escrowed, score, minimum).Ok?
    ensures Split(terms, decimals, escrowed, score, minimum).value.Total() == escrowed
  {
  }

  /** Every party gets exactly the floor of its part at the score; the lecturer gets two floors, base and DBS. */
  ghost predicate IsScoredPayout(base: nat, parts: FeeParts, score: u16, pay: Payout) {
    && IsFloorShare(parts.creator, score, pay.creator)
    && IsFloorShare(parts.operator, score, pay.operator)
    && IsFloorShare(parts.protocol, score, pay.protocol)
    && exists dbs: nat, delivery: nat ::
         IsFloorShare(parts.dbs, score, dbs) && IsFloorShare(base, score, delivery) && pay.lecturer == delivery + dbs
  }

  /** With the whole price in escrow the shares need no clamp. */
  lemma SharesExact(base: nat, parts: FeeParts, escrowed: u64, score: u16)
    requires score <= 10000
    requires base + parts.creator + parts.operator + parts.protocol + parts.dbs == escrowed
    ensures Shares(base, parts, escrowed, score).Ok?
    ensures IsScoredPayout(base, parts, score, Shares(base, parts, escrowed, score).value)
    ensures Shares(base, parts, escrowed, score).value.Paid() <= escrowed
    ensures Shares(base, parts, escrowed, score).value.refund == 0
  {
    BpsFloorExact(parts.creator, score);
    BpsFloorExact(parts.operator, score);
    BpsFloorExact(parts.protocol, score);
    BpsFloorExact(parts.dbs, score);
    BpsFloorExact(base, score);
    var pay := Shares(base, parts, escrowed, score).value;
    var dbs, delivery := BpsFloor(parts.dbs, score).value, BpsFloor(base, score).value;
    assert pay.lecturer == delivery + dbs;
  }

  /**
   * On the price the sponsor escrowed, settlement never errors, the clamp on the lecturer never acts,
   * the five amounts add up to the escrow, and below the minimum the sponsor gets everything back.
   */
  lemma SplitExact(terms: Terms, decimals: u8, score: u16, minimum: u16)
    requires PricePerToken(terms, decimals).Ok? && score <= 10000
    ensures PartsOf(Base(terms, decimals), terms.fees).Ok?
    ensures var price := PricePerToken(terms, decimals).value;
            var pay := Split(terms, decimals, price, score, minimum);
            && pay.Ok?
            && pay.value.Total() == price
            && (score < minimum ==> pay.value.refund == price)
            && (score >= minimum ==>
                  IsScoredPayout(Base(terms, decimals), PartsOf(Base(terms, decimals), terms.fees).value, score,
                                 pay.value))
  {
    PriceParts(terms, decimals);
    var price := PricePerToken(terms, decimals).value;
    var base := Base(terms, decimals);
    var parts := PartsOf(base, terms.fees).value;
    SharesExact(base, parts, price, score);
  }

  /** Five roundings cost the payees less than five units: 10000 paid is price times score, less at most 49995. */
  lemma RoundingBound(terms: Terms, decimals: u8, score: u16, minimum: u16)
    requires PricePerToken(terms, decimals).Ok? && minimum <= score <= 10000
    ensures Split(terms, decimals, PricePerToken(terms, decimals).value, score, minimum).Ok?
    ensures var price := PricePerToken(terms, decimals).value;
            var pay := Split(terms, decimals, price, score, minimum).value;
            price * score - 49995 <= 10000 * pay.Paid() <= price * score
  {
    hide Split, PricePerToken, PartsOf, Base, IsFloorShare, IsCeilShare;
    SplitExact(terms, decimals, score, minimum);
    PriceParts(terms, decimals);
    var base := Base(terms, decimals);
    var parts := PartsOf(base, terms.fees).value;
    var price := PricePerToken(terms, decimals).value;
    var pay := Split(terms, decimals, price, score, minimum).value;
    var dbs: nat, delivery: nat :|
      IsFloorShare(parts.dbs, score, dbs) && IsFloorShare(base, score, delivery) && pay.lecturer == delivery + dbs;
    FloorShareBound(parts.creator, score, pay.creator);
    FloorShareBound(parts.operator, score, pay.operator);
    FloorShareBound(parts.protocol, score, pay.protocol);
    FloorShareBound(parts.dbs, score, dbs);
    FloorShareBound(base, score, delivery);
    assert price * score
        == base * score + parts.creator * score + parts.operator * score + parts.protocol * score
           + parts.dbs * score by {
      DistributeScore(base, parts, score);
    }
  }

  lemma FloorShareBound(amount: nat, bps: u16, share: nat)
    requires IsFloorShare(amount, bps, share)
    ensures amount * bps - 9999 <= 10000 * share <= amount * bps
  {
  }

  lemma DistributeScore(base: nat, p: FeeParts, score: u16)
    ensures (base + p.creator + p.operator + p.protocol + p.dbs) * score
            == base * score + p.creator * score + p.operator * score + p.protocol * score + p.dbs * score
  {
  }

  /** A better score never pays anyone less and never refunds the sponsor more, also across the minimum. */
  lemma SplitMonotone(terms: Terms, decimals: u8, low: u16, high: u16, minimum: u16)
    requires PricePerToken(terms, decimals).Ok? && low <= high <= 10000
    ensures Split(terms, decimals, PricePerToken(terms, decimals).value, low, minimum).Ok?
    ensures Split(terms, decimals, PricePerToken(terms, decimals).value, high, minimum).Ok?
    ensures var price := PricePerToken(terms, decimals).value;
            var a := Split(terms, decimals, price, low, minimum).value;
            var b := Split(terms, decimals, price, high, minimum).value;
            && a.creator <= b.creator && a.operator <= b.operator
            && a.protocol <= b.protocol && a.lecturer <= b.lecturer && b.refund <= a.refund
  {
    hide Split, PricePerToken, PartsOf, Base, IsFloorShare, IsCeilShare;
    SplitExact(terms, decimals, low, minimum);
    SplitExact(terms, decimals, high, minimum);
    var price := PricePerToken(terms, decimals).value;
    var base := Base(terms, decimals);
    var parts := PartsOf(base, terms.fees).value;
    var a, b := Split(terms, decimals, price, low, minimum).value, Split(terms, decimals, price, high, minimum).value;
    if low >= minimum {
      var dbs: nat, delivery: nat :|
        IsFloorShare(parts.dbs, low, dbs) && IsFloorShare(base, low, delivery) && a.lecturer == delivery + dbs;
      var dbs': nat, delivery': nat :|
        IsFloorShare(parts.dbs, high, dbs') && IsFloorShare(base, high, delivery') && b.lecturer == delivery' + dbs';
      FloorShareMonotone(parts.creator, low, high, a.creator, b.creator);
      FloorShareMonotone(parts.operator, low, high, a.operator, b.operator);
      FloorShareMonotone(parts.protocol, low, high, a.protocol, b.protocol);
      FloorShareMonotone(parts.dbs, low, high, dbs, dbs');
      FloorShareMonotone(base, low, high, delivery, delivery');
    }
  }

  lemma FloorShareMonotone(amount: nat, low: u16, high: u16, s: nat, t: nat)
    requires IsFloorShare(amount, low, s) && IsFloorShare(amount, high, t) && low <= high
    ensures s <= t
  {
    MulBounded(amount, low, amount, high);
  }
}
