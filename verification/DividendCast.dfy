/** The dividend payment in the source's own integers: counts cast to unsigned, multiplied there, and cast back. */
module DividendCast {
  import opened Portfolios
  import opened Servers
  import opened Text

  /** `static_cast<unsigned>(units) * dividend`, taken as an `int`. */
  function CastProduct(units: int, dividend: nat): int {
    AsInt32(AsUnsigned(AsUnsigned(units) * dividend))
  }

  function PaidByCasts(port: Folio, dividend: nat): Folio {
    Transact(
      Transact(port, Cash, CastProduct(ItemCount(port, Shares), dividend)),
      Margin, -CastProduct(ItemCount(port, Derivatives), dividend))
  }

  lemma {:induction false} MultiplesVanish(x: int, k: nat)
    ensures (x + TWO_32 * k) % TWO_32 == x % TWO_32
  {
    if k > 0 {
      MultiplesVanish(x, k - 1);
    }
  }

  /** The product survives the casts, for negative counts too, exactly when it fits an `int`. */
  lemma CastProductIff(units: int, dividend: nat)
    requires IsInt32(units)
    ensures CastProduct(units, dividend) == units * dividend <==> IsInt32(units * dividend)
  {
    var product := units * dividend;
    if units < 0 {
      assert AsUnsigned(units) == units + TWO_32;
      assert (units + TWO_32) * dividend == product + TWO_32 * dividend;
      MultiplesVanish(product, dividend);
    }
    assert AsUnsigned(AsUnsigned(units) * dividend) == product % TWO_32;
  }

  /** The payment in machine integers is the payment of the model exactly when both products fit an `int`. */
  lemma PaidByCastsIff(port: Folio, dividend: nat)
    requires IsInt32(ItemCount(port, Shares)) && IsInt32(ItemCount(port, Derivatives))
    ensures PaidByCasts(port, dividend) == Paid(port, dividend) <==>
            && IsInt32(ItemCount(port, Shares) * dividend)
            && IsInt32(ItemCount(port, Derivatives) * dividend)
  {
    CastProductIff(ItemCount(port, Shares), dividend);
    CastProductIff(ItemCount(port, Derivatives), dividend);
    var cast, paid := PaidByCasts(port, dividend), Paid(port, dividend);
    if cast == paid {
      assert cast[Cash] == paid[Cash] && cast[Margin] == paid[Margin];
    }
  }
}
