/** All payoffs together, against all the money of the experiment. */
module PayoffTotals {
  import opened Portfolios
  import opened Servers
  import opened Conservation
  import opened Controllers

  /** The payoffs of the first `n` subjects at one exchange rate, added up. */
  function TotalCents(folios: Folios, ePerDollar: real, n: nat): int
    requires ePerDollar != 0.0
  {
    if n == 0 then 0
    else
      TotalCents(folios, ePerDollar, n - 1)
      + if n - 1 in folios then PayoffCents(folios[n - 1], ePerDollar) else 0
  }

  /** Cash and margin of the first `n` subjects. */
  function Money(folios: Folios, n: nat): int {
    Holdings(folios, Cash, n) + Holdings(folios, Margin, n)
  }

  /** `cents` at this rate are worth `hundredths` up to the worth of `n` cents. */
  predicate Within(hundredths: real, cents: real, e: real, n: real) {
    -(n * e) <= hundredths - cents * e <= n * e
  }

  lemma WithinAdds(h: real, c: real, h': real, c': real, e: real, n: real)
    requires e > 0.0 && Within(h, c, e, n) && Fair(h', c', e)
    ensures Within(h + h', c + c', e, n + 1.0)
  {
    assert (c + c') * e == c * e + c' * e;
    assert (n + 1.0) * e == n * e + e;
  }

  lemma WithinWidens(h: real, c: real, e: real, n: real)
    requires e > 0.0 && Within(h, c, e, n)
    ensures Within(h, c, e, n + 1.0)
  {
    assert (n + 1.0) * e == n * e + e;
  }

  /** The payoffs of `n` subjects miss their money by no more than `n` cents. */
  lemma {:induction false} PayoffsNearMoney(folios: Folios, ePerDollar: real, n: nat)
    requires ePerDollar > 0.0
    ensures Within(Money(folios, n) as real * 100.0, TotalCents(folios, ePerDollar, n) as real, ePerDollar, n as real)
  {
    if n > 0 {
      hide Within, Fair, PayoffCents;
      PayoffsNearMoney(folios, ePerDollar, n - 1);
      var h, c := Money(folios, n - 1) as real * 100.0, TotalCents(folios, ePerDollar, n - 1) as real;
      assert (n - 1) as real + 1.0 == n as real;
      if n - 1 in folios {
        var worth := ItemCount(folios[n - 1], Cash) + ItemCount(folios[n - 1], Margin);
        var cents := PayoffCents(folios[n - 1], ePerDollar);
        PayoffIsFair(folios[n - 1], ePerDollar);
        WithinAdds(h, c, worth as real * 100.0, cents as real, ePerDollar, (n - 1) as real);
        assert Money(folios, n) as real * 100.0 == h + worth as real * 100.0;
        assert TotalCents(folios, ePerDollar, n) as real == c + cents as real;
      } else {
        WithinWidens(h, c, ePerDollar, (n - 1) as real);
        assert Money(folios, n) == Money(folios, n - 1);
      }
    }
  }

  /**
   * End to end: at one exchange rate, whenever the payoffs are worked out, they
   * add up to what the configuration put in and the dividends paid on the net
   * units, up to a cent a subject. Nothing traded, created or cleared on the
   * way makes a difference.
   */
  lemma PayoffsAddUp(ws: seq<World>, es: seq<Event>, k: nat, j: nat, ePerDollar: real)
    requires IsRun(ws, es) && k < j < |ws| && AcceptedStart(ws[k], es[k]) && ePerDollar > 0.0
    ensures var config, n := ws[k].state.desk.config, |ws[k].state.subjects|;
            var units := Configured(config, Shares, n) - Configured(config, Derivatives, n);
            var money := Configured(config, Cash, n) + Configured(config, Margin, n) + units * PaidOut(ws[j]);
            var m, folios := |ws[j].state.subjects|, ws[j].state.desk.folios;
            Within(money as real * 100.0, TotalCents(folios, ePerDollar, m) as real, ePerDollar, m as real)
  {
    hide IsRun, Within, AcceptedStart;
    WealthConserved(ws, es, k, j);
    PayoffsNearMoney(ws[j].state.desk.folios, ePerDollar, |ws[j].state.subjects|);
  }
}
