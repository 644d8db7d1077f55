/**
  What the NUMERIC columns keep of a non-negative amount: prices two decimals, stock four,
  halves up, each below a limit. The columns round; neither the payloads nor replay do.
 */
module Columns {
  /** A non-negative amount as a column of two decimals keeps it. */
  function Cents(x: real): real { (x * 100.0 + 0.5).Floor as real / 100.0 }

  /** A non-negative amount as a column of four decimals keeps it. */
  function TenThousandths(x: real): real { (x * 10000.0 + 0.5).Floor as real / 10000.0 }

  /** What a price or a stock column cannot hold any more. */
  const COLUMN_LIMIT := 100000000.0

  /** A number a column of two decimals keeps exactly. */
  predicate WholeCents(x: real) { (x * 100.0).Floor as real == x * 100.0 }

  /** A number a column of four decimals keeps exactly. */
  predicate Fits(x: real) { (x * 10000.0).Floor as real == x * 10000.0 }

  lemma WholeIsWhole(n: int, x: real)
    requires x == n as real
    ensures x.Floor == n
  {
  }

  /** The price column changes a figure exactly when it has a fraction of a cent, and by half a cent at most. */
  lemma CentsIff(x: real)
    ensures WholeCents(Cents(x))
    ensures Cents(x) == x <==> WholeCents(x)
    ensures -0.005 <= x - Cents(x) <= 0.005
  {
    var n := (x * 100.0 + 0.5).Floor;
    assert Cents(x) * 100.0 == n as real;
    WholeIsWhole(n, Cents(x) * 100.0);
    if WholeCents(x) {
      var m := (x * 100.0).Floor;
      assert (m as real + 0.5).Floor == m;
    }
  }

  /** The same for the stock column and a ten-thousandth. */
  lemma FitsIff(x: real)
    ensures Fits(TenThousandths(x))
    ensures TenThousandths(x) == x <==> Fits(x)
    ensures -0.00005 <= x - TenThousandths(x) <= 0.00005
  {
    var n := (x * 10000.0 + 0.5).Floor;
    assert TenThousandths(x) * 10000.0 == n as real;
    WholeIsWhole(n, TenThousandths(x) * 10000.0);
    if Fits(x) {
      var m := (x * 10000.0).Floor;
      assert (m as real + 0.5).Floor == m;
    }
  }

  lemma WholeFits(n: int, x: real)
    requires x * 10000.0 == n as real
    ensures Fits(x)
  {
  }

  lemma FitsAdds(x: real, y: real)
    requires Fits(x) && Fits(y)
    ensures Fits(x + y) && Fits(x - y)
  {
    var a, b := (x * 10000.0).Floor, (y * 10000.0).Floor;
    WholeFits(a + b, x + y);
    WholeFits(a - b, x - y);
  }
}
