/** A report that states its own encoded size. */
module FitReport {
  const HARD_MAX_REPORT_BYTES: nat := 256_000

  // ----- decimal digits --------------------------------------------------------

  function Digits(n: nat): (d: nat)
    ensures d >= 1
  {
    if n < 10 then 1 else 1 + Digits(n / 10)
  }

  lemma DigitsGrow(m: nat, n: nat)
    requires m <= n
    ensures Digits(m) <= Digits(n)
  {
    if m >= 10 {
      DigitsGrow(m / 10, n / 10);
    }
  }

  /** Up to ten times the number adds at most one digit. */
  lemma DigitsAdd(c: nat, x: nat)
    requires c >= 1 && x <= 9 * c
    ensures Digits(c) <= Digits(c + x) <= Digits(c) + 1
  {
    DigitsGrow(c, c + x);
    DigitsGrow(c + x, 10 * c);
    assert (10 * c) / 10 == c;
  }

  lemma DigitsSmall(c: nat)
    requires c >= 1
    ensures Digits(c) <= c
  {
    if c >= 10 {
      DigitsSmall(c / 10);
    }
  }

  // ----- the fixed point ------------------------------------------------------------

  /** `r` is the true size of a report whose other parts take `c` bytes. */
  predicate Consistent(c: nat, r: nat) {
    r == c + Digits(r)
  }

  /** Writing the size down and measuring again, `n` times. */
  function Remeasured(c: nat, r: nat, n: nat): nat {
    if n == 0 then r else c + Digits(Remeasured(c, r, n - 1))
  }

  lemma {:induction false} NearlyThere(c: nat, r: nat)
    requires c >= 10 && (r == c + Digits(c) || r == c + Digits(c) + 1)
    ensures Consistent(c, c + Digits(r))
  {
    var d := Digits(c);
    var low, high := Digits(c + d), Digits(c + d + 1);
    assert d <= low <= high <= d + 1 by {
      DigitsSmall(c);
      DigitsAdd(c, d);
      DigitsAdd(c, d + 1);
      DigitsGrow(c + d, c + d + 1);
    }
    assert Digits(r) == low || Digits(r) == high;
    if Digits(r) == d {
      assert low == d;
    } else {
      assert high == d + 1;
    }
  }

  /** From any start below 10 to the 90th, three measurements are enough. */
  lemma MeasuringConverges(c: nat, r: nat)
    requires c >= 10 && Digits(r) <= 90
    ensures Consistent(c, Remeasured(c, r, 3))
  {
    var r1 := c + Digits(r);
    assert Remeasured(c, r, 1) == r1;
    DigitsAdd(c, Digits(r));
    NearlyThere(c, c + Digits(r1));
    assert Remeasured(c, r, 2) == c + Digits(r1);
  }

  lemma MeasuringStays(c: nat, r: nat, n: nat)
    requires n >= 3 && Consistent(c, Remeasured(c, r, 3))
    ensures Remeasured(c, r, n) == Remeasured(c, r, 3)
  {
    if n > 3 {
      MeasuringStays(c, r, n - 1);
    }
  }

  lemma FiveDigits(n: nat)
    ensures n < 100_000 <==> Digits(n) <= 5
  {
    if n < 100_000 {
      DigitsGrow(n, 99_999);
      assert Digits(99_999) == 1 + Digits(9_999);
      assert Digits(9_999) == 1 + Digits(999);
      assert Digits(999) == 3;
    } else {
      DigitsGrow(100_000, n);
      assert Digits(100_000) == 1 + Digits(10_000);
      assert Digits(10_000) == 1 + Digits(1_000);
      assert Digits(1_000) == 4;
    }
  }

  lemma SixDigits(n: nat)
    requires 100_000 <= n < 1_000_000
    ensures Digits(n) == 6
  {
    FiveDigits(n);
    FiveDigits(n / 10);
  }

  /** Where two sizes are consistent they lie on the same side of the ceiling. */
  lemma SameSide(c: nat, r: nat, s: nat)
    requires c >= 10 && Consistent(c, r) && Consistent(c, s) && r <= HARD_MAX_REPORT_BYTES
    ensures s <= HARD_MAX_REPORT_BYTES
  {
    if s > HARD_MAX_REPORT_BYTES {
      FiveDigits(r);
      if r >= 100_000 {
        SixDigits(r);
        DigitsSmall(c);
        if s < 1_000_000 {
          SixDigits(s);
        } else {
          Far(c, s);
        }
      } else {
        Far(c, s);
      }
    }
  }

  lemma Far(c: nat, s: nat)
    requires c >= 10 && Consistent(c, s) && c <= HARD_MAX_REPORT_BYTES
    ensures s <= c + 7
  {
    DigitsSmall(s);
    DigitsGrow(c, 999_999);
    SixDigits(999_999);
    if Digits(s) > 9 * c {
      // a size has far fewer digits than nine times its remainder
      Slow(s);
    } else {
      DigitsAdd(c, Digits(s));
    }
  }

  lemma Slow(s: nat)
    requires s >= 10
    ensures 5 * Digits(s) <= s
  {
    if s >= 100 {
      Slow(s / 10);
    }
  }

  // ----- the report ---------------------------------------------------------------------

  /** Bytes of the braces and of the three names every report has. */
  const FRAME: nat := 54

  function Sum(rows: seq<nat>): nat {
    if rows == [] then 0 else Sum(rows[..|rows| - 1]) + rows[|rows| - 1]
  }

  /** Everything but the digits of the size: other fields, the preview rows with their
      brackets and commas, and the flag, which is a byte shorter once it is true. */
  function RestOf(others: nat, rows: seq<nat>, truncated: bool): nat {
    FRAME + others + 2 + Sum(rows) + (if rows == [] then 0 else |rows| - 1) + if truncated then 4 else 5
  }

  /** The rest of the report when only the first `m` preview rows are kept. */
  function RestAt(others: nat, rows: seq<nat>, truncated: bool, m: nat): nat
    requires m <= |rows|
  {
    RestOf(others, rows[..m], truncated || m < |rows|)
  }

  /** Some self-consistent size under the ceiling exists for the first `m` rows. */
  ghost predicate PrefixFits(others: nat, rows: seq<nat>, truncated: bool, m: nat)
    requires m <= |rows|
  {
    exists r | 0 <= r <= HARD_MAX_REPORT_BYTES :: Consistent(RestAt(others, rows, truncated, m), r)
  }

  lemma RestShrinks(others: nat, rows: seq<nat>, truncated: bool, m: nat)
    requires 0 < m <= |rows|
    ensures RestAt(others, rows, truncated, m - 1) <= RestAt(others, rows, truncated, m)
  {
    assert rows[..m][..m - 1] == rows[..m - 1];
  }

  class Report {
    const others: nat
    var rows: seq<nat>          // encoded length of each preview row
    var truncated: bool
    var bytes: nat

    constructor (o: nat, r: seq<nat>, t: bool)
      ensures others == o && rows == r && truncated == t
    {
      others, rows, truncated, bytes := o, r, t, 0;
    }

    function Encoded(): nat
      reads this
    {
      RestOf(others, rows, truncated) + Digits(bytes)
    }

    /** The inner loop: within ten rounds the report states its own size. */
    method Measure()
      requires Digits(bytes) <= 90
      modifies this`bytes
      ensures bytes == Encoded() && Consistent(RestOf(others, rows, truncated), bytes)
    {
      ghost var c, r := RestOf(others, rows, truncated), bytes;
      MeasuringConverges(c, r);
      for n := 0 to 10
        invariant bytes == Remeasured(c, r, n)
      {
        var actual := Encoded();
        if actual == bytes {
          return;
        }
        bytes := actual;
      }
      MeasuringStays(c, r, 10);
    }

    /** Drops preview rows from the end until the report fits. It succeeds exactly when
        some prefix of the preview fits, keeps the longest such prefix, and then states
        its true size. */
    method Fit() returns (ok: bool)
      requires Digits(RestOf(others, rows, truncated)) <= 89
      modifies this
      ensures ok <==> exists m: nat | m <= |old(rows)| :: PrefixFits(others, old(rows), old(truncated), m)
      ensures ok ==> bytes == Encoded() <= HARD_MAX_REPORT_BYTES
      ensures ok ==>
                && |rows| <= |old(rows)| && rows == old(rows)[..|rows|]
                && truncated == (old(truncated) || |rows| < |old(rows)|)
                && PrefixFits(others, old(rows), old(truncated), |rows|)
                && forall m | |rows| < m <= |old(rows)| :: !PrefixFits(others, old(rows), old(truncated), m)
    {
      ghost var all, flag := rows, truncated;
      assert all[..|all|] == all;
      bytes := 0;
      while true
        invariant |rows| <= |all| && rows == all[..|rows|] && truncated == (flag || |rows| < |all|)
        invariant forall m | |rows| < m <= |all| :: !PrefixFits(others, all, flag, m)
        invariant Digits(RestOf(others, rows, truncated)) <= 89 && Digits(bytes) <= 90
        decreases |rows|
      {
        ghost var c := RestOf(others, rows, truncated);
        assert c == RestAt(others, all, flag, |rows|);
        Measure();
        assert Consistent(c, bytes);
        if Encoded() <= HARD_MAX_REPORT_BYTES && Encoded() == bytes {
          assert PrefixFits(others, all, flag, |rows|);
          return true;
        }
        TooLarge(c, bytes);
        assert !PrefixFits(others, all, flag, |rows|);
        if rows == [] {
          return false;
        }
        RestShrinks(others, all, flag, |rows|);
        rows := rows[..|rows| - 1];
        truncated := true;
        assert rows == all[..|rows|];
        assert RestOf(others, rows, truncated) == RestAt(others, all, flag, |rows|) <= c;
        DigitsGrow(RestOf(others, rows, truncated), c);
      }
    }
  }

  lemma TooLarge(c: nat, r: nat)
    requires c >= 10 && Consistent(c, r) && r > HARD_MAX_REPORT_BYTES
    ensures forall s | 0 <= s <= HARD_MAX_REPORT_BYTES :: !Consistent(c, s)
    ensures Digits(r) <= Digits(c) + 1
  {
    forall s | 0 <= s <= HARD_MAX_REPORT_BYTES ensures !Consistent(c, s) {
      if Consistent(c, s) {
        SameSide(c, s, r);
      }
    }
    Slow(r);
    DigitsAdd(c, Digits(r));
  }
}
