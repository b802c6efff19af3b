/** Texts in character order, and numbers as texts of digits. */
module Numerals {
  import opened Sequences

  // ----- The order of texts -----

  /** The table's order: character by character. */
  predicate Before(a: string, b: string) {
    if b == [] then false
    else if a == [] then true
    else a[0] < b[0] || (a[0] == b[0] && Before(a[1..], b[1..]))
  }

  /** The first difference decides: fronts of one length come first, then what is behind them. */
  lemma {:induction false} FrontDecides(a: string, b: string, c: string, d: string)
    requires |a| == |b|
    ensures Before(a + c, b + d) <==> Before(a, b) || (a == b && Before(c, d))
    decreases |a|
  {
    if a == [] {
      NoneAdded(c);
      NoneAdded(d);
    } else {
      Peel(a, c);
      Peel(b, d);
      FrontDecides(a[1..], b[1..], c, d);
      Cons(a);
      Cons(b);
    }
  }

  lemma {:induction false} NotBeforeItself(a: string)
    ensures !Before(a, a)
  {
    if a != [] {
      NotBeforeItself(a[1..]);
    }
  }

  lemma NothingBeforeNothing(s: string)
    ensures !Before(s, [])
  {
  }

  // ----- Numerals -----

  function Digit(n: nat): char
    requires n < 16
  {
    if n < 10 then '0' + n as char else 'a' + (n - 10) as char
  }

  predicate IsBase(base: nat) {
    2 <= base <= 16
  }

  function Times(a: nat, b: nat): nat {
    a * b
  }

  function Quotient(n: nat, base: nat): nat
    requires IsBase(base)
  {
    n / base
  }

  function Remainder(n: nat, base: nat): (r: nat)
    requires IsBase(base)
    ensures r < base
  {
    n % base
  }

  /** The low `width` digits of `n`, padded with zeros. */
  function Numeral(n: nat, base: nat, width: nat): (s: string)
    requires IsBase(base)
    ensures |s| == width
  {
    if width == 0 then [] else Numeral(Quotient(n, base), base, width - 1) + [Digit(Remainder(n, base))]
  }

  function Power(base: nat, width: nat): nat {
    if width == 0 then 1 else Times(base, Power(base, width - 1))
  }

  lemma Monotone(base: nat, p: nat, q: nat)
    ensures p <= q ==> Times(base, p) <= Times(base, q)
    ensures Times(base, p + 1) == Times(base, p) + base
  {
  }

  lemma Recombined(n: nat, base: nat)
    requires IsBase(base)
    ensures n == Times(base, Quotient(n, base)) + Remainder(n, base)
  {
  }

  lemma QuotientsDecide(m: nat, n: nat, base: nat)
    requires IsBase(base)
    ensures m < n <==> Quotient(m, base) < Quotient(n, base)
                       || (Quotient(m, base) == Quotient(n, base) && Remainder(m, base) < Remainder(n, base))
    ensures m == n <==> Quotient(m, base) == Quotient(n, base) && Remainder(m, base) == Remainder(n, base)
  {
    hide Times, Quotient, Remainder;
    var (p, q) := (Quotient(m, base), Quotient(n, base));
    Recombined(m, base);
    Recombined(n, base);
    Monotone(base, p + 1, q);
    Monotone(base, q + 1, p);
    Monotone(base, p, q);
    Monotone(base, q, p);
  }

  lemma QuotientFits(n: nat, base: nat, span: nat)
    requires IsBase(base) && n < Times(base, span)
    ensures Quotient(n, base) < span
  {
    hide Times, Quotient, Remainder;
    Recombined(n, base);
    Monotone(base, span, Quotient(n, base));
  }

  /** Padded numbers are ordered as text exactly as they are as numbers. */
  lemma {:induction false} NumeralsInOrder(m: nat, n: nat, base: nat, width: nat)
    requires IsBase(base) && m < Power(base, width) && n < Power(base, width)
    ensures Before(Numeral(m, base, width), Numeral(n, base, width)) <==> m < n
    ensures Numeral(m, base, width) == Numeral(n, base, width) <==> m == n
    decreases width
  {
    if width > 0 {
      hide Times, Quotient, Remainder, Before;
      var (p, q) := (Quotient(m, base), Quotient(n, base));
      QuotientFits(m, base, Power(base, width - 1));
      QuotientFits(n, base, Power(base, width - 1));
      NumeralsInOrder(p, q, base, width - 1);
      QuotientsDecide(m, n, base);
      LastDigitDecides(p, q, Remainder(m, base), Remainder(n, base), base, width - 1);
    }
  }

  /** One digit more on texts that are in order. */
  lemma LastDigitDecides(p: nat, q: nat, x: nat, y: nat, base: nat, width: nat)
    requires IsBase(base) && x < base && y < base
    ensures var (s, t) := (Numeral(p, base, width), Numeral(q, base, width));
            && (Before(s + [Digit(x)], t + [Digit(y)]) <==> Before(s, t) || (s == t && x < y))
            && (s + [Digit(x)] == t + [Digit(y)] <==> s == t && x == y)
  {
    var (s, t) := (Numeral(p, base, width), Numeral(q, base, width));
    FrontDecides(s, t, [Digit(x)], [Digit(y)]);
    SameEnds(s, t, Digit(x), Digit(y));
  }

  lemma SameEnds(a: string, b: string, c: char, d: char)
    requires |a| == |b|
    ensures a + [c] == b + [d] <==> a == b && c == d
  {
    Parts(a, [c]);
    Parts(b, [d]);
    if a + [c] == b + [d] {
      assert (a + [c])[|a|] == (b + [d])[|b|];
    }
  }
}
