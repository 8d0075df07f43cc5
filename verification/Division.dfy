/** Dividing in two steps is dividing by the product: what relates a digit loop to positional notation. */
module Division {
  lemma TimesMonotone(b: nat, x: nat, y: nat)
    requires x <= y
    ensures b * x <= b * y
  {
    assert b * y == b * x + b * (y - x);
  }

  lemma OneMoreTimes(b: nat, x: nat)
    ensures b * (x + 1) == b * x + b
  {
  }

  lemma QuotientIsUnique(b: nat, p: nat, s: nat, q: nat, r: nat)
    requires s < b && r < b && b * p + s == b * q + r
    ensures p == q
  {
    OneMoreTimes(b, p);
    OneMoreTimes(b, q);
    if p < q {
      TimesMonotone(b, p + 1, q);
    } else if q < p {
      TimesMonotone(b, q + 1, p);
    }
  }

  lemma Regroup(b: nat, c: nat, q: nat, r: nat, s: nat)
    ensures b * (c * q + r) + s == (b * c) * q + (b * r + s)
  {
    assert b * (c * q + r) == b * (c * q) + b * r;
    assert b * (c * q) == (b * c) * q;
  }

  lemma Divides(a: nat, b: nat)
    requires b > 0
    ensures a == b * (a / b) + a % b && 0 <= a % b < b && a / b >= 0
  {
  }

  lemma Positive(b: nat, c: nat)
    requires b > 0 && c > 0
    ensures b * c > 0
  {
    TimesMonotone(b, 1, c);
  }

  lemma DivideTwice(a: nat, b: nat, c: nat)
    requires b > 0 && c > 0
    ensures b * c > 0 && a / b / c == a / (b * c)
  {
    Positive(b, c);
    Divides(a, b);
    Divides(a / b, c);
    Divides(a, b * c);
    var m := a / b;
    var q, r, s := m / c, m % c, a % b;
    Regroup(b, c, q, r, s);
    TimesMonotone(b, r + 1, c);
    assert b * (r + 1) == b * r + b;
    var n, t := a / (b * c), a % (b * c);
    assert 0 <= b * r + s by { TimesMonotone(b, 0, r); }
    QuotientIsUnique(b * c, n, t, q, b * r + s);
  }
}
