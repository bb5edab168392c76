/** Decimal rendering of integers: Go's `%d` and `%010d`. */
module Decimal {
  import opened Chars

  function Digit(d: int): (c: char)
    requires 0 <= d < 10
    ensures IsDigit(c) && c as int - '0' as int == d
  {
    ('0' as int + d) as char
  }

  // `%d` for a non-negative number.
  function Nat(n: nat): (s: string)
    ensures s != []
    ensures forall c | c in s :: IsDigit(c)
  {
    if n < 10 then [Digit(n)] else Nat(n / 10) + [Digit(n % 10)]
  }

  // `%d`
  function Int(n: int): (s: string)
    ensures s != []
    ensures ':' !in s
  {
    if n < 0 then "-" + Nat(-n) else Nat(n)
  }

  // The reader's side: the number a run of digits denotes.
  function Value(s: string): nat
    requires forall c | c in s :: IsDigit(c)
  {
    if s == [] then 0 else
      assert IsDigit(s[|s| - 1]);
      10 * Value(s[..|s| - 1]) + (s[|s| - 1] as int - '0' as int)
  }

  lemma {:induction false} ValueOfNat(n: nat)
    ensures Value(Nat(n)) == n
  {
    if n >= 10 {
      ValueOfNat(n / 10);
      assert Nat(n)[..|Nat(n)| - 1] == Nat(n / 10);
    } else {
      assert Nat(n)[..0] == [];
      assert Nat(n)[0] == Digit(n);
    }
  }

  lemma IntSign(n: int)
    ensures n < 0 <==> Int(n)[0] == '-'
  {
    if n >= 0 { assert Int(n)[0] in Nat(n); }
  }

  lemma IntInjective(m: int, n: int)
    requires Int(m) == Int(n)
    ensures m == n
  {
    IntSign(m);
    IntSign(n);
    if m < 0 {
      assert Int(m)[1..] == Nat(-m) && Int(n)[1..] == Nat(-n);
      ValueOfNat(-m);
      ValueOfNat(-n);
    } else {
      ValueOfNat(m);
      ValueOfNat(n);
    }
  }

  // `%0wd`: left-padded with zeros to at least w characters.
  function Padded(n: nat, w: nat): (s: string)
    ensures w <= |s|
    ensures forall c | c in s :: IsDigit(c)
  {
    Zeros(w - |Nat(n)|) + Nat(n)
  }

  function Zeros(k: int): (s: string)
    ensures |s| == if k < 0 then 0 else k
    ensures forall c | c in s :: c == '0'
  {
    if k <= 0 then [] else "0" + Zeros(k - 1)
  }

  function Pow10(k: nat): (p: nat)
    ensures p >= 1
  {
    if k == 0 then 1 else 10 * Pow10(k - 1)
  }

  lemma {:induction false} NatFits(n: nat, w: nat)
    requires w >= 1 && n < Pow10(w)
    ensures |Nat(n)| <= w
  {
    if n >= 10 {
      assert Pow10(w) == 10 * Pow10(w - 1);
      assert w != 1;
      NatFits(n / 10, w - 1);
    }
  }

  lemma {:induction false} LeadingZeros(k: nat, s: string)
    requires forall c | c in s :: IsDigit(c)
    ensures forall c | c in Zeros(k) + s :: IsDigit(c)
    ensures Value(Zeros(k) + s) == Value(s)
    decreases |s|, k
  {
    var t := Zeros(k) + s;
    if s != [] {
      assert t[..|t| - 1] == Zeros(k) + s[..|s| - 1];
      LeadingZeros(k, s[..|s| - 1]);
    } else if k > 0 {
      assert t == Zeros(k);
      ZerosSnoc(k);
      assert t[..|t| - 1] == Zeros(k - 1) + [];
      LeadingZeros(k - 1, []);
    }
  }

  lemma {:induction false} ZerosSnoc(k: nat)
    requires k > 0
    ensures Zeros(k) == Zeros(k - 1) + "0"
  {
    if k > 1 { ZerosSnoc(k - 1); }
  }

  // A fixed-width field: exactly w characters, and reading it back gives n.
  lemma PaddedRoundTrip(n: nat, w: nat)
    requires w >= 1 && n < Pow10(w)
    ensures |Padded(n, w)| == w && Value(Padded(n, w)) == n
  {
    NatFits(n, w);
    LeadingZeros(w - |Nat(n)|, Nat(n));
    ValueOfNat(n);
  }
}
