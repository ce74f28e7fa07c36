/**
 * The values held in one cell of a pandas data frame, as far as the
 * dashboard observes them: their text under `astype(str)`, their truth
 * value in an `if`, and element-wise `==` between a column and a value.
 */
module Cells {

  /** One cell of a spreadsheet loaded with `pd.read_excel`. */
  datatype Cell =
    | Int(i: int)
    | Text(s: string)
      // A float, together with the text Python's `str` gives for it.
    | Num(x: real, repr: string)
    | Nan

  predicate IsDigit(c: char) { '0' <= c <= '9' }

  function DigitChar(d: nat): (c: char)
    requires d < 10
    ensures IsDigit(c)
  {
    ('0' as int + d) as char
  }

  /** Decimal notation of a natural number, without leading zeros. */
  function NatText(n: nat): (s: string)
    ensures |s| >= 1
    ensures forall k :: 0 <= k < |s| ==> IsDigit(s[k])
    ensures n > 0 ==> s[0] != '0'
    decreases n
  {
    if n < 10 then [DigitChar(n)] else NatText(n / 10) + [DigitChar(n % 10)]
  }

  /** The number a string of decimal digits denotes. */
  function DigitsValue(s: string): int
    requires forall k :: 0 <= k < |s| ==> IsDigit(s[k])
  {
    if s == [] then 0
    else DigitsValue(s[..|s| - 1]) * 10 + (s[|s| - 1] as int - '0' as int)
  }

  /** Reading back the decimal text of `n` gives `n`. */
  lemma {:induction false} NatTextValue(n: nat)
    ensures DigitsValue(NatText(n)) == n
  {
    if n >= 10 {
      NatTextValue(n / 10);
      var s := NatText(n);
      assert s[..|s| - 1] == NatText(n / 10);
    }
  }

  /** The text of a cell under `astype(str)`. */
  function AsText(c: Cell): string
  {
    match c
    case Int(i) => if i < 0 then "-" + NatText(-i) else NatText(i)
    case Text(s) => s
    case Num(_, repr) => repr
    case Nan => "nan"
  }

  /** Python truthiness of a cell value: zero and the empty string are false, NaN is true. */
  predicate Truthy(c: Cell)
  {
    match c
    case Int(i) => i != 0
    case Text(s) => s != ""
    case Num(x, _) => x != 0.0
    case Nan => true
  }

  /** Element-wise `==` as pandas evaluates it: numbers compare by value, NaN equals nothing. */
  predicate PyEq(a: Cell, b: Cell)
  {
    match (a, b)
    case (Int(i), Int(j)) => i == j
    case (Int(i), Num(y, _)) => i as real == y
    case (Num(x, _), Int(j)) => x == j as real
    case (Num(x, _), Num(y, _)) => x == y
    case (Text(s), Text(t)) => s == t
    case _ => false
  }

  lemma PyEqReflexive(c: Cell)
    ensures PyEq(c, c) <==> !c.Nan?
  {
  }

  /** `q in s` for Python strings: `q` occurs in `s` as a contiguous piece. */
  predicate Contains(s: string, q: string)
    decreases |s|
  {
    q <= s || (s != [] && Contains(s[1..], q))
  }

  /** `Contains` agrees with the positional definition of a substring. */
  lemma {:induction false} ContainsIff(s: string, q: string)
    ensures Contains(s, q) <==> exists i :: 0 <= i <= |s| && q <= s[i..]
  {
    if q <= s {
      assert s[0..] == s;
    } else if s == [] {
      forall i | 0 <= i <= |s| ensures !(q <= s[i..]) {
        assert s[i..] == s;
      }
    } else {
      ContainsIff(s[1..], q);
      if Contains(s, q) {
        var i :| 0 <= i <= |s[1..]| && q <= s[1..][i..];
        assert s[1..][i..] == s[i + 1..];
      } else {
        forall i | 0 <= i <= |s| ensures !(q <= s[i..]) {
          if i > 0 {
            assert s[1..][i - 1..] == s[i..];
          } else {
            assert s[i..] == s;
          }
        }
      }
    }
  }

  /** The empty query occurs in every text. */
  lemma ContainsEmpty(s: string)
    ensures Contains(s, "")
  {
  }
}
