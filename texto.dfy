/** Text helpers the record model relies on: Python's `str.capitalize` and the
    decimal rendering and parsing of numbers done by `str()`, `int()` and `float()`. */
module Texto {
  import opened Wrappers

  // ---------------------------------------------------------------------------
  // Letter case (ASCII and the Latin-1 letters that have a one-character partner)
  // ---------------------------------------------------------------------------

  predicate EsMinuscula(c: char) {
    'a' <= c <= 'z' || (0xE0 <= c as int <= 0xFE && c as int != 0xF7)
  }

  predicate EsMayuscula(c: char) {
    'A' <= c <= 'Z' || (0xC0 <= c as int <= 0xDE && c as int != 0xD7)
  }

  function Mayuscula(c: char): (u: char)
    ensures !EsMinuscula(u)
    ensures EsMinuscula(c) ==> EsMayuscula(u)
  {
    if EsMinuscula(c) then (c as int - 32) as char else c
  }

  function Minuscula(c: char): (l: char)
    ensures !EsMayuscula(l)
    ensures EsMayuscula(c) ==> EsMinuscula(l)
  {
    if EsMayuscula(c) then (c as int + 32) as char else c
  }

  /** `s.lower()`, character by character. */
  function Minusculas(s: string): (r: string)
    ensures |r| == |s|
    ensures forall i :: 0 <= i < |s| ==> r[i] == Minuscula(s[i])
  {
    if s == [] then [] else [Minuscula(s[0])] + Minusculas(s[1..])
  }

  /** `s.capitalize()`: the first character upper case, every other one lower case. */
  function Capitalizar(s: string): (r: string)
  {
    if s == [] then [] else [Mayuscula(s[0])] + Minusculas(s[1..])
  }

  /** What `capitalize` promises: same length, first character not lower case,
      the others not upper case, and each character a case variant of the original. */
  lemma CapitalizarForma(s: string)
    ensures |Capitalizar(s)| == |s|
    ensures s != [] ==> Capitalizar(s)[0] == Mayuscula(s[0]) && !EsMinuscula(Capitalizar(s)[0])
    ensures forall i :: 1 <= i < |s| ==> Capitalizar(s)[i] == Minuscula(s[i]) && !EsMayuscula(Capitalizar(s)[i])
  {
  }

  lemma MinusculasIdempotente(s: string)
    ensures Minusculas(Minusculas(s)) == Minusculas(s)
  {
    var a, b := Minusculas(Minusculas(s)), Minusculas(s);
    assert |a| == |b|;
    forall i | 0 <= i < |a| ensures a[i] == b[i] {
      assert Minuscula(Minuscula(s[i])) == Minuscula(s[i]);
    }
  }

  /** Capitalising twice is capitalising once: a name stored in capitalised form
      reads back unchanged through the capitalising getter. */
  lemma {:induction false} CapitalizarIdempotente(s: string)
    ensures Capitalizar(Capitalizar(s)) == Capitalizar(s)
  {
    if s != [] {
      var c := Capitalizar(s);
      assert c[0] == Mayuscula(s[0]);
      assert c[1..] == Minusculas(s[1..]);
      MinusculasIdempotente(s[1..]);
    }
  }

  // ---------------------------------------------------------------------------
  // Decimal digits
  // ---------------------------------------------------------------------------

  predicate EsDigito(c: char) {
    '0' <= c <= '9'
  }

  predicate SoloDigitos(s: string) {
    forall i :: 0 <= i < |s| ==> EsDigito(s[i])
  }

  function Pow10(k: nat): (p: nat)
    ensures p >= 1
  {
    if k == 0 then 1 else 10 * Pow10(k - 1)
  }

  function Digito(d: nat): (c: char)
    requires d < 10
    ensures EsDigito(c)
  {
    ('0' as int + d) as char
  }

  /** The value of a string of decimal digits; leading zeros count for nothing. */
  function ValorDigitos(s: string): (n: nat)
    requires SoloDigitos(s)
    ensures n < Pow10(|s|)
  {
    if s == [] then 0
    else ValorDigitos(s[..|s| - 1]) * 10 + (s[|s| - 1] as int - '0' as int)
  }

  /** k zero digits. */
  function Ceros(k: nat): (s: string)
    ensures |s| == k && SoloDigitos(s)
  {
    if k == 0 then "" else Ceros(k - 1) + "0"
  }

  /** A string of zeros has the value 0. */
  lemma {:induction false} ValorCeros(k: nat)
    ensures ValorDigitos(Ceros(k)) == 0
  {
    if k > 0 {
      ValorCeros(k - 1);
      var s := Ceros(k);
      assert s[..k - 1] == Ceros(k - 1);
      assert s[k - 1] == '0';
    }
  }

  /** Leading zeros do not change the value of a digit string. */
  lemma {:induction false} ValorCerosIzquierda(k: nat, t: string)
    requires SoloDigitos(t)
    ensures SoloDigitos(Ceros(k) + t) && ValorDigitos(Ceros(k) + t) == ValorDigitos(t)
  {
    var s := Ceros(k) + t;
    assert SoloDigitos(s) by {
      forall i | 0 <= i < |s| ensures EsDigito(s[i]) {
        if i < k { assert s[i] == Ceros(k)[i]; } else { assert s[i] == t[i - k]; }
      }
    }
    if t == [] {
      assert s == Ceros(k);
      ValorCeros(k);
    } else {
      var u := t[..|t| - 1];
      ValorCerosIzquierda(k, u);
      assert s[..|s| - 1] == Ceros(k) + u;
      assert s[|s| - 1] == t[|t| - 1];
      assert ValorDigitos(s) == ValorDigitos(Ceros(k) + u) * 10 + (t[|t| - 1] as int - '0' as int);
      assert ValorDigitos(t) == ValorDigitos(u) * 10 + (t[|t| - 1] as int - '0' as int);
    }
  }

  /** `str(n)` for a natural number: no leading zeros, "0" for zero. */
  function Decimal(n: nat): (s: string)
    ensures |s| >= 1 && SoloDigitos(s)
  {
    if n < 10 then [Digito(n)] else Decimal(n / 10) + [Digito(n % 10)]
  }

  /** `str(n)` for any integer: a minus sign before the digits of a negative number. */
  function Str(n: int): (s: string)
  {
    if n < 0 then "-" + Decimal(-n) else Decimal(n)
  }

  /** Reading back what `str` writes gives the number again. */
  lemma {:induction false} DecimalValor(n: nat)
    ensures ValorDigitos(Decimal(n)) == n
  {
    if n >= 10 {
      DecimalValor(n / 10);
      var s := Decimal(n);
      assert s[..|s| - 1] == Decimal(n / 10);
    }
  }

  /** `str(n)` has at most k characters exactly when n < 10^k. */
  lemma {:induction false} LongitudDecimal(n: nat, k: nat)
    requires k >= 1
    ensures |Decimal(n)| <= k <==> n < Pow10(k)
  {
    if n >= 10 {
      if k == 1 {
        assert |Decimal(n)| == |Decimal(n / 10)| + 1 >= 2;
      } else {
        LongitudDecimal(n / 10, k - 1);
        assert n / 10 < Pow10(k - 1) <==> n < Pow10(k);
      }
    }
  }

  /** `str(n)` of a positive number has 7 or 8 characters exactly when n has 7 or 8 digits. */
  lemma SieteUOchoDigitos(n: nat)
    ensures |Decimal(n)| in {7, 8} <==> 1_000_000 <= n <= 99_999_999
  {
    LongitudDecimal(n, 6);
    LongitudDecimal(n, 8);
    assert Pow10(6) == 1_000_000;
    assert Pow10(8) == 100_000_000;
  }

  // ---------------------------------------------------------------------------
  // Parsing what `int()` and `float()` accept (decimal forms only)
  // ---------------------------------------------------------------------------

  /** An optional leading '+' or '-': whether it is a minus, and what follows it. */
  function Signo(s: string): (r: (bool, string))
    ensures |r.1| <= |s|
  {
    if |s| > 0 && (s[0] == '+' || s[0] == '-') then (s[0] == '-', s[1..]) else (false, s)
  }

  /** `int(s)` for text: an optional sign followed by one or more decimal digits. */
  function ParseEntero(s: string): (r: Option<int>)
    ensures r.Some? ==> -(Pow10(|s|) as int) < r.value < Pow10(|s|)
  {
    var (negativo, cuerpo) := Signo(s);
    if |cuerpo| > 0 && SoloDigitos(cuerpo) then
      var v: int := ValorDigitos(cuerpo);
      LongitudMonotona(|cuerpo|, |s|);
      Some(if negativo then -v else v)
    else None
  }

  lemma {:induction false} LongitudMonotona(j: nat, k: nat)
    requires j <= k
    ensures Pow10(j) <= Pow10(k)
  {
    if j < k { LongitudMonotona(j, k - 1); }
  }

  /** The position of the first '.', if there is one. */
  function PosicionPunto(s: string): (r: Option<nat>)
    ensures r.Some? ==> r.value < |s| && s[r.value] == '.' && forall i :: 0 <= i < r.value ==> s[i] != '.'
    ensures r.None? ==> forall i :: 0 <= i < |s| ==> s[i] != '.'
  {
    if s == [] then None
    else if s[0] == '.' then Some(0)
    else match PosicionPunto(s[1..])
      case None => None
      case Some(k) => Some(k + 1)
  }

  /** The value of `entero.fraccion` written in decimal. */
  function ValorDecimal(entero: string, fraccion: string): (x: real)
    requires SoloDigitos(entero) && SoloDigitos(fraccion)
    ensures x >= 0.0
  {
    ValorDigitos(entero) as real + ValorDigitos(fraccion) as real / Pow10(|fraccion|) as real
  }

  /** `float(s)` for text in decimal-point notation: an optional sign, then digits with
      at most one '.', and at least one digit in all ("12", "12.5", "12.", ".5"). */
  function ParseReal(s: string): (r: Option<real>)
  {
    var (negativo, cuerpo) := Signo(s);
    var (entero, fraccion) :=
      match PosicionPunto(cuerpo)
      case None => (cuerpo, "")
      case Some(k) => (cuerpo[..k], cuerpo[k + 1..]);
    if SoloDigitos(entero) && SoloDigitos(fraccion) && |entero| + |fraccion| > 0 then
      var v := ValorDecimal(entero, fraccion);
      Some(if negativo then -v else v)
    else None
  }
}
