/** The two field validators of `Colaborador` (poo.py): `validar_dni` and
    `validar_salario`. Each one runs a check that raises with its own message inside
    a try-block whose `except ValueError` replaces every message by a single one. */
module Validacion {
  import opened Wrappers
  import opened Texto

  /** What may be handed to `validar_dni`: a Python `int` or a `str`. */
  datatype EntradaDni = DniEntero(n: int) | DniTexto(s: string)

  /** What may be handed to `validar_salario`: a number or a `str`. */
  datatype EntradaSalario = SalarioNumero(x: real) | SalarioTexto(s: string)

  /** The one message every rejected identifier surfaces with. */
  const MensajeDni := "El DNI debe ser numérico y estar completo"
  /** The one message every rejected salary surfaces with. */
  const MensajeSalario := "El salario debe ser un número válido"

  // The messages raised inside the try-blocks, which the handlers replace.
  const MensajeLongitudDni := "El DNI debe tener entre 7 y 8 dígitos"
  const MensajeDniPositivo := "El DNI debe ser un número positivo"
  const MensajeSalarioNegativo := "El salario debe ser mayor o igual a 0"
  const MensajeIntInvalido := "invalid literal for int() with base 10"
  const MensajeFloatInvalido := "could not convert string to float"

  /** `int(dni)`. */
  function AEntero(e: EntradaDni): Result<int> {
    match e
    case DniEntero(n) => Ok(n)
    case DniTexto(s) =>
      match ParseEntero(s)
      case None => Err(MensajeIntInvalido)
      case Some(n) => Ok(n)
  }

  /** `len(str(dni))`: the characters of the raw input, a sign included. */
  function Longitud(e: EntradaDni): nat {
    match e
    case DniEntero(n) => |Str(n)|
    case DniTexto(s) => |s|
  }

  /** The try-block of `validar_dni`, each `raise` with its own message. */
  function ComprobarDni(e: EntradaDni): Result<int> {
    match AEntero(e)
    case Err(m) => Err(m)
    case Ok(n) =>
      if Longitud(e) !in {7, 8} then Err(MensajeLongitudDni)
      else if n <= 0 then Err(MensajeDniPositivo)
      else Ok(n)
  }

  /** `validar_dni`: the value of the input when it parses, has 7 or 8 characters and
      is positive; otherwise the single rejection message. */
  function ValidarDni(e: EntradaDni): (r: Result<int>)
    ensures r.Err? ==> r.msg == MensajeDni
    ensures r.Ok? ==> r.value > 0 && Longitud(e) in {7, 8} && AEntero(e) == Ok(r.value)
  {
    match ComprobarDni(e)
    case Ok(n) => Ok(n)
    case Err(_) => Err(MensajeDni)
  }

  /** Every accepted identifier lies in 1..99_999_999: at most eight characters hold
      at most eight digits. */
  lemma ValidarDniRango(e: EntradaDni)
    ensures ValidarDni(e).Ok? ==> 0 < ValidarDni(e).value <= 99_999_999
  {
    if ValidarDni(e).Ok? {
      var n := ValidarDni(e).value;
      match e
      case DniEntero(_) =>
        LongitudDecimal(n, 8);
      case DniTexto(s) =>
        LongitudMonotona(|s|, 8);
    }
  }

  /** For an integer, `validar_dni` accepts exactly the numbers with 7 or 8 digits and
      returns them unchanged. */
  lemma ValidarDniEntero(n: int)
    ensures ValidarDni(DniEntero(n)) == if 1_000_000 <= n <= 99_999_999 then Ok(n) else Err(MensajeDni)
  {
    if n > 0 {
      SieteUOchoDigitos(n);
    }
  }

  /** For text the length check counts the characters of the text itself, so leading
      zeros and a '+' sign count towards the 7 or 8: with leading zeros a number that
      has fewer than seven digits is accepted ("0123456" as 123456), although the same
      number given as an integer is rejected. */
  lemma {:induction false} DniTextoConCeros(signo: string, k: nat, n: nat)
    requires signo == "" || signo == "+"
    requires n > 0 && |signo| + k + |Decimal(n)| in {7, 8}
    ensures ValidarDni(DniTexto(signo + Ceros(k) + Decimal(n))) == Ok(n)
  {
    var cuerpo := Ceros(k) + Decimal(n);
    assert signo + Ceros(k) + Decimal(n) == signo + cuerpo;
    ValorCerosIzquierda(k, Decimal(n));
    DecimalValor(n);
    ParseEnteroSinSigno(signo, cuerpo);
    ValidarDniTexto(signo + cuerpo, n);
  }

  /** Digits after an empty or '+' prefix parse to their value. */
  lemma ParseEnteroSinSigno(signo: string, cuerpo: string)
    requires signo == "" || signo == "+"
    requires SoloDigitos(cuerpo) && |cuerpo| > 0
    ensures ParseEntero(signo + cuerpo) == Some(ValorDigitos(cuerpo))
  {
    SignoOpcional(signo, cuerpo);
  }

  /** A text that parses to a positive number and has 7 or 8 characters is accepted. */
  lemma ValidarDniTexto(s: string, n: int)
    requires ParseEntero(s) == Some(n) && n > 0 && |s| in {7, 8}
    ensures ValidarDni(DniTexto(s)) == Ok(n)
  {
    assert AEntero(DniTexto(s)) == Ok(n);
    assert ComprobarDni(DniTexto(s)) == Ok(n);
  }

  /** An empty or '+' prefix before digits is read as no sign at all. */
  lemma SignoOpcional(signo: string, cuerpo: string)
    requires signo == "" || signo == "+"
    requires SoloDigitos(cuerpo) && |cuerpo| > 0
    ensures Signo(signo + cuerpo) == (false, cuerpo)
  {
    if signo == "" {
      assert signo + cuerpo == cuerpo;
      assert EsDigito(cuerpo[0]);
    } else {
      assert (signo + cuerpo)[0] == '+';
      assert (signo + cuerpo)[1..] == cuerpo;
    }
  }

  /** A text of zeros only has the value 0, so it is rejected whatever its length. */
  lemma DniTextoSoloCeros(k: nat)
    ensures ValidarDni(DniTexto(Ceros(k))) == Err(MensajeDni)
  {
    ValorCeros(k);
  }

  /** A concrete instance of each: "0123456" is accepted as 123456, while the integer
      123456 is rejected. */
  lemma EjemploDniConCero()
    ensures ValidarDni(DniTexto("0123456")) == Ok(123456)
    ensures ValidarDni(DniEntero(123456)) == Err(MensajeDni)
  {
    Decimal123456();
    var s := "" + Ceros(1) + Decimal(123456);
    assert s == "0123456";
    DniTextoConCeros("", 1, 123456);
    ValidarDniEntero(123456);
  }

  lemma Decimal123456()
    ensures Decimal(123456) == "123456"
  {
    assert Decimal(1) == "1";
    assert Decimal(12) == Decimal(1) + "2" == "12";
    assert Decimal(123) == Decimal(12) + "3" == "123";
    assert Decimal(1234) == Decimal(123) + "4" == "1234";
    assert Decimal(12345) == Decimal(1234) + "5" == "12345";
    assert Decimal(123456) == Decimal(12345) + "6" == "123456";
  }

  /** "0000000" has seven characters but the value 0, so it is rejected. */
  lemma EjemploDniCeros()
    ensures ValidarDni(DniTexto("0000000")) == Err(MensajeDni)
  {
    assert Ceros(7) == "0000000";
    DniTextoSoloCeros(7);
  }

  /** A salary written as `str(n)` of an integer n is read as n: accepted exactly when
      n is not negative. */
  lemma ValidarSalarioTextoEntero(n: int)
    ensures ValidarSalario(SalarioTexto(Str(n))) == if n >= 0 then Ok(n as real) else Err(MensajeSalario)
  {
    ParseRealEntero(n);
    ValidarSalarioTexto(Str(n), n as real);
  }

  /** `float(str(n))` is n. */
  lemma ParseRealEntero(n: int)
    ensures ParseReal(Str(n)) == Some(n as real)
  {
    var m: nat := if n < 0 then -n else n;
    var cuerpo := Decimal(m);
    assert Signo(Str(n)) == (n < 0, cuerpo);
    assert PosicionPunto(cuerpo).None?;
    DecimalValor(m);
    assert ValorDecimal(cuerpo, "") == m as real;
  }

  /** A text that parses to x is accepted exactly when x is not negative. */
  lemma ValidarSalarioTexto(s: string, x: real)
    requires ParseReal(s) == Some(x)
    ensures ValidarSalario(SalarioTexto(s)) == if x >= 0.0 then Ok(x) else Err(MensajeSalario)
  {
    assert AReal(SalarioTexto(s)) == Ok(x);
  }

  /** `float(salario)`. */
  function AReal(e: EntradaSalario): Result<real> {
    match e
    case SalarioNumero(x) => Ok(x)
    case SalarioTexto(s) =>
      match ParseReal(s)
      case None => Err(MensajeFloatInvalido)
      case Some(x) => Ok(x)
  }

  /** The try-block of `validar_salario`, each `raise` with its own message. */
  function ComprobarSalario(e: EntradaSalario): Result<real> {
    match AReal(e)
    case Err(m) => Err(m)
    case Ok(x) => if x < 0.0 then Err(MensajeSalarioNegativo) else Ok(x)
  }

  /** `validar_salario`: the number when it parses and is not negative; otherwise the
      single rejection message, negative numbers included. */
  function ValidarSalario(e: EntradaSalario): (r: Result<real>)
    ensures r.Ok? ==> r.value >= 0.0 && AReal(e) == Ok(r.value)
    ensures r.Err? ==> r.msg == MensajeSalario
  {
    match ComprobarSalario(e)
    case Ok(x) => Ok(x)
    case Err(_) => Err(MensajeSalario)
  }

  /** For a number, `validar_salario` accepts exactly the non-negative ones, zero
      included, and returns them unchanged. */
  lemma ValidarSalarioNumero(x: real)
    ensures ValidarSalario(SalarioNumero(x)) == if x >= 0.0 then Ok(x) else Err(MensajeSalario)
  {
  }

  lemma EjemplosSalarioTexto()
    ensures ValidarSalario(SalarioTexto("0")) == Ok(0.0)
    ensures ValidarSalario(SalarioTexto("-1")) == Err(MensajeSalario)
    ensures ValidarSalario(SalarioTexto("mil")) == Err(MensajeSalario)
  {
  }
}
