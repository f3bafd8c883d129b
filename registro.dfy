/** The record model of poo.py: `Colaborador` and its two subclasses
    `ColaboradorTiempoCompleto` and `ColaboradorTiempoParcial`.

    The subclass is represented by `Variante`; the fields an object holds by the value
    `Ficha`; the object itself, whose `dni` and `salario` setters update it in place, by
    the class `Colaborador`. */
module Registro {
  import opened Wrappers
  import opened Texto
  import opened Validacion

  /** Which class an object has, with the one field that class adds. */
  datatype Variante =
    | Base                                   // Colaborador
    | TiempoCompleto(departamento: string)   // ColaboradorTiempoCompleto
    | TiempoParcial(horasSemanales: int)     // ColaboradorTiempoParcial

  /** The private fields of an object. `nombre` and `apellido` are kept as given; it is
      the getters that capitalise them. */
  datatype Ficha = Ficha(dni: int, nombre: string, apellido: string, edad: int, salario: real,
                         variante: Variante)
  {
    /** The `nombre` getter. */
    function Nombre(): string {
      Capitalizar(nombre)
    }

    /** The `apellido` getter. */
    function Apellido(): string {
      Capitalizar(apellido)
    }
  }

  /** What both validators guarantee about an object's fields. */
  predicate FichaValida(f: Ficha) {
    0 < f.dni <= 99_999_999 && f.salario >= 0.0
  }

  /** The constructor: `validar_dni` first, then `validar_salario`; the first exception
      raised aborts construction, so no object exists afterwards. */
  function Construir(dni: EntradaDni, nombre: string, apellido: string, edad: int,
                     salario: EntradaSalario, variante: Variante): (r: Result<Ficha>)
    ensures r.Ok? <==> ValidarDni(dni).Ok? && ValidarSalario(salario).Ok?
    ensures r.Ok? ==> FichaValida(r.value)
    ensures r.Ok? ==> r.value.dni == ValidarDni(dni).value && r.value.salario == ValidarSalario(salario).value
    ensures r.Ok? ==> r.value.nombre == nombre && r.value.apellido == apellido && r.value.edad == edad
                      && r.value.variante == variante
    ensures r.Err? ==> r.msg == if ValidarDni(dni).Err? then MensajeDni else MensajeSalario
  {
    ValidarDniRango(dni);
    match ValidarDni(dni)
    case Err(m) => Err(m)
    case Ok(d) =>
      match ValidarSalario(salario)
      case Err(m) => Err(m)
      case Ok(s) => Ok(Ficha(d, nombre, apellido, edad, s, variante))
  }

  // ---------------------------------------------------------------------------
  // to_dict and __str__
  // ---------------------------------------------------------------------------

  /** A value of the dictionary `to_dict` returns. */
  datatype Valor = VEntero(i: int) | VReal(x: real) | VTexto(s: string)

  /** The keys of the base class's `to_dict`. */
  const ClavesBase: set<string> := {"dni", "nombre", "apellido", "edad", "salario"}

  /** The key a subclass adds; part-time uses the spaced key 'horas semanales'. */
  function ClavesExtra(v: Variante): set<string> {
    match v
    case Base => {}
    case TiempoCompleto(_) => {"departamento"}
    case TiempoParcial(_) => {"horas semanales"}
  }

  /** `to_dict`: the getters' values under the base keys, then the subclass's one key. */
  function ADict(f: Ficha): (d: map<string, Valor>)
    ensures d.Keys == ClavesBase + ClavesExtra(f.variante)
  {
    var base := map["dni" := VEntero(f.dni), "nombre" := VTexto(f.Nombre()),
                    "apellido" := VTexto(f.Apellido()), "edad" := VEntero(f.edad),
                    "salario" := VReal(f.salario)];
    match f.variante
    case Base => base
    case TiempoCompleto(dep) => base["departamento" := VTexto(dep)]
    case TiempoParcial(h) => base["horas semanales" := VEntero(h)]
  }

  /** A subclass's dictionary is the base class's one plus exactly its own key: the base
      entries are the same, and they are the capitalised names and the raw other fields. */
  lemma ADictExtiendeBase(f: Ficha)
    ensures forall k :: k in ClavesBase ==> ADict(f)[k] == ADict(f.(variante := Base))[k]
    ensures ADict(f).Keys - ADict(f.(variante := Base)).Keys == ClavesExtra(f.variante)
    ensures ADict(f)["dni"] == VEntero(f.dni) && ADict(f)["edad"] == VEntero(f.edad)
    ensures ADict(f)["salario"] == VReal(f.salario)
    ensures ADict(f)["nombre"] == VTexto(Capitalizar(f.nombre))
    ensures ADict(f)["apellido"] == VTexto(Capitalizar(f.apellido))
  {
  }

  /** The variant is told by which key is present (the implicit tag): each variant's key set
      differs from the others', and the variant's field is recovered from its key. */
  lemma ADictDeterminaVariante(f: Ficha, g: Ficha)
    ensures ADict(f).Keys == ADict(g).Keys <==>
            (f.variante.Base? && g.variante.Base?) ||
            (f.variante.TiempoCompleto? && g.variante.TiempoCompleto?) ||
            (f.variante.TiempoParcial? && g.variante.TiempoParcial?)
    ensures f.variante.TiempoCompleto? ==> ADict(f)["departamento"] == VTexto(f.variante.departamento)
    ensures f.variante.TiempoParcial? ==> ADict(f)["horas semanales"] == VEntero(f.variante.horasSemanales)
  {
    var kf, kg := ADict(f).Keys, ADict(g).Keys;
    assert "departamento" in kf <==> f.variante.TiempoCompleto?;
    assert "departamento" in kg <==> g.variante.TiempoCompleto?;
    assert "horas semanales" in kf <==> f.variante.TiempoParcial?;
    assert "horas semanales" in kg <==> g.variante.TiempoParcial?;
  }

  /** `__str__`: name and surname; full-time appends " departamento: ...", part-time
      appends " + horas semanales: ..." (the '+' is part of the text). */
  function Etiqueta(f: Ficha): (s: string) {
    var base := f.Nombre() + " " + f.Apellido();
    match f.variante
    case Base => base
    case TiempoCompleto(dep) => base + " departamento: " + dep
    case TiempoParcial(h) => base + " + horas semanales: " + Str(h)
  }

  /** Every label starts with the base class's label "Nombre Apellido"; full-time appends
      " departamento: " and the department, part-time " + horas semanales: " and the hours. */
  lemma EtiquetaExtiendeBase(f: Ficha)
    ensures var b := Etiqueta(f.(variante := Base));
            && b == Capitalizar(f.nombre) + " " + Capitalizar(f.apellido)
            && |b| <= |Etiqueta(f)| && Etiqueta(f)[..|b|] == b
            && (f.variante.Base? ==> Etiqueta(f) == b)
            && (f.variante.TiempoCompleto? ==> Etiqueta(f) == b + " departamento: " + f.variante.departamento)
            && (f.variante.TiempoParcial? ==>
                  Etiqueta(f) == b + " + horas semanales: " + Str(f.variante.horasSemanales))
  {
  }

  // ---------------------------------------------------------------------------
  // The objects
  // ---------------------------------------------------------------------------

  /** An object of class `Colaborador` or of one of its subclasses. Only `dni` and
      `salario` have setters; the other fields never change after construction. */
  class Colaborador {
    var dni: int
    const nombre: string
    const apellido: string
    const edad: int
    var salario: real
    const variante: Variante

    /** The object's fields as a value. */
    function Estado(): Ficha
      reads this
    {
      Ficha(dni, nombre, apellido, edad, salario, variante)
    }

    /** Every object passed both validators when it was built and after every assignment. */
    ghost predicate Valid()
      reads this
    {
      FichaValida(Estado())
    }

    /** Stores fields that have already been validated. */
    constructor (f: Ficha)
      requires FichaValida(f)
      ensures Estado() == f && Valid()
    {
      dni, nombre, apellido, edad, salario, variante := f.dni, f.nombre, f.apellido, f.edad, f.salario, f.variante;
    }

    /** `Colaborador(...)`, `ColaboradorTiempoCompleto(...)` or `ColaboradorTiempoParcial(...)`:
        either the exception the validators raise, or a new object whose fields are those
        the pure constructor computes. */
    static method Nuevo(dni: EntradaDni, nombre: string, apellido: string, edad: int,
                        salario: EntradaSalario, variante: Variante) returns (r: Result<Colaborador>)
      ensures r.Ok? <==> Construir(dni, nombre, apellido, edad, salario, variante).Ok?
      ensures r.Ok? ==> fresh(r.value) && r.value.Valid()
                        && r.value.Estado() == Construir(dni, nombre, apellido, edad, salario, variante).value
      ensures r.Err? ==> r.msg == Construir(dni, nombre, apellido, edad, salario, variante).msg
    {
      var d := ValidarDni(dni);
      if d.Err? {
        return Err(d.msg);
      }
      var s := ValidarSalario(salario);
      if s.Err? {
        return Err(s.msg);
      }
      ValidarDniRango(dni);
      var c := new Colaborador(Ficha(d.value, nombre, apellido, edad, s.value, variante));
      return Ok(c);
    }

    /** The `salario` setter: stores what `validar_salario` returns; when it raises, the
        object is left exactly as it was. */
    method SetSalario(nuevo: EntradaSalario) returns (r: Result<real>)
      modifies this`salario
      ensures r == ValidarSalario(nuevo)
      ensures Estado() == if r.Ok? then old(Estado()).(salario := r.value) else old(Estado())
      ensures old(Valid()) ==> Valid()
    {
      r := ValidarSalario(nuevo);
      if r.Ok? {
        salario := r.value;
      }
    }

    /** The `dni` setter: stores what `validar_dni` returns; when it raises, the object is
        left exactly as it was. */
    method SetDni(nuevo: EntradaDni) returns (r: Result<int>)
      modifies this`dni
      ensures r == ValidarDni(nuevo)
      ensures Estado() == if r.Ok? then old(Estado()).(dni := r.value) else old(Estado())
      ensures old(Valid()) ==> Valid()
    {
      r := ValidarDni(nuevo);
      ValidarDniRango(nuevo);
      if r.Ok? {
        dni := r.value;
      }
    }
  }
}
