/** `GestionColaboradores` (poo.py): create, read, update, delete and list over the
    three tables of the database, which are modelled as maps keyed by `dni`:
      colaboradores              dni -> the base row
      colaboradortiempocompleto  dni -> departamento
      colaboradortiempoparcial   dni -> horas_semanales
    Each operation's statements run in order against these maps; its printed outcome is
    returned as a `Resultado`. */
module Gestion {
  import opened Wrappers
  import opened Texto
  import opened Validacion
  import opened Registro

  /** A row of `colaboradores`, without its key. */
  datatype Fila = Fila(nombre: string, apellido: string, edad: int, salario: real)

  /** The three tables. */
  datatype Tablas = Tablas(colaboradores: map<int, Fila>,
                           tiempoCompleto: map<int, string>,
                           tiempoParcial: map<int, int>)

  /** What a state-changing operation reports. */
  datatype Resultado = Creado | Duplicado | NoEncontrado | Actualizado | Eliminado

  /** What reading one identifier yields: the record, nothing, or the exception the
      constructor raises on a stored row that no longer passes validation. */
  datatype Lectura = Encontrado(ficha: Ficha) | NoExiste | Invalido(msg: string)

  /** Every extension row has a base row and no identifier has both extensions: what the
      operations below keep. */
  predicate Consistente(t: Tablas) {
    && t.tiempoCompleto.Keys <= t.colaboradores.Keys
    && t.tiempoParcial.Keys <= t.colaboradores.Keys
    && t.tiempoCompleto.Keys !! t.tiempoParcial.Keys
  }

  /** The base row `crear_colaborador` inserts: the getters' values, so the names go in
      capitalised. */
  function FilaDe(f: Ficha): Fila {
    Fila(f.Nombre(), f.Apellido(), f.edad, f.salario)
  }

  // ---------------------------------------------------------------------------
  // The operations as functions of the tables
  // ---------------------------------------------------------------------------

  /** `crear_colaborador`: nothing when the identifier is already in `colaboradores`;
      otherwise one base row plus one row in the variant's extension table; a bare
      `Colaborador` matches neither branch and inserts nothing. */
  function TrasCrear(t: Tablas, f: Ficha): Tablas {
    if f.dni in t.colaboradores then t
    else match f.variante
      case Base => t
      case TiempoCompleto(dep) =>
        t.(colaboradores := t.colaboradores[f.dni := FilaDe(f)],
           tiempoCompleto := t.tiempoCompleto[f.dni := dep])
      case TiempoParcial(h) =>
        t.(colaboradores := t.colaboradores[f.dni := FilaDe(f)],
           tiempoParcial := t.tiempoParcial[f.dni := h])
  }

  function ResultadoCrear(t: Tablas, f: Ficha): Resultado {
    if f.dni in t.colaboradores then Duplicado else Creado
  }

  /** `actualizar_colaborador`: the new salary goes into the one row, unvalidated. */
  function TrasActualizar(t: Tablas, dni: int, nuevoSalario: real): Tablas {
    if dni !in t.colaboradores then t
    else t.(colaboradores := t.colaboradores[dni := t.colaboradores[dni].(salario := nuevoSalario)])
  }

  function ResultadoActualizar(t: Tablas, dni: int): Resultado {
    if dni in t.colaboradores then Actualizado else NoEncontrado
  }

  /** `eliminar_colaborador`: the identifier leaves all three tables. */
  function TrasEliminar(t: Tablas, dni: int): Tablas {
    if dni !in t.colaboradores then t
    else Tablas(t.colaboradores - {dni}, t.tiempoCompleto - {dni}, t.tiempoParcial - {dni})
  }

  function ResultadoEliminar(t: Tablas, dni: int): Resultado {
    if dni in t.colaboradores then Eliminado else NoEncontrado
  }

  /** The probe of the read path: the full-time table first, then the part-time one,
      else the bare class. */
  function Extension(t: Tablas, dni: int): Variante {
    if dni in t.tiempoCompleto then TiempoCompleto(t.tiempoCompleto[dni])
    else if dni in t.tiempoParcial then TiempoParcial(t.tiempoParcial[dni])
    else Base
  }

  /** `leer_colaborador`: the base row, the probed extension, and the constructor run again
      on the stored values (which validates them again). */
  function Reconstruir(t: Tablas, dni: int): Lectura {
    if dni !in t.colaboradores then NoExiste
    else
      var fila := t.colaboradores[dni];
      match Construir(DniEntero(dni), fila.nombre, fila.apellido, fila.edad,
                      SalarioNumero(fila.salario), Extension(t, dni))
      case Ok(f) => Encontrado(f)
      case Err(m) => Invalido(m)
  }

  /** One step of `leer_todos_los_colaboradores`: the same probe, except that a row with
      neither extension raises (it indexes the missing part-time row), as does a row the
      constructor rejects. */
  function ElementoListado(t: Tablas, dni: int): Option<Ficha> {
    match Reconstruir(t, dni)
    case Encontrado(f) => if f.variante.Base? then None else Some(f)
    case _ => None
  }

  /** `orden` is a listing of the keys `ks`, each once. */
  predicate EnumeraClaves(orden: seq<int>, ks: set<int>) {
    && (forall i :: 0 <= i < |orden| ==> orden[i] in ks)
    && (forall k :: k in ks ==> k in orden)
    && (forall i, j :: 0 <= i < j < |orden| ==> orden[i] != orden[j])
  }

  // ---------------------------------------------------------------------------
  // Properties of the operations
  // ---------------------------------------------------------------------------

  /** The creation rules: a known identifier changes nothing and reports a duplicate; a new
      one inserts the base row and the row of the object's own extension table only; a bare
      `Colaborador` inserts nothing and is still reported as created. */
  lemma CrearEfecto(t: Tablas, f: Ficha)
    ensures f.dni in t.colaboradores ==> TrasCrear(t, f) == t && ResultadoCrear(t, f) == Duplicado
    ensures f.dni !in t.colaboradores ==> ResultadoCrear(t, f) == Creado
    ensures f.dni !in t.colaboradores && f.variante.Base? ==> TrasCrear(t, f) == t
    ensures f.dni !in t.colaboradores && !f.variante.Base? ==>
              var t' := TrasCrear(t, f);
              && t'.colaboradores == t.colaboradores[f.dni := FilaDe(f)]
              && t'.tiempoCompleto == (if f.variante.TiempoCompleto? then t.tiempoCompleto[f.dni := f.variante.departamento] else t.tiempoCompleto)
              && t'.tiempoParcial == (if f.variante.TiempoParcial? then t.tiempoParcial[f.dni := f.variante.horasSemanales] else t.tiempoParcial)
  {
  }

  /** Creating one identifier does not change how any other identifier reads or lists. */
  lemma CrearNoAfectaOtros(t: Tablas, f: Ficha, otro: int)
    requires otro != f.dni
    ensures Reconstruir(TrasCrear(t, f), otro) == Reconstruir(t, otro)
    ensures ElementoListado(TrasCrear(t, f), otro) == ElementoListado(t, otro)
  {
    var t' := TrasCrear(t, f);
    assert Extension(t', otro) == Extension(t, otro);
    if otro in t.colaboradores {
      assert t'.colaboradores[otro] == t.colaboradores[otro];
    }
  }

  /** Create, then read: a valid full-time or part-time record whose identifier has 7 or
      8 digits reads back with the same identifier, age, salary and variant, with its names
      as the getters showed them, so the getters give the same names again. */
  lemma CrearLuegoLeer(t: Tablas, f: Ficha)
    requires Consistente(t) && f.dni !in t.colaboradores && !f.variante.Base?
    requires FichaValida(f) && f.dni >= 1_000_000
    ensures Reconstruir(TrasCrear(t, f), f.dni) == Encontrado(f.(nombre := f.Nombre(), apellido := f.Apellido()))
    ensures Reconstruir(TrasCrear(t, f), f.dni).ficha.Nombre() == f.Nombre()
    ensures Reconstruir(TrasCrear(t, f), f.dni).ficha.Apellido() == f.Apellido()
    ensures ElementoListado(TrasCrear(t, f), f.dni) == Some(f.(nombre := f.Nombre(), apellido := f.Apellido()))
  {
    var t' := TrasCrear(t, f);
    assert Extension(t', f.dni) == f.variante;
    ValidarDniEntero(f.dni);
    ValidarSalarioNumero(f.salario);
    CapitalizarIdempotente(f.nombre);
    CapitalizarIdempotente(f.apellido);
  }

  /** An identifier given as text with leading zeros ("0123456") is accepted at construction
      and stored as a number of fewer than seven digits; once stored, the record can be
      created but never read back: reading re-validates the stored integer, whose text is too
      short, and listing fails as a whole. */
  lemma CrearDniCortoNoSeLee(t: Tablas, f: Ficha, orden: seq<int>)
    requires f.dni !in t.colaboradores && !f.variante.Base?
    requires FichaValida(f) && f.dni < 1_000_000
    requires f.dni in orden
    ensures ResultadoCrear(t, f) == Creado && f.dni in TrasCrear(t, f).colaboradores
    ensures Reconstruir(TrasCrear(t, f), f.dni) == Invalido(MensajeDni)
    ensures exists i :: 0 <= i < |orden| && ElementoListado(TrasCrear(t, f), orden[i]).None?
  {
    ValidarDniEntero(f.dni);
    var i :| 0 <= i < |orden| && orden[i] == f.dni;
    assert ElementoListado(TrasCrear(t, f), orden[i]).None?;
  }

  /** The read probe: an identifier in both extension tables reads as full-time; one in
      neither reads as a bare `Colaborador`, and makes listing fail. */
  lemma LeerOrdenDeSondeo(t: Tablas, dni: int)
    requires dni in t.colaboradores
    ensures dni in t.tiempoCompleto && Reconstruir(t, dni).Encontrado? ==>
              Reconstruir(t, dni).ficha.variante == TiempoCompleto(t.tiempoCompleto[dni])
    ensures dni !in t.tiempoCompleto && dni in t.tiempoParcial && Reconstruir(t, dni).Encontrado? ==>
              Reconstruir(t, dni).ficha.variante == TiempoParcial(t.tiempoParcial[dni])
    ensures dni !in t.tiempoCompleto && dni !in t.tiempoParcial ==>
              (Reconstruir(t, dni).Encontrado? ==> Reconstruir(t, dni).ficha.variante == Base) &&
              ElementoListado(t, dni).None?
  {
  }

  /** Update, then read: the row now carries the new salary and nothing else changed; since
      the new salary is written without `validar_salario`, a negative one leaves a row that
      no longer reads. An absent identifier changes nothing. */
  lemma ActualizarLuegoLeer(t: Tablas, dni: int, nuevoSalario: real)
    requires Reconstruir(t, dni).Encontrado?
    ensures var t' := TrasActualizar(t, dni, nuevoSalario);
            Reconstruir(t', dni) ==
              if nuevoSalario >= 0.0 then Encontrado(Reconstruir(t, dni).ficha.(salario := nuevoSalario))
              else Invalido(MensajeSalario)
  {
    var t' := TrasActualizar(t, dni, nuevoSalario);
    assert Extension(t', dni) == Extension(t, dni);
    ValidarSalarioNumero(nuevoSalario);
    ValidarSalarioNumero(t.colaboradores[dni].salario);
  }

  lemma ActualizarSoloEseSalario(t: Tablas, dni: int, nuevoSalario: real)
    ensures dni !in t.colaboradores ==> TrasActualizar(t, dni, nuevoSalario) == t
    ensures TrasActualizar(t, dni, nuevoSalario).colaboradores.Keys == t.colaboradores.Keys
    ensures TrasActualizar(t, dni, nuevoSalario).tiempoCompleto == t.tiempoCompleto
    ensures TrasActualizar(t, dni, nuevoSalario).tiempoParcial == t.tiempoParcial
    ensures dni in t.colaboradores ==>
              TrasActualizar(t, dni, nuevoSalario).colaboradores[dni] == t.colaboradores[dni].(salario := nuevoSalario)
  {
  }

  /** Updating one identifier does not change how any other identifier reads. */
  lemma ActualizarNoAfectaOtros(t: Tablas, dni: int, nuevoSalario: real, otro: int)
    requires otro != dni
    ensures otro in t.colaboradores ==>
              TrasActualizar(t, dni, nuevoSalario).colaboradores[otro] == t.colaboradores[otro]
    ensures Reconstruir(TrasActualizar(t, dni, nuevoSalario), otro) == Reconstruir(t, otro)
  {
    var t' := TrasActualizar(t, dni, nuevoSalario);
    assert Extension(t', otro) == Extension(t, otro);
    if otro in t.colaboradores {
      assert t'.colaboradores[otro] == t.colaboradores[otro];
    }
  }

  /** Delete, then read: the identifier is gone from every table and reads as absent; an
      absent identifier changes nothing. */
  lemma EliminarLuegoLeer(t: Tablas, dni: int)
    ensures dni !in t.colaboradores ==> TrasEliminar(t, dni) == t && ResultadoEliminar(t, dni) == NoEncontrado
    ensures dni in t.colaboradores ==>
              var t' := TrasEliminar(t, dni);
              dni !in t'.colaboradores && dni !in t'.tiempoCompleto && dni !in t'.tiempoParcial
    ensures Reconstruir(TrasEliminar(t, dni), dni) == NoExiste
  {
  }

  /** Deleting one identifier does not change how any other identifier reads. */
  lemma EliminarNoAfectaOtros(t: Tablas, dni: int, otro: int)
    requires otro != dni
    ensures Reconstruir(TrasEliminar(t, dni), otro) == Reconstruir(t, otro)
  {
    var t' := TrasEliminar(t, dni);
    assert Extension(t', otro) == Extension(t, otro);
    if otro in t.colaboradores {
      assert t'.colaboradores[otro] == t.colaboradores[otro];
    }
  }

  /** Every operation keeps the tables consistent. */
  lemma OperacionesConservanConsistencia(t: Tablas, f: Ficha, dni: int, nuevoSalario: real)
    requires Consistente(t)
    ensures Consistente(TrasCrear(t, f))
    ensures Consistente(TrasActualizar(t, dni, nuevoSalario))
    ensures Consistente(TrasEliminar(t, dni))
  {
  }

  /** Creating a valid full-time or part-time record with a 7- or 8-digit identifier adds
      that record to what lists, and changes the listing of no other identifier. */
  lemma ListadoTrasCrear(t: Tablas, f: Ficha, otro: int)
    requires Consistente(t) && f.dni !in t.colaboradores && !f.variante.Base?
    requires FichaValida(f) && f.dni >= 1_000_000
    ensures ElementoListado(TrasCrear(t, f), otro) ==
              if otro == f.dni then Some(f.(nombre := f.Nombre(), apellido := f.Apellido()))
              else ElementoListado(t, otro)
  {
    if otro == f.dni {
      CrearLuegoLeer(t, f);
    } else {
      CrearNoAfectaOtros(t, f, otro);
    }
  }

  /** The worked example: a full-time "ana lopez" with identifier 30111222, created in
      tables that do not know it, reads back as "Ana Lopez" of department "IT"; after a
      salary update to 1200 it reads with that salary and the same department. */
  lemma EjemploAnaLopez(t: Tablas)
    requires Consistente(t) && 30111222 !in t.colaboradores
    ensures var f := Ficha(30111222, "ana", "lopez", 29, 1000.0, TiempoCompleto("IT"));
            var t1 := TrasCrear(t, f);
            var t2 := TrasActualizar(t1, 30111222, 1200.0);
            && ResultadoCrear(t, f) == Creado
            && Reconstruir(t1, 30111222) == Encontrado(Ficha(30111222, "Ana", "Lopez", 29, 1000.0, TiempoCompleto("IT")))
            && ResultadoActualizar(t1, 30111222) == Actualizado
            && Reconstruir(t2, 30111222) == Encontrado(Ficha(30111222, "Ana", "Lopez", 29, 1200.0, TiempoCompleto("IT")))
  {
    var f := Ficha(30111222, "ana", "lopez", 29, 1000.0, TiempoCompleto("IT"));
    assert f.Nombre() == "Ana" && f.Apellido() == "Lopez";
    CrearLuegoLeer(t, f);
    ActualizarLuegoLeer(TrasCrear(t, f), 30111222, 1200.0);
  }

  // ---------------------------------------------------------------------------
  // The façade object
  // ---------------------------------------------------------------------------

  class GestionColaboradores {
    var colaboradores: map<int, Fila>
    var tiempoCompleto: map<int, string>
    var tiempoParcial: map<int, int>

    function Estado(): Tablas
      reads this
    {
      Tablas(colaboradores, tiempoCompleto, tiempoParcial)
    }

    /** Connects to a database whose tables hold `inicial`. */
    constructor (inicial: Tablas)
      ensures Estado() == inicial
    {
      colaboradores, tiempoCompleto, tiempoParcial :=
        inicial.colaboradores, inicial.tiempoCompleto, inicial.tiempoParcial;
    }

    /** `crear_colaborador`: the existence check, then the inserts of the object's variant. */
    method CrearColaborador(c: Colaborador) returns (r: Resultado)
      modifies this
      ensures r == ResultadoCrear(old(Estado()), c.Estado())
      ensures Estado() == TrasCrear(old(Estado()), c.Estado())
      ensures old(Consistente(Estado())) ==> Consistente(Estado())
    {
      if c.dni in colaboradores {
        return Duplicado;
      }
      var fila := FilaDe(c.Estado());
      match c.variante {
        case TiempoCompleto(dep) =>
          colaboradores := colaboradores[c.dni := fila];
          tiempoCompleto := tiempoCompleto[c.dni := dep];
        case TiempoParcial(h) =>
          colaboradores := colaboradores[c.dni := fila];
          tiempoParcial := tiempoParcial[c.dni := h];
        case Base =>
      }
      return Creado;
    }

    /** `leer_colaborador`. */
    method LeerColaborador(dni: int) returns (r: Lectura)
      ensures r == Reconstruir(Estado(), dni)
      ensures r.Encontrado? ==> r.ficha.dni == dni && FichaValida(r.ficha)
    {
      if dni !in colaboradores {
        return NoExiste;
      }
      var fila := colaboradores[dni];
      var variante: Variante;
      if dni in tiempoCompleto {
        variante := TiempoCompleto(tiempoCompleto[dni]);
      } else if dni in tiempoParcial {
        variante := TiempoParcial(tiempoParcial[dni]);
      } else {
        variante := Base;
      }
      var c := Construir(DniEntero(dni), fila.nombre, fila.apellido, fila.edad,
                         SalarioNumero(fila.salario), variante);
      if c.Ok? {
        r := Encontrado(c.value);
      } else {
        r := Invalido(c.msg);
      }
    }

    /** `actualizar_colaborador`: the existence check, then `salario` of that one row. */
    method ActualizarColaborador(dni: int, nuevoSalario: real) returns (r: Resultado)
      modifies this
      ensures r == ResultadoActualizar(old(Estado()), dni)
      ensures Estado() == TrasActualizar(old(Estado()), dni, nuevoSalario)
      ensures old(Consistente(Estado())) ==> Consistente(Estado())
    {
      if dni !in colaboradores {
        return NoEncontrado;
      }
      colaboradores := colaboradores[dni := colaboradores[dni].(salario := nuevoSalario)];
      return Actualizado;
    }

    /** `eliminar_colaborador`: the existence check, then the deletes from the two extension
        tables and from the base table, in that order. */
    method EliminarColaborador(dni: int) returns (r: Resultado)
      modifies this
      ensures r == ResultadoEliminar(old(Estado()), dni)
      ensures Estado() == TrasEliminar(old(Estado()), dni)
      ensures old(Consistente(Estado())) ==> Consistente(Estado())
    {
      if dni !in colaboradores {
        return NoEncontrado;
      }
      tiempoCompleto := tiempoCompleto - {dni};
      tiempoParcial := tiempoParcial - {dni};
      colaboradores := colaboradores - {dni};
      return Eliminado;
    }

    /** The body of the listing loop for one base row: the full-time probe, the part-time
        probe (a row in neither raises), then the constructor. */
    method ListarFila(dni: int) returns (e: Option<Ficha>)
      requires dni in colaboradores
      ensures e == ElementoListado(Estado(), dni)
    {
      var fila := colaboradores[dni];
      var variante: Variante;
      if dni in tiempoCompleto {
        variante := TiempoCompleto(tiempoCompleto[dni]);
      } else if dni in tiempoParcial {
        variante := TiempoParcial(tiempoParcial[dni]);
      } else {
        return None;
      }
      var c := Construir(DniEntero(dni), fila.nombre, fila.apellido, fila.edad,
                         SalarioNumero(fila.salario), variante);
      if c.Err? {
        return None;
      }
      return Some(c.value);
    }

    /** `leer_todos_los_colaboradores`, with `orden` the order in which the server returns
        the rows of `colaboradores`: one record per row in that order, or nothing at all
        as soon as one row cannot be rebuilt. */
    method LeerTodosLosColaboradores(orden: seq<int>) returns (r: Option<seq<Ficha>>)
      requires EnumeraClaves(orden, colaboradores.Keys)
      ensures r.Some? <==> forall i :: 0 <= i < |orden| ==> ElementoListado(Estado(), orden[i]).Some?
      ensures r.Some? ==> |r.value| == |orden| &&
                          forall i :: 0 <= i < |orden| ==> ElementoListado(Estado(), orden[i]) == Some(r.value[i])
    {
      ghost var t := Estado();
      var lista: seq<Ficha> := [];
      for i := 0 to |orden|
        invariant |lista| == i
        invariant forall j :: 0 <= j < i ==> ElementoListado(t, orden[j]) == Some(lista[j])
      {
        assert orden[i] in colaboradores;
        var e := ListarFila(orden[i]);
        if e.None? {
          assert ElementoListado(t, orden[i]).None?;
          return None;
        }
        lista := lista + [e.value];
      }
      return Some(lista);
    }
  }
}
