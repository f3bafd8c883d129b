# Personnel records: validation, record shaping and the CRUD façade

A Dafny model of `poo.py` of a small personnel-records manager. It covers three parts.

- **Field validation.** `validar_dni` and `validar_salario` (module `Validacion`). Each one's
  inner checks raise their own messages, and the surrounding `except ValueError` turns every
  failure into one message.
- **The record model** (module `Registro`). `Colaborador` and its two subclasses are one
  class whose `Variante` says which subclass an object is. Construction runs both validators
  first. The `dni` and `salario` setters validate before they store. The `nombre` and
  `apellido` getters capitalise. `to_dict` and `__str__` are modelled too.
- **The façade `GestionColaboradores`** (module `Gestion`). It is a class over the three
  database tables, each a map keyed by the identifier. Each operation is a method whose new
  state and outcome are given by a function of the old tables. Lemmas relate these functions:
  create then read, update then read, delete then read, what stays untouched, and consistency
  of the tables.

Module `Texto` models the parts of Python's `str.capitalize`, `str()`, `int()` and `float()`
that the core relies on. Module `Wrappers` holds `Option` and `Result`. A `Result.Err`
stands for an exception the source raises.

Behaviours of the code worth noting. The file's header (poo.py:4-9) asks for validation of the identifier's length and of negative salaries; the code does this as follows:
- The identifier's length check counts the characters of the raw input (`len(str(dni))`),
  not its decimal digits. So `"0123456"` and `"+123456"` are accepted as 123456.
- `actualizar_colaborador` writes the new salary without validating it. A negative salary
  is stored, and that row then fails validation whenever it is read again.
- `eliminar_colaborador` decides success from the row count of the last delete only, the
  one on the base table. It does not use "at least one deletion removed data". After the
  existence check the base row is there, so the model reports Deleted (see "Left out" on
  `rowcount`).
- The part-time key is `'horas semanales'` (with a space) in `to_dict`. The table column is
  `horas_semanales`.

## Model

| member | source | states |
|---|---|---|
| `Texto.CapitalizarForma` | poo.py:48-54 | the getters' `capitalize`: same length, first character upper-cased, every other one lower-cased |
| `Texto.CapitalizarIdempotente` | poo.py:48-54 | capitalising an already capitalised name changes nothing, so names stored through the getters read back unchanged |
| `Texto.LongitudDecimal` | poo.py:90 | `str(n)` has at most k characters exactly when n < 10^k |
| `Texto.SieteUOchoDigitos` | poo.py:90 | `str(n)` of a natural number has 7 or 8 characters exactly when 1_000_000 <= n <= 99_999_999 |
| `Validacion.ValidarDni` | poo.py:87-96 | an accepted identifier is positive, its raw input has 7 or 8 characters and parses to it; every rejection carries the single message 'El DNI debe ser numérico y estar completo' |
| `Validacion.ValidarDniRango` | poo.py:87-96 | every accepted identifier lies in 1..99_999_999 |
| `Validacion.ValidarDniEntero` | poo.py:87-96 | for an integer input: accepted exactly when 1_000_000 <= n <= 99_999_999, returned unchanged; otherwise the single message |
| `Validacion.DniTextoConCeros` | poo.py:89-94 | for text input, leading zeros and a '+' count towards the 7 or 8 characters, so a shorter number padded with zeros is accepted as that number |
| `Validacion.DniTextoSoloCeros` | poo.py:89-93 | a text of zeros only, of any length, is rejected as not positive |
| `Validacion.ValidarDniTexto` | poo.py:87-96 | a text that parses to a positive number and has 7 or 8 characters is accepted as that number |
| `Validacion.EjemploDniConCero` | poo.py:87-96 | "0123456" is accepted as 123456, while the integer 123456 is rejected |
| `Validacion.EjemploDniCeros` | poo.py:87-96 | "0000000" has seven characters but is rejected as not positive |
| `Validacion.ValidarSalario` | poo.py:78-85 | an accepted salary is >= 0 and is the parsed number; every rejection, negatives included, carries the single message 'El salario debe ser un número válido' |
| `Validacion.ValidarSalarioNumero` | poo.py:78-85 | for a number: accepted exactly when it is >= 0 (zero included), returned unchanged |
| `Validacion.ValidarSalarioTextoEntero` | poo.py:80-83 | a salary given as the decimal text of an integer is read as that integer and accepted exactly when it is not negative |
| `Validacion.ValidarSalarioTexto` | poo.py:78-85 | a text that parses to x is accepted exactly when x >= 0, and then returns x |
| `Validacion.EjemplosSalarioTexto` | poo.py:78-85 | "0" is accepted as 0; "-1" and non-numeric text are rejected with the single message |
| `Registro.Construir` | poo.py:30-35 | construction succeeds exactly when both validators accept; the identifier is checked first, so its message wins; the fields are the validated values and the other arguments as given |
| `Registro.ADict` | poo.py:98-108 | `to_dict` has exactly the keys dni, nombre, apellido, edad, salario plus the variant's one key |
| `Registro.ADictExtiendeBase` | poo.py:131-155 | a subclass's dictionary is the base one with the same base entries plus only its own key; names appear capitalised through the getters |
| `Registro.ADictDeterminaVariante` | poo.py:136-155 | two dictionaries have the same key set exactly when the variants agree ('departamento' for full-time, 'horas semanales' for part-time); the extra key holds the variant's field |
| `Registro.EtiquetaExtiendeBase` | poo.py:110-158 | `__str__` is the capitalised name and surname; full-time appends " departamento: " and the department, part-time " + horas semanales: " and `str` of the hours |
| `Registro.Colaborador.constructor` | poo.py:30-35 | stores fields that both validators have accepted |
| `Registro.Colaborador.Nuevo` | poo.py:30-35 | creating any variant either raises the validators' exception (no object exists) or gives a fresh valid object whose fields are what construction computes |
| `Registro.Colaborador.SetSalario` | poo.py:70-72 | the setter stores validar_salario's result; on rejection every field is unchanged; validity is kept |
| `Registro.Colaborador.SetDni` | poo.py:74-76 | the setter stores validar_dni's result; on rejection every field is unchanged; validity is kept |
| `Gestion.GestionColaboradores.constructor` | poo.py:162-171 | the façade starts over the tables the database holds |
| `Gestion.GestionColaboradores.CrearColaborador` | poo.py:193-243 | outcome Duplicate exactly when the identifier is already in colaboradores; new tables as `TrasCrear` gives; consistency kept |
| `Gestion.GestionColaboradores.LeerColaborador` | poo.py:245-284 | the result is the reconstruction of the identifier; a found record has that identifier and valid fields |
| `Gestion.GestionColaboradores.ActualizarColaborador` | poo.py:286-313 | outcome NotFound exactly when the identifier is absent; new tables as `TrasActualizar` gives; consistency kept |
| `Gestion.GestionColaboradores.EliminarColaborador` | poo.py:315-340 | outcome NotFound exactly when the identifier is absent; new tables as `TrasEliminar` gives; consistency kept |
| `Gestion.GestionColaboradores.ListarFila` | poo.py:351-361 | one step of the listing loop gives exactly `ElementoListado`: nothing for a row with neither extension or a row that fails validation |
| `Gestion.GestionColaboradores.LeerTodosLosColaboradores` | poo.py:342-369 | the list exists exactly when every row can be rebuilt; then it has one record per base row, in the server's row order |
| `Gestion.CrearEfecto` | poo.py:204-241 | a known identifier: nothing changes, Duplicate; a new one: Created, one base row plus the row of the object's own extension table; a bare Colaborador: nothing inserted, still Created |
| `Gestion.CrearNoAfectaOtros` | poo.py:209-238 | creating one identifier leaves how every other identifier reads and lists unchanged |
| `Gestion.CrearLuegoLeer` | poo.py:209-276 | create then read of a valid full-time or part-time record with a 7- or 8-digit identifier gives the same identifier, age, salary and variant, and the getters give the same names |
| `Gestion.CrearDniCortoNoSeLee` | poo.py:262-276 | a record whose identifier was accepted from zero-padded text is created, but reading it fails validation and listing fails |
| `Gestion.LeerOrdenDeSondeo` | poo.py:262-276 | the full-time table is probed first, then the part-time one; with neither, read gives a bare Colaborador and listing fails |
| `Gestion.ActualizarLuegoLeer` | poo.py:295-307 | update then read shows the new salary and nothing else changed; a negative salary, written unvalidated, makes the row unreadable |
| `Gestion.ActualizarSoloEseSalario` | poo.py:295-307 | only the salario of that one row changes, the extension tables and the key set stay the same; an absent identifier changes nothing |
| `Gestion.ActualizarNoAfectaOtros` | poo.py:301 | updating one identifier leaves every other identifier's row and reading unchanged |
| `Gestion.EliminarLuegoLeer` | poo.py:321-335 | after delete the identifier is in none of the three tables and reads as absent; an absent identifier changes nothing |
| `Gestion.EliminarNoAfectaOtros` | poo.py:327-329 | deleting one identifier leaves every other identifier's reading unchanged |
| `Gestion.OperacionesConservanConsistencia` | poo.py:204-335 | create, update and delete keep every extension row tied to a base row and no identifier in both extension tables |
| `Gestion.ListadoTrasCrear` | poo.py:347-362 | creating a valid record with a 7- or 8-digit identifier makes it list, and changes no other identifier's listing |
| `Gestion.EjemploAnaLopez` | poo.py:209-307 | creating full-time 30111222 "ana" "lopez" 29 1000.0 "IT" reads back as "Ana" "Lopez" of "IT"; after an update to 1200.0 it reads with that salary and the same department |

## Left out

- The MySQL connection (`config()` lookups, `connect`, cursors, SQL text, `commit`, `close`) is not modelled. The three tables are maps, and each operation's writes are atomic.
- A failed connection is not modelled: `connect()` returning `None`, the `AttributeError` this raises in the `finally` blocks, and the `except Exception`/`except Error` printing. The state-changing operations therefore have no Failed outcome. Two failures are modelled: listing returning nothing (`LeerTodosLosColaboradores` gives `None`), and reading a stored row that fails validation (`Lectura.Invalido`).
- `Gestion.GestionColaboradores.ActualizarColaborador`: the `rowcount` test after the UPDATE (poo.py:303-307) is not modelled. The model counts matched rows, so after the existence check the update always reports `Actualizado`. MySQL counts changed rows unless the client sets the CLIENT_FOUND_ROWS flag when it connects. With changed-row counting, updating a salary to the value already stored gives a row count of 0. The source then prints "No se encontró colaborador" and does not commit (the stored value is the same either way). Which flag the connector sets is a client choice made outside this core.
- `Gestion.GestionColaboradores.EliminarColaborador`: the `rowcount` test after the deletes (poo.py:331-335) is not modelled. It reads the count of the base-table delete, which matches the row the existence check found, so in a single-threaded model it is always positive.
- Python's full `int()` and `float()` grammars are not modelled: surrounding whitespace, underscores, exponents, 'inf'/'nan', `int()` of a float, and booleans. The model accepts an optional sign and decimal digits, plus for salaries at most one '.'.
- Floating point: salaries are exact reals.
- Case mapping covers ASCII and the Latin-1 letters with a one-character partner. Other letters (ß, ÿ, µ, other scripts) and Python's title-casing of the first character are not modelled.
- In main.py the identifiers for read, update and delete arrive as text, and MySQL converts them to numbers. Here every table key is an integer.
- The order in which `SELECT * FROM colaboradores` returns rows is up to the server. It is the `orden` parameter of `LeerTodosLosColaboradores`.
- `leer_colaborador` prints its result. The model returns it as a `Lectura`. A stored row that fails validation makes the source raise an uncaught `ValueError`. The model returns that as `Invalido`.
- `LeerTodosLosColaboradores` returns the records as values, not fresh objects. Object identity plays no part in the source's list.
- `CrearColaborador`: an insert into an extension table that already holds an orphan row for the identifier overwrites that row in the maps. A SQL schema might reject the insert instead. Tables kept `Consistente` by the operations never hold such rows.
- main.py (the interactive menu and screen clearing) is not part of this model.
