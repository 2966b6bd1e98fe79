/**
 * The instruction classes `Declaracion`, `Asignacion` and `Imprimir` and their
 * `interpretar` methods. Each evaluates its one child, then makes one change
 * to the environment.
 *
 * Expression classes (`Numero`, `Cadena`, `Identificador` and the four
 * arithmetic ones) are not part of this model; their `interpretar` is given as
 * an `Evaluador`, which may change the environment (for instance to record an
 * error) and may throw (`None`).
 */
module Instrucciones {
  import opened Comun
  import opened Valores
  import opened Nodos
  import opened Entornos

  /** `expresion.interpretar(entorno)` for an expression node: its value and the new state, or an exception. */
  type Evaluador = (Node, EstadoEntorno) -> Option<(Json, EstadoEntorno)>

  /**
   * The line `Imprimir` appends for value `v`: `undefined` and `null` are
   * written as "null"; every other value, `0` and `""` included, as its own text.
   */
  function Linea(v: Json): (r: string)
    ensures |r| > 0 && r[|r| - 1] == '\n'
    ensures v.Undefined? || v.Null? ==> r == "null\n"
    ensures v.Str? ==> r == v.s + "\n"
    ensures v.Num? ==> r == Decimal(v.n) + "\n" && LeerEntero(r[..|r| - 1]) == Some(v.n)
  {
    var texto := if v != Undefined && v != Null then Texto(v) else "null";
    assert (texto + "\n")[..|texto|] == texto;
    texto + "\n"
  }

  /**
   * `n.interpretar(entorno)` on a state: the value it returns and the state
   * it leaves, or `None` when it throws. Instructions return `undefined`.
   */
  function Ejecutar(n: Node, st: EstadoEntorno, p: Politica, ev: Evaluador): (r: Option<(Json, EstadoEntorno)>)
    ensures n.EsInstruccion() ==> (r.Some? <==> EvaluarHijo(n.valor, st, p, ev).Some?)
    ensures n.EsInstruccion() && r.Some? ==> r.value.0 == Undefined
    decreases n
  {
    match n
    case Declaracion(id, tipoDato, valor) =>
      (match EvaluarHijo(valor, st, p, ev)
       case None => None
       case Some((v, st1)) => Some((Undefined, p.declarar(st1, id, tipoDato, v))))
    case Asignacion(id, valor) =>
      (match EvaluarHijo(valor, st, p, ev)
       case None => None
       case Some((v, st1)) => Some((Undefined, p.asignar(st1, id, v))))
    case Imprimir(valor) =>
      (match EvaluarHijo(valor, st, p, ev)
       case None => None
       case Some((v, st1)) => Some((Undefined, st1.(salida := st1.salida + Linea(v)))))
    case _ => ev(n, st)
  }

  /** `this.valor.interpretar(entorno)`: a `null` child throws a `TypeError`. */
  function EvaluarHijo(valor: Option<Node>, st: EstadoEntorno, p: Politica, ev: Evaluador): (r: Option<(Json, EstadoEntorno)>)
    ensures valor.None? ==> r.None?
    ensures valor.Some? && valor.value.EsInstruccion() && r.Some? ==> r.value.0 == Undefined
    decreases valor
  {
    match valor
    case None => None
    case Some(n) => Ejecutar(n, st, p, ev)
  }

  /** The value part of an outcome. */
  function ValorDe(o: Option<(Json, EstadoEntorno)>): Option<Json> {
    match o
    case None => None
    case Some((v, _)) => Some(v)
  }

  /** Installs the state an expression's evaluation left. */
  method Cargar(entorno: Entorno, st: EstadoEntorno)
    modifies entorno
    ensures entorno.Estado() == st
  {
    entorno.salida, entorno.errores, entorno.variables := st.salida, st.errores, st.variables;
  }

  /** `n.interpretar(entorno)`, dispatched on the class of `n`. */
  method Interpretar(n: Node, entorno: Entorno, ev: Evaluador) returns (r: Option<Json>)
    modifies entorno
    ensures r == ValorDe(Ejecutar(n, old(entorno.Estado()), entorno.politica, ev))
    ensures r.Some? ==> entorno.Estado() == Ejecutar(n, old(entorno.Estado()), entorno.politica, ev).value.1
    decreases n, 2
  {
    match n
    case Declaracion(id, tipoDato, valor) =>
      var ok := InterpretarDeclaracion(id, tipoDato, valor, entorno, ev);
      r := if ok then Some(Undefined) else None;
    case Asignacion(id, valor) =>
      var ok := InterpretarAsignacion(id, valor, entorno, ev);
      r := if ok then Some(Undefined) else None;
    case Imprimir(valor) =>
      var ok := InterpretarImprimir(valor, entorno, ev);
      r := if ok then Some(Undefined) else None;
    case _ =>
      var o := ev(n, entorno.Estado());
      if o.Some? {
        Cargar(entorno, o.value.1);
      }
      r := ValorDe(o);
  }

  /** `this.valor.interpretar(entorno)`. */
  method InterpretarHijo(valor: Option<Node>, entorno: Entorno, ev: Evaluador) returns (r: Option<Json>)
    modifies entorno
    ensures r == ValorDe(EvaluarHijo(valor, old(entorno.Estado()), entorno.politica, ev))
    ensures r.Some? ==> entorno.Estado() == EvaluarHijo(valor, old(entorno.Estado()), entorno.politica, ev).value.1
    decreases valor, 0
  {
    if valor.None? {
      return None;
    }
    r := Interpretar(valor.value, entorno, ev);
  }

  /**
   * `Declaracion.interpretar`: evaluates the child once, then declares `id`
   * with type `tipoDato` and exactly the value obtained.
   */
  method InterpretarDeclaracion(id: Json, tipoDato: Json, valor: Option<Node>, entorno: Entorno, ev: Evaluador)
    returns (ok: bool)
    modifies entorno
    ensures ok == EvaluarHijo(valor, old(entorno.Estado()), entorno.politica, ev).Some?
    ensures ok ==>
      var (v, st1) := EvaluarHijo(valor, old(entorno.Estado()), entorno.politica, ev).value;
      entorno.Estado() == entorno.politica.declarar(st1, id, tipoDato, v)
    decreases valor, 1
  {
    var val := InterpretarHijo(valor, entorno, ev);
    if val.None? {
      return false;
    }
    entorno.Declarar(id, tipoDato, val.value);
    ok := true;
  }

  /**
   * `Asignacion.interpretar`: evaluates the child once, then assigns exactly
   * the value obtained to `id`; nothing else is changed.
   */
  method InterpretarAsignacion(id: Json, valor: Option<Node>, entorno: Entorno, ev: Evaluador)
    returns (ok: bool)
    modifies entorno
    ensures ok == EvaluarHijo(valor, old(entorno.Estado()), entorno.politica, ev).Some?
    ensures ok ==>
      var (v, st1) := EvaluarHijo(valor, old(entorno.Estado()), entorno.politica, ev).value;
      entorno.Estado() == entorno.politica.asignar(st1, id, v)
    decreases valor, 1
  {
    var val := InterpretarHijo(valor, entorno, ev);
    if val.None? {
      return false;
    }
    entorno.Asignar(id, val.value);
    ok := true;
  }

  /**
   * `Imprimir.interpretar`: evaluates the child once, then appends its line to
   * `salida`; errors and variables stay as the evaluation left them.
   */
  method InterpretarImprimir(valor: Option<Node>, entorno: Entorno, ev: Evaluador)
    returns (ok: bool)
    modifies entorno
    ensures ok == EvaluarHijo(valor, old(entorno.Estado()), entorno.politica, ev).Some?
    ensures ok ==>
      var (v, st1) := EvaluarHijo(valor, old(entorno.Estado()), entorno.politica, ev).value;
      && entorno.salida == st1.salida + Linea(v)
      && entorno.errores == st1.errores
      && entorno.variables == st1.variables
    decreases valor, 1
  {
    var val := InterpretarHijo(valor, entorno, ev);
    if val.None? {
      return false;
    }
    var v := val.value;
    entorno.salida := entorno.salida + (if v != Undefined && v != Null then Texto(v) else "null") + "\n";
    ok := true;
  }

  /** An instruction whose child is `null` throws, whatever the state. */
  lemma HijoNuloLanza(n: Node, st: EstadoEntorno, p: Politica, ev: Evaluador)
    requires n.EsInstruccion() && n.valor.None?
    ensures Ejecutar(n, st, p, ev).None?
  {
  }

  /**
   * Printing a value appends exactly its line after the state the evaluation
   * left: the earlier output is a prefix of the new output, the appended text
   * ends in a newline, and errors and variables are untouched by the print.
   */
  lemma ImprimirAnadeUnaLinea(e: Node, st: EstadoEntorno, p: Politica, ev: Evaluador)
    requires Ejecutar(e, st, p, ev).Some?
    ensures
      var (v, st1) := Ejecutar(e, st, p, ev).value;
      var r := Ejecutar(Imprimir(Some(e)), st, p, ev);
      && r.Some? && r.value.0 == Undefined
      && var st2 := r.value.1;
      && |st2.salida| > |st1.salida|
      && st2.salida[..|st1.salida|] == st1.salida
      && st2.salida[|st1.salida|..] == Linea(v)
      && st2.salida[|st2.salida| - 1] == '\n'
      && st2.errores == st1.errores && st2.variables == st1.variables
  {
    var (v, st1) := Ejecutar(e, st, p, ev).value;
    var salida := st1.salida + Linea(v);
    assert salida[..|st1.salida|] == st1.salida;
    assert salida[|st1.salida|..] == Linea(v);
  }

  /** Only `undefined` and `null` are replaced: falsy values such as `0`, `""` and `false` print as themselves. */
  lemma SoloNuloSeReemplaza()
    ensures Linea(Undefined) == "null\n" && Linea(Null) == "null\n"
    ensures Linea(Num(0)) == "0\n"
    ensures Linea(Str("")) == "\n"
    ensures Linea(Bool(false)) == "false\n"
  {
  }
}
