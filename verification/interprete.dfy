/**
 * `interpretar(nodosAST)`: converts and runs each top-level node in order
 * against one fresh environment, records a syntax error for each node that
 * does not convert and carries on, and returns the output, the errors and a
 * snapshot of the variables.
 */
module Interprete {
  import opened Comun
  import opened Valores
  import opened Nodos
  import opened Entornos
  import Instrucciones

  /** The error recorded for a node that does not convert. */
  const ErrorSintactico := ErrorRec("Sintáctico", "Nodo inválido")

  /** One element of `simbolos`: `{id, tipo, valor}`. */
  datatype RegistroSimbolo = RegistroSimbolo(id: Json, tipo: Json, valor: Json)

  /** The record `interpretar` returns: `{consola, errores, simbolos}`. */
  datatype Resultado = Resultado(consola: string, errores: seq<ErrorRec>, simbolos: seq<RegistroSimbolo>)

  /** Why a run ends in an uncaught exception instead of a result. */
  datatype Excepcion =
    | NoIterable          // `for…of` over a truthy value that is not iterable
    | ErrorEnEjecucion    // a node's `interpretar` threw (a `null` child, or an expression)

  /**
   * The nodes the driver's loop visits, a missing list counting as empty: none for a falsy
   * value, the elements of an array, the characters of a non-empty string;
   * any other value is not iterable.
   */
  function Recorrido(nodosAST: Json): (r: Option<seq<Json>>)
    ensures Falsy(nodosAST) ==> r == Some([])
    ensures nodosAST.Arr? ==> r == Some(nodosAST.items)
    ensures r.None? <==> !Falsy(nodosAST) && !nodosAST.Arr? && !nodosAST.Str?
    ensures nodosAST.Str? ==> r == Some(Caracteres(nodosAST.s))
  {
    if Falsy(nodosAST) then Some([])
    else match nodosAST
      case Arr(items) => Some(items)
      case Str(s) => Some(Caracteres(s))
      case _ => None
  }

  /** A string iterates as its characters, each a one-character string. */
  function Caracteres(s: string): (r: seq<Json>)
    ensures |r| == |s|
    ensures forall i :: 0 <= i < |s| ==> r[i] == Str([s[i]])
  {
    if |s| == 0 then [] else Caracteres(s[..|s| - 1]) + [Str([s[|s| - 1]])]
  }

  /** One iteration of the loop: run the converted node, or record a syntax error. */
  function Paso(nodo: Json, st: EstadoEntorno, p: Politica, ev: Instrucciones.Evaluador): (r: Option<EstadoEntorno>)
    ensures r.None? ==> ConvertirNodo(nodo).Some?
    ensures ConvertirNodo(nodo).None? ==>
      && r.Some?
      && r.value.errores == st.errores + [ErrorSintactico]
      && r.value.salida == st.salida && r.value.variables == st.variables
  {
    match ConvertirNodo(nodo)
    case None => Some(st.(errores := st.errores + [ErrorSintactico]))
    case Some(n) =>
      match Instrucciones.Ejecutar(n, st, p, ev)
      case None => None
      case Some((_, st1)) => Some(st1)
  }

  /** The state after running `nodos` in order from `st`; `None` once a node throws. */
  function Correr(nodos: seq<Json>, st: EstadoEntorno, p: Politica, ev: Instrucciones.Evaluador): (r: Option<EstadoEntorno>)
    ensures r.None? ==> |nodos| > 0
    decreases |nodos|
  {
    if |nodos| == 0 then Some(st)
    else
      match Correr(nodos[..|nodos| - 1], st, p, ev)
      case None => None
      case Some(st1) => Paso(nodos[|nodos| - 1], st1, p, ev)
  }

  /** Runs `nodos` after an outcome that may already have thrown. */
  function Seguir(o: Option<EstadoEntorno>, nodos: seq<Json>, p: Politica, ev: Instrucciones.Evaluador): Option<EstadoEntorno> {
    match o
    case None => None
    case Some(st) => Correr(nodos, st, p, ev)
  }

  /** The `simbolos` snapshot: one record per variable, in insertion order, with its type and value. */
  function Simbolos(t: TablaSimbolos): (r: seq<RegistroSimbolo>)
    ensures |r| == |t.claves|
    decreases |t.claves|
  {
    if |t.claves| == 0 then []
    else
      var k := t.claves[|t.claves| - 1];
      Simbolos(SinUltima(t)) + [RegistroSimbolo(k, t.entradas[k].tipo, t.entradas[k].valor)]
  }

  /** Record `i` of the snapshot is the `i`-th inserted key with its type and value. */
  lemma {:induction false} SimbolosEnOrden(t: TablaSimbolos, i: nat)
    requires i < |t.claves|
    ensures t.claves[i] in t.entradas
    ensures Simbolos(t)[i] == RegistroSimbolo(t.claves[i], t.entradas[t.claves[i]].tipo, t.entradas[t.claves[i]].valor)
    decreases |t.claves|
  {
    if i < |t.claves| - 1 {
      var resto := SinUltima(t);
      SimbolosEnOrden(resto, i);
      MismasEntradas(t, i);
      assert Simbolos(t)[i] == Simbolos(resto)[i];
    }
  }

  /** Dropping the last key keeps every other key and its entry. */
  lemma MismasEntradas(t: TablaSimbolos, i: nat)
    requires i < |t.claves| - 1
    ensures SinUltima(t).claves[i] == t.claves[i]
    ensures t.claves[i] in SinUltima(t).entradas && SinUltima(t).entradas[t.claves[i]] == t.entradas[t.claves[i]]
  {
    assert t.claves[i] != t.claves[|t.claves| - 1];
  }

  /** The table without its most recently inserted key. */
  function SinUltima(t: TablaSimbolos): (r: TablaSimbolos)
    requires |t.claves| > 0
    ensures r.claves == t.claves[..|t.claves| - 1]
    ensures r.entradas == t.entradas - {t.claves[|t.claves| - 1]}
  {
    var k := t.claves[|t.claves| - 1];
    var r := Tabla(t.claves[..|t.claves| - 1], t.entradas - {k});
    assert forall i :: 0 <= i < |r.claves| ==> r.claves[i] == t.claves[i] && r.claves[i] != k;
    r
  }

  /** The table a snapshot describes. */
  function TablaDe(registros: seq<RegistroSimbolo>): Tabla {
    if |registros| == 0 then Tabla([], map[])
    else
      var t := TablaDe(registros[..|registros| - 1]);
      var r := registros[|registros| - 1];
      Tabla(t.claves + [r.id], t.entradas[r.id := Simbolo(r.tipo, r.valor)])
  }

  /** The snapshot loses nothing: the table can be rebuilt from it, order included. */
  lemma {:induction false} SimbolosCompletos(t: TablaSimbolos)
    ensures TablaDe(Simbolos(t)) == t
    decreases |t.claves|
  {
    if |t.claves| > 0 {
      var n := |t.claves|;
      var k := t.claves[n - 1];
      var resto := SinUltima(t);
      var e := t.entradas[k];
      var x := RegistroSimbolo(k, e.tipo, e.valor);
      calc {
        TablaDe(Simbolos(t));
        TablaDe(Simbolos(resto) + [x]);
        { TablaDeAnadir(Simbolos(resto), x); SimbolosCompletos(resto); }
        Tabla(resto.claves + [k], resto.entradas[k := Simbolo(e.tipo, e.valor)]);
        { assert Simbolo(e.tipo, e.valor) == e;
          assert t.claves[..n - 1] + [t.claves[n - 1]] == t.claves;
          RestituirClave(t.entradas, k); }
        Tabla(t.claves, t.entradas);
      }
    }
  }

  /** Appending one record to a snapshot appends its key and binds its entry. */
  lemma TablaDeAnadir(rs: seq<RegistroSimbolo>, x: RegistroSimbolo)
    ensures TablaDe(rs + [x]) == Tabla(TablaDe(rs).claves + [x.id], TablaDe(rs).entradas[x.id := Simbolo(x.tipo, x.valor)])
  {
    assert (rs + [x])[..|rs|] == rs;
  }

  lemma RestituirClave<K, V>(m: map<K, V>, k: K)
    requires k in m
    ensures (m - {k})[k := m[k]] == m
  {
  }

  /** The result built from the environment's final state. */
  function Resumen(st: EstadoEntorno): (r: Resultado)
    ensures r.consola == st.salida && r.errores == st.errores
    ensures TablaDe(r.simbolos) == st.variables
  {
    SimbolosCompletos(st.variables);
    Resultado(st.salida, st.errores, Simbolos(st.variables))
  }

  /** `interpretar(nodosAST)` as a function of its input and the environment's collaborators. */
  function Programa(nodosAST: Json, p: Politica, ev: Instrucciones.Evaluador): (r: Result<Resultado, Excepcion>)
    ensures r == Failure(NoIterable) <==> !Falsy(nodosAST) && !nodosAST.Arr? && !nodosAST.Str?
    ensures Falsy(nodosAST) || nodosAST == Arr([]) ==> r == Success(Resultado("", [], []))
  {
    match Recorrido(nodosAST)
    case None => Failure(NoIterable)
    case Some(nodos) =>
      match Correr(nodos, Inicial, p, ev)
      case None => Failure(ErrorEnEjecucion)
      case Some(st) => Success(Resumen(st))
  }

  /** Running `a + b` is running `a`, then `b` from where `a` stopped. */
  lemma {:induction false} CorrerConcatenado(a: seq<Json>, b: seq<Json>, st: EstadoEntorno, p: Politica, ev: Instrucciones.Evaluador)
    ensures Correr(a + b, st, p, ev) == Seguir(Correr(a, st, p, ev), b, p, ev)
    decreases |b|
  {
    if |b| == 0 {
      assert a + b == a;
    } else {
      var b' := b[..|b| - 1];
      CorrerConcatenado(a, b', st, p, ev);
      assert (a + b)[..|a + b| - 1] == a + b';
      assert (a + b)[|a + b| - 1] == b[|b| - 1];
    }
  }

  /** One more node of the prefix runs from the state the prefix left. */
  lemma CorrerUnoMas(nodos: seq<Json>, i: nat, st0: EstadoEntorno, st: EstadoEntorno, p: Politica, ev: Instrucciones.Evaluador)
    requires i < |nodos|
    requires Correr(nodos[..i], st0, p, ev) == Some(st)
    ensures Correr(nodos[..i + 1], st0, p, ev) == Paso(nodos[i], st, p, ev)
  {
    assert nodos[..i + 1][..i] == nodos[..i];
  }

  /** Once a prefix throws, the whole run throws. */
  lemma ExcepcionDefinitiva(nodos: seq<Json>, i: nat, st: EstadoEntorno, p: Politica, ev: Instrucciones.Evaluador)
    requires i <= |nodos|
    requires Correr(nodos[..i], st, p, ev).None?
    ensures Correr(nodos, st, p, ev).None?
  {
    var previos, resto := nodos[..i], nodos[i..];
    assert previos + resto == nodos;
    CorrerConcatenado(previos, resto, st, p, ev);
    assert Seguir(Correr(previos, st, p, ev), resto, p, ev) == None;
  }

  /**
   * A node that does not convert adds exactly one syntax error and does not
   * stop the run: the nodes after it run from the state it leaves.
   */
  lemma NodoInvalidoNoAborta(a: seq<Json>, nodo: Json, b: seq<Json>, st: EstadoEntorno, p: Politica, ev: Instrucciones.Evaluador)
    requires ConvertirNodo(nodo).None?
    ensures Correr(a + [nodo] + b, st, p, ev) ==
      match Correr(a, st, p, ev)
      case None => None
      case Some(st1) => Correr(b, st1.(errores := st1.errores + [ErrorSintactico]), p, ev)
  {
    CorrerConcatenado(a + [nodo], b, st, p, ev);
    CorrerConcatenado(a, [nodo], st, p, ev);
    assert [nodo][..0] == [];
  }

  /** With no node that converts, the run only records one syntax error per node. */
  lemma {:induction false} SoloNodosInvalidos(nodos: seq<Json>, st: EstadoEntorno, p: Politica, ev: Instrucciones.Evaluador)
    requires forall i :: 0 <= i < |nodos| ==> ConvertirNodo(nodos[i]).None?
    ensures Correr(nodos, st, p, ev) ==
      Some(st.(errores := st.errores + seq(|nodos|, _ => ErrorSintactico)))
    decreases |nodos|
  {
    var n := |nodos|;
    if n > 0 {
      var previos := nodos[..n - 1];
      SoloNodosInvalidos(previos, st, p, ev);
      var st1 := st.(errores := st.errores + seq(n - 1, _ => ErrorSintactico));
      assert Correr(nodos, st, p, ev) == Paso(nodos[n - 1], st1, p, ev);
      assert Paso(nodos[n - 1], st1, p, ev) == Some(st1.(errores := st1.errores + [ErrorSintactico]));
      assert seq(n - 1, _ => ErrorSintactico) + [ErrorSintactico] == seq(n, _ => ErrorSintactico);
      assert st1.errores + [ErrorSintactico] == st.errores + seq(n, _ => ErrorSintactico);
    } else {
      assert st.errores + seq(0, _ => ErrorSintactico) == st.errores;
    }
  }

  /**
   * The driver raises nothing of its own: a run that throws has a first node
   * that converts and whose `interpretar` throws from the state the earlier
   * nodes left.
   */
  lemma {:induction false} ExcepcionDeUnNodo(nodos: seq<Json>, st: EstadoEntorno, p: Politica, ev: Instrucciones.Evaluador)
    requires Correr(nodos, st, p, ev).None?
    ensures exists k ::
      && 0 <= k < |nodos|
      && Correr(nodos[..k], st, p, ev).Some?
      && ConvertirNodo(nodos[k]).Some?
      && Instrucciones.Ejecutar(ConvertirNodo(nodos[k]).value, Correr(nodos[..k], st, p, ev).value, p, ev).None?
    decreases |nodos|
  {
    var m := |nodos| - 1;
    var previos := nodos[..m];
    if Correr(previos, st, p, ev).None? {
      ExcepcionDeUnNodo(previos, st, p, ev);
      var k :| 0 <= k < |previos| && Correr(previos[..k], st, p, ev).Some?
        && ConvertirNodo(previos[k]).Some?
        && Instrucciones.Ejecutar(ConvertirNodo(previos[k]).value, Correr(previos[..k], st, p, ev).value, p, ev).None?;
      assert previos[..k] == nodos[..k];
      assert previos[k] == nodos[k];
    } else {
      assert nodos[..m] == previos;
    }
  }

  /**
   * A recognised statement whose `valor` is missing or does not convert is not
   * a syntax error: it throws, and the exception ends the whole run, whatever
   * comes after it.
   */
  lemma InstruccionSinValorAborta(a: seq<Json>, nodo: Json, b: seq<Json>, p: Politica, ev: Instrucciones.Evaluador)
    requires EsObjeto(nodo)
    requires Propiedad(nodo, "tipo") in {Str("DECLARACION"), Str("ASIGNACION"), Str("IMPRIMIR")}
    requires ConvertirNodo(Propiedad(nodo, "valor")).None?
    requires Correr(a, Inicial, p, ev).Some?
    ensures Programa(Arr(a + [nodo] + b), p, ev) == Failure(ErrorEnEjecucion)
  {
    InstruccionConHijoInvalido(nodo);
    var st := Correr(a, Inicial, p, ev).value;
    Instrucciones.HijoNuloLanza(ConvertirNodo(nodo).value, st, p, ev);
    assert Paso(nodo, st, p, ev).None?;
    CorrerConcatenado(a, [nodo], Inicial, p, ev);
    assert [nodo][..0] == [];
    CorrerConcatenado(a + [nodo], b, Inicial, p, ev);
  }

  /**
   * Nodes run in input order: printing `a` then `b`, with literals that
   * evaluate to themselves, gives "a\nb\n" and never "b\na\n".
   */
  lemma ImprimeEnOrden(a: int, b: int, p: Politica, ev: Instrucciones.Evaluador)
    requires forall st :: ev(Numero(Num(a)), st) == Some((Num(a), st))
    requires forall st :: ev(Numero(Num(b)), st) == Some((Num(b), st))
    ensures Programa(Arr([Serializar(Imprimir(Some(Numero(Num(a))))), Serializar(Imprimir(Some(Numero(Num(b)))))]), p, ev)
      == Success(Resultado(Decimal(a) + "\n" + Decimal(b) + "\n", [], []))
  {
    var nodos := [Serializar(Imprimir(Some(Numero(Num(a))))), Serializar(Imprimir(Some(Numero(Num(b)))))];
    var la, lb := Decimal(a) + "\n", Decimal(b) + "\n";
    var st1 := Inicial.(salida := la);
    var st2 := st1.(salida := la + lb);
    assert Correr(nodos[..1], Inicial, p, ev) == Some(st1) by {
      assert nodos[..1][..0] == [];
      assert nodos[..1][0] == nodos[0];
      ImprimirLiteral(a, Inicial, p, ev);
      assert Inicial.salida + la == la;
    }
    assert Correr(nodos, Inicial, p, ev) == Some(st2) by {
      assert nodos[..2 - 1] == nodos[..1];
      ImprimirLiteral(b, st1, p, ev);
    }
    assert la + lb == Decimal(a) + "\n" + Decimal(b) + "\n";
  }

  /** One step that prints an integer literal evaluating to itself. */
  lemma ImprimirLiteral(a: int, st: EstadoEntorno, p: Politica, ev: Instrucciones.Evaluador)
    requires ev(Numero(Num(a)), st) == Some((Num(a), st))
    ensures Paso(Serializar(Imprimir(Some(Numero(Num(a))))), st, p, ev) == Some(st.(salida := st.salida + (Decimal(a) + "\n")))
  {
    var n := Imprimir(Some(Numero(Num(a))));
    ConvertirSerializar(n);
    assert ConvertirNodo(Serializar(n)) == Some(n);
    assert Instrucciones.EvaluarHijo(Some(Numero(Num(a))), st, p, ev) == Some((Num(a), st));
    assert Texto(Num(a)) == Decimal(a);
    assert Instrucciones.Linea(Num(a)) == Decimal(a) + "\n";
    assert Instrucciones.Ejecutar(n, st, p, ev) == Some((Undefined, st.(salida := st.salida + (Decimal(a) + "\n"))));
  }

  /**
   * One iteration of the driver's loop, in place: runs the node if it
   * converts, otherwise records one syntax error. `false` when the node threw.
   */
  method InterpretarNodo(nodo: Json, entorno: Entorno, ev: Instrucciones.Evaluador) returns (ok: bool)
    modifies entorno
    ensures ok == Paso(nodo, old(entorno.Estado()), entorno.politica, ev).Some?
    ensures ok ==> entorno.Estado() == Paso(nodo, old(entorno.Estado()), entorno.politica, ev).value
  {
    var instruccion := ConvertirNodo(nodo);
    if instruccion.Some? {
      var valor := Instrucciones.Interpretar(instruccion.value, entorno, ev);
      ok := valor.Some?;
    } else {
      entorno.errores := entorno.errores + [ErrorSintactico];
      ok := true;
    }
  }

  /** The driver's `for…of` loop, in place: `false` as soon as a node throws. */
  method InterpretarNodos(nodos: seq<Json>, entorno: Entorno, ev: Instrucciones.Evaluador) returns (ok: bool)
    modifies entorno
    ensures ok == Correr(nodos, old(entorno.Estado()), entorno.politica, ev).Some?
    ensures ok ==> entorno.Estado() == Correr(nodos, old(entorno.Estado()), entorno.politica, ev).value
  {
    ghost var st0 := entorno.Estado();
    var i := 0;
    while i < |nodos|
      invariant 0 <= i <= |nodos|
      invariant Correr(nodos[..i], st0, entorno.politica, ev) == Some(entorno.Estado())
    {
      CorrerUnoMas(nodos, i, st0, entorno.Estado(), entorno.politica, ev);
      ok := InterpretarNodo(nodos[i], entorno, ev);
      if !ok {
        ExcepcionDefinitiva(nodos, i + 1, st0, entorno.politica, ev);
        return;
      }
      i := i + 1;
    }
    assert nodos[..i] == nodos;
    ok := true;
  }

  /** `interpretar`: the loop over the top-level nodes against one fresh environment. */
  method Interpretar(nodosAST: Json, p: Politica, ev: Instrucciones.Evaluador) returns (r: Result<Resultado, Excepcion>)
    ensures r == Programa(nodosAST, p, ev)
  {
    var entorno := new Entorno(p);
    var recorrido := Recorrido(nodosAST);
    if recorrido.None? {
      return Failure(NoIterable);
    }
    var ok := InterpretarNodos(recorrido.value, entorno, ev);
    if !ok {
      return Failure(ErrorEnEjecucion);
    }
    r := Success(Resultado(entorno.salida, entorno.errores, Simbolos(entorno.variables)));
  }
}
