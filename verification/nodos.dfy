/**
 * The node taxonomy and `convertirNodo`: the pure, recursive mapping from an
 * untyped AST node to a typed instruction or expression.
 */
module Nodos {
  import opened Comun
  import opened Valores

  /** The four arithmetic expression classes `Suma`, `Resta`, `Multiplicacion`, `Division`. */
  datatype Operador = Suma | Resta | Multiplicacion | Division

  /**
   * A converted node: the three instruction classes and the expression classes.
   * Each child is the result of converting a raw sub-node, so it may be `None`
   * (the source's `null`), and it may be of any kind, an instruction included.
   * Scalar fields hold the raw values unchanged.
   */
  datatype Node =
    | Declaracion(id: Json, tipoDato: Json, valor: Option<Node>)
    | Asignacion(id: Json, valor: Option<Node>)
    | Imprimir(valor: Option<Node>)
    | Numero(literal: Json)
    | Cadena(literal: Json)
    | Identificador(nombre: Json)
    | Binario(op: Operador, izquierda: Option<Node>, derecha: Option<Node>)
  {
    predicate EsInstruccion() {
      Declaracion? || Asignacion? || Imprimir?
    }
  }

  const Etiquetas: set<string> :=
    {"DECLARACION", "ASIGNACION", "IMPRIMIR", "NUMERO", "CADENA", "ID",
     "SUMA", "RESTA", "MULTIPLICACION", "DIVISION"}

  /** The keys of a raw node that the converter reads. */
  const Claves: set<string> :=
    {"tipo", "id", "tipoDato", "valor", "nombre", "izquierda", "derecha"}

  function EtiquetaOperador(op: Operador): (t: string)
  {
    match op
    case Suma => "SUMA"
    case Resta => "RESTA"
    case Multiplicacion => "MULTIPLICACION"
    case Division => "DIVISION"
  }

  /** The ten tags, one per class; the four arithmetic tags share `Operacion`. */
  datatype Clase =
    | ClaseDeclaracion | ClaseAsignacion | ClaseImprimir
    | ClaseNumero | ClaseCadena | ClaseIdentificador
    | ClaseOperacion(op: Operador)

  function NombreClase(c: Clase): (t: string)
  {
    match c
    case ClaseDeclaracion => "DECLARACION"
    case ClaseAsignacion => "ASIGNACION"
    case ClaseImprimir => "IMPRIMIR"
    case ClaseNumero => "NUMERO"
    case ClaseCadena => "CADENA"
    case ClaseIdentificador => "ID"
    case ClaseOperacion(op) => EtiquetaOperador(op)
  }

  /** The `switch (nodo.tipo)` of the converter: the class a `tipo` value selects, if any. */
  function ClaseDe(tipo: Json): (r: Option<Clase>)
    ensures r.Some? ==> tipo == Str(NombreClase(r.value))
    ensures r.None? <==> !(tipo.Str? && tipo.s in Etiquetas)
  {
    if tipo == Str("DECLARACION") then Some(ClaseDeclaracion)
    else if tipo == Str("ASIGNACION") then Some(ClaseAsignacion)
    else if tipo == Str("IMPRIMIR") then Some(ClaseImprimir)
    else if tipo == Str("NUMERO") then Some(ClaseNumero)
    else if tipo == Str("CADENA") then Some(ClaseCadena)
    else if tipo == Str("ID") then Some(ClaseIdentificador)
    else if tipo == Str("SUMA") then Some(ClaseOperacion(Suma))
    else if tipo == Str("RESTA") then Some(ClaseOperacion(Resta))
    else if tipo == Str("MULTIPLICACION") then Some(ClaseOperacion(Multiplicacion))
    else if tipo == Str("DIVISION") then Some(ClaseOperacion(Division))
    else None
  }

  /** Each tag selects its own class and no other. */
  lemma ClaseDeNombre(c: Clase)
    ensures ClaseDe(Str(NombreClase(c))) == Some(c)
  {
    assert "DIVISION" != "IMPRIMIR" by { assert "DIVISION"[0] != "IMPRIMIR"[0]; }
    assert "NUMERO" != "CADENA" by { assert "NUMERO"[0] != "CADENA"[0]; }
  }

  /** The class of a converted node. */
  function ClaseDeNodo(n: Node): Clase {
    match n
    case Declaracion(_, _, _) => ClaseDeclaracion
    case Asignacion(_, _) => ClaseAsignacion
    case Imprimir(_) => ClaseImprimir
    case Numero(_) => ClaseNumero
    case Cadena(_) => ClaseCadena
    case Identificador(_) => ClaseIdentificador
    case Binario(op, _, _) => ClaseOperacion(op)
  }

  /** The `tipo` tag the parser writes for a node of `n`'s class. */
  function Etiqueta(n: Node): (t: string)
  {
    NombreClase(ClaseDeNodo(n))
  }

  /**
   * `convertirNodo`: `None` for anything that is not an object, or whose
   * `tipo` is not one of the ten tags; otherwise the node of that tag's class,
   * its children converted recursively. A child that fails to convert is kept
   * as `None` inside its parent.
   */
  function ConvertirNodo(nodo: Json): (r: Option<Node>)
    ensures r.Some? <==>
      EsObjeto(nodo) && Propiedad(nodo, "tipo").Str? && Propiedad(nodo, "tipo").s in Etiquetas
    ensures r.Some? ==> Propiedad(nodo, "tipo") == Str(Etiqueta(r.value))
    decreases nodo != Undefined, nodo
  {
    if !EsObjeto(nodo) then None
    else
      match ClaseDe(Propiedad(nodo, "tipo"))
      case Some(ClaseDeclaracion) =>
        Some(Declaracion(Propiedad(nodo, "id"), Propiedad(nodo, "tipoDato"),
                         ConvertirNodo(Propiedad(nodo, "valor"))))
      case Some(ClaseAsignacion) =>
        Some(Asignacion(Propiedad(nodo, "id"), ConvertirNodo(Propiedad(nodo, "valor"))))
      case Some(ClaseImprimir) =>
        Some(Imprimir(ConvertirNodo(Propiedad(nodo, "valor"))))
      case Some(ClaseNumero) => Some(Numero(Propiedad(nodo, "valor")))
      case Some(ClaseCadena) => Some(Cadena(Propiedad(nodo, "valor")))
      case Some(ClaseIdentificador) => Some(Identificador(Propiedad(nodo, "nombre")))
      case Some(ClaseOperacion(op)) =>
        Some(Binario(op, ConvertirNodo(Propiedad(nodo, "izquierda")),
                         ConvertirNodo(Propiedad(nodo, "derecha"))))
      case None => None
  }

  /** The canonical raw form the parser produces for a node; an absent child is `null`. */
  function Serializar(n: Node): Json {
    match n
    case Declaracion(id, tipoDato, valor) =>
      Obj([("tipo", Str("DECLARACION")), ("id", id), ("tipoDato", tipoDato),
           ("valor", SerializarHijo(valor))])
    case Asignacion(id, valor) =>
      Obj([("tipo", Str("ASIGNACION")), ("id", id), ("valor", SerializarHijo(valor))])
    case Imprimir(valor) =>
      Obj([("tipo", Str("IMPRIMIR")), ("valor", SerializarHijo(valor))])
    case Numero(literal) => Obj([("tipo", Str("NUMERO")), ("valor", literal)])
    case Cadena(literal) => Obj([("tipo", Str("CADENA")), ("valor", literal)])
    case Identificador(nombre) => Obj([("tipo", Str("ID")), ("nombre", nombre)])
    case Binario(op, izquierda, derecha) =>
      Obj([("tipo", Str(EtiquetaOperador(op))), ("izquierda", SerializarHijo(izquierda)),
           ("derecha", SerializarHijo(derecha))])
  }

  function SerializarHijo(c: Option<Node>): Json {
    match c
    case None => Null
    case Some(n) => Serializar(n)
  }

  /** Converting the canonical raw form of a node gives the node back. */
  lemma {:induction false} ConvertirSerializar(n: Node)
    ensures ConvertirNodo(Serializar(n)) == Some(n)
  {
    match n
    case Declaracion(id, tipoDato, valor) =>
      ConvertirHijoSerializado(valor);
      ConvertirDeclaracion(id, tipoDato, valor);
    case Asignacion(id, valor) =>
      ConvertirHijoSerializado(valor);
      ConvertirAsignacion(id, valor);
    case Imprimir(valor) =>
      ConvertirHijoSerializado(valor);
      ConvertirImprimir(valor);
    case Numero(_) => ConvertirHoja(n);
    case Cadena(_) => ConvertirHoja(n);
    case Identificador(_) => ConvertirHoja(n);
    case Binario(op, izquierda, derecha) =>
      ConvertirHijoSerializado(izquierda);
      ConvertirHijoSerializado(derecha);
      ConvertirBinario(op, izquierda, derecha);
  }

  lemma ConvertirHoja(n: Node)
    requires n.Numero? || n.Cadena? || n.Identificador?
    ensures ConvertirNodo(Serializar(n)) == Some(n)
  {
    var j := Serializar(n);
    assert Propiedad(j, "tipo") == Str(Etiqueta(n)) by { GetEn(j.miembros, 0); }
    assert Propiedad(j, j.miembros[1].0) == j.miembros[1].1 by { GetEn(j.miembros, 1); }
    Despachar(j, ClaseDeNodo(n));
  }

  lemma ConvertirDeclaracion(id: Json, tipoDato: Json, valor: Option<Node>)
    requires ConvertirNodo(SerializarHijo(valor)) == valor
    ensures ConvertirNodo(Serializar(Declaracion(id, tipoDato, valor))) == Some(Declaracion(id, tipoDato, valor))
  {
    var j := Serializar(Declaracion(id, tipoDato, valor));
    LeerDeclaracion(id, tipoDato, valor);
    Despachar(j, ClaseDeclaracion);
  }

  lemma LeerDeclaracion(id: Json, tipoDato: Json, valor: Option<Node>)
    ensures var j := Serializar(Declaracion(id, tipoDato, valor));
      && Propiedad(j, "tipo") == Str("DECLARACION") && Propiedad(j, "id") == id
      && Propiedad(j, "tipoDato") == tipoDato && Propiedad(j, "valor") == SerializarHijo(valor)
  {
    var j := Serializar(Declaracion(id, tipoDato, valor));
    assert Propiedad(j, "tipo") == Str("DECLARACION") by { GetEn(j.miembros, 0); }
    assert Propiedad(j, "id") == id by { GetEn(j.miembros, 1); }
    assert Propiedad(j, "tipoDato") == tipoDato by { GetEn(j.miembros, 2); }
    assert Propiedad(j, "valor") == SerializarHijo(valor) by { GetEn(j.miembros, 3); }
  }

  lemma ConvertirAsignacion(id: Json, valor: Option<Node>)
    requires ConvertirNodo(SerializarHijo(valor)) == valor
    ensures ConvertirNodo(Serializar(Asignacion(id, valor))) == Some(Asignacion(id, valor))
  {
    var j := Serializar(Asignacion(id, valor));
    assert Propiedad(j, "tipo") == Str("ASIGNACION") by { GetEn(j.miembros, 0); }
    assert Propiedad(j, "id") == id by { GetEn(j.miembros, 1); }
    assert Propiedad(j, "valor") == SerializarHijo(valor) by { GetEn(j.miembros, 2); }
    Despachar(j, ClaseAsignacion);
  }

  lemma ConvertirImprimir(valor: Option<Node>)
    requires ConvertirNodo(SerializarHijo(valor)) == valor
    ensures ConvertirNodo(Serializar(Imprimir(valor))) == Some(Imprimir(valor))
  {
    var j := Serializar(Imprimir(valor));
    assert Propiedad(j, "tipo") == Str("IMPRIMIR") by { GetEn(j.miembros, 0); }
    assert Propiedad(j, "valor") == SerializarHijo(valor) by { GetEn(j.miembros, 1); }
    Despachar(j, ClaseImprimir);
  }

  lemma ConvertirBinario(op: Operador, izquierda: Option<Node>, derecha: Option<Node>)
    requires ConvertirNodo(SerializarHijo(izquierda)) == izquierda
    requires ConvertirNodo(SerializarHijo(derecha)) == derecha
    ensures ConvertirNodo(Serializar(Binario(op, izquierda, derecha))) == Some(Binario(op, izquierda, derecha))
  {
    var j := Serializar(Binario(op, izquierda, derecha));
    LeerBinario(op, izquierda, derecha);
    Despachar(j, ClaseOperacion(op));
  }

  lemma LeerBinario(op: Operador, izquierda: Option<Node>, derecha: Option<Node>)
    ensures var j := Serializar(Binario(op, izquierda, derecha));
      && Propiedad(j, "tipo") == Str(EtiquetaOperador(op))
      && Propiedad(j, "izquierda") == SerializarHijo(izquierda)
      && Propiedad(j, "derecha") == SerializarHijo(derecha)
  {
    var j := Serializar(Binario(op, izquierda, derecha));
    assert Propiedad(j, "tipo") == Str(EtiquetaOperador(op)) by { GetEn(j.miembros, 0); }
    assert Propiedad(j, "izquierda") == SerializarHijo(izquierda) by { GetEn(j.miembros, 1); }
    assert Propiedad(j, "derecha") == SerializarHijo(derecha) by { GetEn(j.miembros, 2); }
  }

  /** One step of the converter on an object whose `tipo` names class `c`. */
  lemma Despachar(nodo: Json, c: Clase)
    requires nodo.Obj? && Propiedad(nodo, "tipo") == Str(NombreClase(c))
    ensures ConvertirNodo(nodo) == Some(match c
      case ClaseDeclaracion =>
        Declaracion(Propiedad(nodo, "id"), Propiedad(nodo, "tipoDato"), ConvertirNodo(Propiedad(nodo, "valor")))
      case ClaseAsignacion => Asignacion(Propiedad(nodo, "id"), ConvertirNodo(Propiedad(nodo, "valor")))
      case ClaseImprimir => Imprimir(ConvertirNodo(Propiedad(nodo, "valor")))
      case ClaseNumero => Numero(Propiedad(nodo, "valor"))
      case ClaseCadena => Cadena(Propiedad(nodo, "valor"))
      case ClaseIdentificador => Identificador(Propiedad(nodo, "nombre"))
      case ClaseOperacion(op) =>
        Binario(op, ConvertirNodo(Propiedad(nodo, "izquierda")), ConvertirNodo(Propiedad(nodo, "derecha"))))
  {
    ClaseDeNombre(c);
  }

  lemma {:induction false} ConvertirHijoSerializado(c: Option<Node>)
    ensures ConvertirNodo(SerializarHijo(c)) == c
  {
    if c.Some? {
      ConvertirSerializar(c.value);
    }
  }

  /** Distinct nodes have distinct raw forms. */
  lemma SerializarInyectiva(a: Node, b: Node)
    requires Serializar(a) == Serializar(b)
    ensures a == b
  {
    ConvertirSerializar(a);
    ConvertirSerializar(b);
  }

  /**
   * Every recognised tag builds its own class with the fields copied unchanged
   * and with the `valor`, `izquierda` and `derecha` sub-nodes converted, in
   * that position, each on its own.
   */
  lemma CamposCopiados(nodo: Json)
    requires ConvertirNodo(nodo).Some?
    ensures match ConvertirNodo(nodo).value
      case Declaracion(id, tipoDato, valor) =>
        id == Propiedad(nodo, "id") && tipoDato == Propiedad(nodo, "tipoDato")
        && valor == ConvertirNodo(Propiedad(nodo, "valor"))
      case Asignacion(id, valor) =>
        id == Propiedad(nodo, "id") && valor == ConvertirNodo(Propiedad(nodo, "valor"))
      case Imprimir(valor) => valor == ConvertirNodo(Propiedad(nodo, "valor"))
      case Numero(literal) => literal == Propiedad(nodo, "valor")
      case Cadena(literal) => literal == Propiedad(nodo, "valor")
      case Identificador(nombre) => nombre == Propiedad(nodo, "nombre")
      case Binario(_, izquierda, derecha) =>
        izquierda == ConvertirNodo(Propiedad(nodo, "izquierda"))
        && derecha == ConvertirNodo(Propiedad(nodo, "derecha"))
  {
  }

  /**
   * A statement whose `valor` sub-node does not convert is still a statement,
   * with `None` as its child.
   */
  lemma InstruccionConHijoInvalido(nodo: Json)
    requires EsObjeto(nodo)
    requires Propiedad(nodo, "tipo") in {Str("DECLARACION"), Str("ASIGNACION"), Str("IMPRIMIR")}
    requires ConvertirNodo(Propiedad(nodo, "valor")).None?
    ensures ConvertirNodo(nodo).Some?
    ensures ConvertirNodo(nodo).value.EsInstruccion()
    ensures ConvertirNodo(nodo).value.valor.None?
  {
  }

  /** Keys other than the seven the converter reads do not affect the result. */
  lemma IgnoraOtrasClaves(ms: seq<(string, Json)>, k: string, v: Json)
    requires k !in Claves
    ensures ConvertirNodo(Obj(ms + [(k, v)])) == ConvertirNodo(Obj(ms))
  {
    var ms' := ms + [(k, v)];
    assert ms'[..|ms'| - 1] == ms;
    forall c | c in Claves
      ensures Propiedad(Obj(ms'), c) == Propiedad(Obj(ms), c)
    {
    }
  }
}
