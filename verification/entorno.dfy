/**
 * The execution environment `Entorno`, as far as the interpreter core relies
 * on it: an output buffer, an error list and an insertion-ordered variable
 * table. Its declaration and assignment policies are not part of this model;
 * they are supplied as a `Politica`.
 */
module Entornos {
  import opened Valores

  /** An entry of `entorno.errores`: `{tipo, descripcion}`. */
  datatype ErrorRec = ErrorRec(tipo: string, descripcion: string)

  /** The value a variable is bound to: `{tipo, valor}`. */
  datatype Simbolo = Simbolo(tipo: Json, valor: Json)

  /** A JavaScript `Map`: its keys in insertion order and the entry of each key. */
  datatype Tabla = Tabla(claves: seq<Json>, entradas: map<Json, Simbolo>) {
    ghost predicate Valida() {
      && (forall i, j :: 0 <= i < j < |claves| ==> claves[i] != claves[j])
      && (forall k :: k in entradas <==> k in claves)
    }
  }

  /** A `Map` never repeats a key and iterates over exactly its entries. */
  type TablaSimbolos = t: Tabla | t.Valida() witness Tabla([], map[])

  /** The observable state of an environment. */
  datatype EstadoEntorno = EstadoEntorno(salida: string, errores: seq<ErrorRec>, variables: TablaSimbolos)

  /** A fresh environment: no output, no errors, no variables. */
  const Inicial := EstadoEntorno("", [], Tabla([], map[]))

  /**
   * `entorno.declarar(id, tipo, valor)` and `entorno.asignar(id, valor)`:
   * whatever they do to the state (bind, update, record a semantic error) is
   * given here. They always return, and always leave a well-formed table.
   */
  datatype Politica = Politica(
    declarar: (EstadoEntorno, Json, Json, Json) -> EstadoEntorno,
    asignar: (EstadoEntorno, Json, Json) -> EstadoEntorno)

  class Entorno {
    var salida: string
    var errores: seq<ErrorRec>
    var variables: TablaSimbolos
    const politica: Politica

    function Estado(): EstadoEntorno
      reads this
    {
      EstadoEntorno(salida, errores, variables)
    }

    /** `new Entorno()`. */
    constructor (politica: Politica)
      ensures Estado() == Inicial && this.politica == politica
    {
      salida, errores, variables := "", [], Tabla([], map[]);
      this.politica := politica;
    }

    /** `entorno.declarar(id, tipo, valor)`. */
    method Declarar(id: Json, tipo: Json, valor: Json)
      modifies this
      ensures Estado() == politica.declarar(old(Estado()), id, tipo, valor)
    {
      var e := politica.declarar(Estado(), id, tipo, valor);
      salida, errores, variables := e.salida, e.errores, e.variables;
    }

    /** `entorno.asignar(id, valor)`. */
    method Asignar(id: Json, valor: Json)
      modifies this
      ensures Estado() == politica.asignar(old(Estado()), id, valor)
    {
      var e := politica.asignar(Estado(), id, valor);
      salida, errores, variables := e.salida, e.errores, e.variables;
    }
  }
}
