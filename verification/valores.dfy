/**
 * JavaScript values as the interpreter sees them: the untyped AST handed over
 * by the parser is made of these, and expression evaluation yields them.
 */
module Valores {
  import opened Comun

  /**
   * A JavaScript value. `Undefined` is what reading an absent property gives;
   * an object is its list of own properties in insertion order. Numbers are
   * restricted to integers.
   */
  datatype Json =
    | Undefined
    | Null
    | Bool(b: bool)
    | Num(n: int)
    | Str(s: string)
    | Arr(items: seq<Json>)
    | Obj(miembros: seq<(string, Json)>)

  /** The value bound to key `k` (the last binding wins, as with `JSON.parse`), or `Undefined`. */
  function Get(ms: seq<(string, Json)>, k: string): (r: Json)
    ensures r != Undefined ==> (k, r) in ms
  {
    if |ms| == 0 then Undefined
    else if ms[|ms| - 1].0 == k then ms[|ms| - 1].1
    else Get(ms[..|ms| - 1], k)
  }

  /** What `Get` finds is bound to `k` in the object; with no binding for `k` it finds `Undefined`. */
  lemma {:induction false} GetEncuentraLigadura(ms: seq<(string, Json)>, k: string)
    ensures Get(ms, k) == Undefined || exists i :: 0 <= i < |ms| && ms[i] == (k, Get(ms, k))
    ensures (forall i :: 0 <= i < |ms| ==> ms[i].0 != k) ==> Get(ms, k) == Undefined
  {
    if |ms| > 0 && ms[|ms| - 1].0 != k {
      var p := ms[..|ms| - 1];
      GetEncuentraLigadura(p, k);
      if Get(p, k) != Undefined {
        var i :| 0 <= i < |p| && p[i] == (k, Get(p, k));
        assert ms[i] == p[i];
      }
    }
  }

  /**
   * Property access `j.k`. The converter reads properties only of objects and
   * arrays (never of `null` or `undefined`, where JavaScript would throw); an
   * array or any other value carries none of the keys it reads.
   */
  function Propiedad(j: Json, k: string): (r: Json)
    ensures r == Undefined || r < j
    ensures !j.Obj? ==> r == Undefined
  {
    if j.Obj? then PropiedadMenor(j.miembros, k); Get(j.miembros, k) else Undefined
  }

  /** The binding at `i` is the one `Get` finds when no later binding has the same key. */
  lemma {:induction false} GetEn(ms: seq<(string, Json)>, i: nat)
    requires i < |ms|
    requires forall m :: i < m < |ms| ==> ms[m].0 != ms[i].0
    ensures Get(ms, ms[i].0) == ms[i].1
  {
    if i < |ms| - 1 {
      GetEn(ms[..|ms| - 1], i);
    }
  }

  /** A property value is a part of its object, so recursion through it terminates. */
  lemma PropiedadMenor(ms: seq<(string, Json)>, k: string)
    ensures Get(ms, k) == Undefined || Get(ms, k) < Obj(ms)
  {
    var r := Get(ms, k);
    GetEncuentraLigadura(ms, k);
    if r != Undefined {
      var i :| 0 <= i < |ms| && ms[i] == (k, r);
      assert ms[i] in ms;
    }
  }

  /** JavaScript falsiness: `undefined`, `null`, `false`, `0` and `""`. */
  predicate Falsy(j: Json)
    ensures Falsy(j) ==> !j.Obj? && !j.Arr?
  {
    j.Undefined? || j.Null? || j == Bool(false) || j == Num(0) || j == Str("")
  }

  /** `typeof j === "object"`, which holds of `null` as well. */
  predicate TipoObjeto(j: Json) {
    j.Obj? || j.Arr? || j.Null?
  }

  /** A truthy value whose JavaScript type is "object": a non-null object or an array. */
  predicate EsObjeto(j: Json)
    ensures EsObjeto(j) <==> !Falsy(j) && TipoObjeto(j)
  {
    j.Obj? || j.Arr?
  }

  /** The character of decimal digit `d`. */
  function DigitoChar(d: nat): (c: char)
    requires d < 10
    ensures '0' <= c <= '9' && c as int - '0' as int == d
  {
    ('0' as int + d) as char
  }

  predicate SonDigitos(s: string) {
    forall i :: 0 <= i < |s| ==> '0' <= s[i] <= '9'
  }

  /** Decimal digits of `n`, most significant first, without leading zeros. */
  function Digitos(n: nat): (r: string)
    ensures |r| > 0 && SonDigitos(r)
    ensures r[0] == '0' <==> n == 0
  {
    if n < 10 then [DigitoChar(n)] else Digitos(n / 10) + [DigitoChar(n % 10)]
  }

  /** The number a string of decimal digits denotes. */
  function ValorDigitos(s: string): nat
    requires SonDigitos(s)
  {
    if |s| == 0 then 0
    else ValorDigitos(s[..|s| - 1]) * 10 + (s[|s| - 1] as int - '0' as int)
  }

  /**
   * The canonical decimal form of an integer: an optional minus sign, then
   * digits with no leading zero; zero is "0" and never "-0".
   */
  predicate Canonico(s: string) {
    && |s| > 0
    && var d := if s[0] == '-' then s[1..] else s;
    && |d| > 0 && SonDigitos(d)
    && (d[0] == '0' ==> |d| == 1 && s[0] != '-')
  }

  /** `String(n)` for an integer `n`. */
  function Decimal(n: int): (r: string)
    ensures Canonico(r)
    ensures r[0] == '-' <==> n < 0
  {
    if n < 0 then "-" + Digitos(-n) else Digitos(n)
  }

  /** Reads back an optionally signed decimal numeral. */
  function LeerEntero(s: string): Option<int> {
    if |s| > 1 && s[0] == '-' && SonDigitos(s[1..]) then Some(0 - ValorDigitos(s[1..]) as int)
    else if |s| > 0 && SonDigitos(s) then Some(ValorDigitos(s))
    else None
  }

  lemma {:induction false} ValorDeDigitos(n: nat)
    ensures ValorDigitos(Digitos(n)) == n
  {
    var r := Digitos(n);
    if n >= 10 {
      ValorDeDigitos(n / 10);
      assert r[..|r| - 1] == Digitos(n / 10);
    }
  }

  /** Printing an integer and reading it back gives the integer. */
  lemma DecimalSeLeeDeVuelta(n: int)
    ensures LeerEntero(Decimal(n)) == Some(n)
  {
    if n < 0 {
      LeerNegativo(-n);
      assert Decimal(n) == "-" + Digitos(-n);
    } else {
      ValorDeDigitos(n);
      assert Digitos(n)[0] != '-';
    }
  }

  lemma LeerNegativo(m: nat)
    requires m > 0
    ensures LeerEntero("-" + Digitos(m)) == Some(0 - m as int)
  {
    var d := Digitos(m);
    ValorDeDigitos(m);
    var s := "-" + d;
    assert s[1..] == d;
  }

  /** A canonical numeral is the text of the integer it reads as: no other text prints that integer. */
  lemma DecimalUnico(s: string)
    requires Canonico(s)
    ensures LeerEntero(s).Some? && Decimal(LeerEntero(s).value) == s
  {
    if s[0] == '-' {
      var d := s[1..];
      ValorPositivo(d);
      DigitosDeValor(d);
    } else {
      DigitosDeValor(s);
    }
  }

  /** A digit string that does not start with 0 denotes a positive number. */
  lemma {:induction false} ValorPositivo(d: string)
    requires |d| > 0 && SonDigitos(d) && d[0] != '0'
    ensures ValorDigitos(d) > 0
  {
    if |d| > 1 {
      ValorPositivo(d[..|d| - 1]);
    }
  }

  /** A digit string without leading zeros is the text of its value. */
  lemma {:induction false} DigitosDeValor(d: string)
    requires |d| > 0 && SonDigitos(d) && (d[0] == '0' ==> |d| == 1)
    ensures Digitos(ValorDigitos(d)) == d
  {
    if |d| > 1 {
      var p := d[..|d| - 1];
      ValorPositivo(p);
      DigitosDeValor(p);
      var v := ValorDigitos(d);
      assert v / 10 == ValorDigitos(p) && v % 10 == d[|d| - 1] as int - '0' as int;
      assert d == p + [d[|d| - 1]];
    }
  }

  /**
   * The text `v + ""` gives in JavaScript: integers in decimal, strings as
   * they are, arrays joined with commas, plain objects as "[object Object]".
   */
  function Texto(v: Json): (r: string)
    ensures v.Str? ==> r == v.s
    ensures v.Num? ==> r == Decimal(v.n) && LeerEntero(r) == Some(v.n)
    decreases v, 0
  {
    match v
    case Undefined => "undefined"
    case Null => "null"
    case Bool(b) => if b then "true" else "false"
    case Num(n) => DecimalSeLeeDeVuelta(n); Decimal(n)
    case Str(s) => s
    case Arr(items) => Unir(items)
    case Obj(_) => "[object Object]"
  }

  /** `Array.prototype.join(",")`. */
  function Unir(items: seq<Json>): string
    decreases items, 0
  {
    if |items| == 0 then ""
    else if |items| == 1 then TextoElemento(items[0])
    else Unir(items[..|items| - 1]) + "," + TextoElemento(items[|items| - 1])
  }

  /** An array element as `join` writes it: `undefined` and `null` become empty. */
  function TextoElemento(v: Json): string
    decreases v, 1
  {
    if v.Undefined? || v.Null? then "" else Texto(v)
  }
}
