# simplicode interpreter core, in Dafny

This project models the evaluation core of the simplicode teaching
interpreter. It covers three parts:

- **The node converter** (`convertirNodo`). It maps an untyped JSON-like AST
  node to a typed instruction or expression, or to `null`.
- **The program driver** (`interpretar`). It runs every top-level node, in
  order, against one fresh environment. For each node that does not convert,
  it records one syntax error and carries on. It returns the output, the
  errors, and a snapshot of the variables.
- **The three instruction classes** `Declaracion`, `Asignacion` and `Imprimir`.
  Each `interpretar` evaluates its one child, then makes exactly one change to
  the environment.

Modules, one per file:

- `Comun` (comun.dfy): `Option` and `Result`.
- `Valores` (valores.dfy): raw AST values (`Json`) and property lookup.
  - An absent key reads as `undefined`.
  - The last binding of a key wins.
  - JavaScript truthiness.
  - The string conversion `Imprimir` uses, restricted to integers, strings,
    booleans, `null`, arrays and objects.
  - A decimal reader, used to prove that printed integers read back.
- `Nodos` (nodos.dfy): the typed node datatype and `ConvertirNodo`.
  - `Serializar` is the canonical raw form of a typed node. It is the
    converter's partner: the two round-trip.
  - The three JavaScript instruction classes are constructors of `Node`, so
    each constructor stores its arguments unchanged by definition.
- `Entornos` (entorno.dfy): the environment class `Entorno`.
  - Its fields are `salida`, `errores`, and an insertion-ordered variable
    table (keys as a `seq`, entries as a `map`, kept consistent by a subset
    type).
  - It has a `Politica` (policy) that supplies `declarar` and `asignar`.
- `Instrucciones` (instrucciones.dfy): the instruction semantics.
  - As functions on states: `Ejecutar`, `EvaluarHijo`.
  - As methods that update an `Entorno` in place: `Interpretar`,
    `InterpretarDeclaracion`, `InterpretarAsignacion`, `InterpretarImprimir`.
  - The methods are proved against the functions.
- `Interprete` (interprete.dfy): the driver.
  - The reference definition `Programa` uses `Recorrido`, `Paso` and `Correr`.
  - The method `InterpretarNodos` runs the `while` loop in place, one
    `InterpretarNodo` step per node. It is proved equal to `Correr`, and the
    method `Interpretar` built on it is proved equal to `Programa`.

Some collaborators are not part of this model: the `Entorno` policies and the
evaluation of expression classes. The model takes them as parameters:

- a `Politica`, holding the functions `declarar` and `asignar` over
  environment states;
- an `Evaluador`, which gives an expression node's value and the state it
  leaves, or `None` when it throws.

A JavaScript exception is modelled as `None` in the state functions, as
`ok == false` in the instruction methods, and as `Failure(...)` from the
driver. A truthy `nodosAST` that is not iterable throws.

The driver reports a node that does not convert as a syntax error and
carries on. A recognised statement whose `valor` is missing or does not
convert still converts, with a `null` child. Running it throws, so the whole
run ends in an exception rather than a recorded error
(`Interprete.InstruccionSinValorAborta`).

## Model

| member | source | states |
|---|---|---|
| `Valores.Propiedad` | simplicode/server/src/interpreter/interpreter.js:21 | The converter reads properties only of objects and arrays. Reading a key of anything but a plain object gives `undefined`. Reading a property of an object gives a value strictly smaller than the object, which is why the converter's recursion terminates. |
| `Valores.Get` | simplicode/server/src/interpreter/interpreter.js:21-43 | The property reads of the converter: a value other than `undefined` is bound to that key in the object. `GetEncuentraLigadura` and `GetEn` pin it to the last binding, and to `undefined` for an absent key. |
| `Valores.GetEncuentraLigadura` | simplicode/server/src/interpreter/interpreter.js:21 | A property read returns either `undefined` or the value of some binding of that key. It returns `undefined` whenever the key is absent. |
| `Valores.GetEn` | simplicode/server/src/interpreter/interpreter.js:21 | A key with no later binding reads as the value bound to it. |
| `Valores.Falsy` | simplicode/server/src/interpreter/interpreter.js:19 | JavaScript falsiness: `undefined`, `null`, `false`, `0` and `""`. Every object and array is truthy, even an empty one. |
| `Valores.EsObjeto` | simplicode/server/src/interpreter/interpreter.js:19 | The converter's guard: a value passes exactly when it is truthy and its `typeof` is "object", which leaves plain objects and arrays. `ConvertirNodo` rejects everything else. |
| `Valores.Digitos` | simplicode/server/src/interpreter/Instrucciones.js:33 | The decimal text of a natural number is non-empty and all digits. It starts with `0` only for zero, so there are no leading zeros. |
| `Valores.Decimal` | simplicode/server/src/interpreter/Instrucciones.js:33 | An integer's text is in canonical form: a minus sign exactly for negatives, then digits with no leading zero, and "0" for zero (never "-0"). `DecimalSeLeeDeVuelta` and `DecimalUnico` show it reads back and is the only canonical text of that integer. |
| `Valores.DecimalUnico` | simplicode/server/src/interpreter/Instrucciones.js:33 | Any canonical numeral is the text of the integer it reads as. So the text of an integer is determined, as JavaScript's `String(n)` is. |
| `Valores.DecimalSeLeeDeVuelta` | simplicode/server/src/interpreter/Instrucciones.js:33 | The text printed for any integer, negative ones included, reads back as that integer. |
| `Valores.Texto` | simplicode/server/src/interpreter/Instrucciones.js:33 | A string value prints as itself. An integer prints as its canonical decimal text, which reads back to the same integer. |
| `Nodos.ClaseDe` | simplicode/server/src/interpreter/interpreter.js:21-47 | The `tipo` switch selects a class exactly when `tipo` is one of the ten tag strings. The class selected is the one whose tag equals `tipo`. |
| `Nodos.ClaseDeNombre` | simplicode/server/src/interpreter/interpreter.js:21-47 | Each of the ten tags selects its own class and no other, so no two cases overlap. |
| `Nodos.ConvertirNodo` | simplicode/server/src/interpreter/interpreter.js:18-48 | The result is `null` if and only if the input is not a truthy object or its `tipo` is not one of the ten tags. A non-null result's class is the one its `tipo` names. |
| `Nodos.CamposCopiados` | simplicode/server/src/interpreter/interpreter.js:22-43 | `id`, `tipoDato`, literal `valor` and `nombre` are copied unchanged. `valor`, `izquierda` and `derecha` sub-nodes are converted into their own positions: left stays left, right stays right. |
| `Nodos.InstruccionConHijoInvalido` | simplicode/server/src/interpreter/interpreter.js:22-27 | A statement whose `valor` does not convert is still a statement, with a `null` child. The statement itself is not `null`. |
| `Nodos.IgnoraOtrasClaves` | simplicode/server/src/interpreter/interpreter.js:18-48 | Adding a key that the converter does not read leaves its result unchanged. |
| `Nodos.ConvertirSerializar` | simplicode/server/src/interpreter/interpreter.js:18-48 | Converting the raw form of any typed node gives that node back. This covers all ten classes (the four arithmetic ones through `Binario`'s operator), nested to any depth, including `null` children. |
| `Nodos.ConvertirHijoSerializado` | simplicode/server/src/interpreter/interpreter.js:23 | Converting the raw form of a child, whether a node or `null`, gives that child back. |
| `Nodos.SerializarInyectiva` | simplicode/server/src/interpreter/interpreter.js:18-48 | Distinct typed nodes have distinct raw forms, so each typed node has exactly one canonical raw input. |
| `Entornos.Entorno.constructor` | simplicode/server/src/interpreter/interpreter.js:51 | A new environment has no output, no errors and no variables. |
| `Entornos.Entorno.Declarar` | simplicode/server/src/interpreter/Instrucciones.js:10 | The new state is the policy's `declarar` applied to the old state, with exactly the given id, type and value. |
| `Entornos.Entorno.Asignar` | simplicode/server/src/interpreter/Instrucciones.js:22 | The new state is the policy's `asignar` applied to the old state, with exactly the given id and value. |
| `Instrucciones.Linea` | simplicode/server/src/interpreter/Instrucciones.js:33 | The printed line always ends in a newline. `undefined` and `null` print as `"null\n"`. A string prints as itself. An integer's line is its canonical decimal text and reads back as the integer. |
| `Instrucciones.Ejecutar` | simplicode/server/src/interpreter/Instrucciones.js:8-34 | The reference semantics of `interpretar` on a state. An instruction throws exactly when evaluating its child throws, and otherwise returns `undefined`. `HijoNuloLanza` and `ImprimirAnadeUnaLinea` state the rest, and the in-place methods are proved against it. |
| `Instrucciones.EvaluarHijo` | simplicode/server/src/interpreter/Instrucciones.js:9 | Evaluating a `null` child throws. A child that is itself an instruction yields `undefined`. |
| `Instrucciones.Interpretar` | simplicode/server/src/interpreter/Instrucciones.js:8-34 | Running a node in place returns the value `Ejecutar` gives and leaves the state it gives. It throws exactly when `Ejecutar` does. |
| `Instrucciones.InterpretarHijo` | simplicode/server/src/interpreter/Instrucciones.js:9 | Evaluating a `null` child throws. Otherwise the child is evaluated once, with the outcome `EvaluarHijo` gives. |
| `Instrucciones.InterpretarDeclaracion` | simplicode/server/src/interpreter/Instrucciones.js:8-11 | The child is evaluated once. If that throws, the declaration throws. Otherwise the new state is `declarar` applied to the post-evaluation state, the declared id and type, and exactly the value obtained. |
| `Instrucciones.InterpretarAsignacion` | simplicode/server/src/interpreter/Instrucciones.js:20-23 | The child is evaluated once. If that throws, the assignment throws. Otherwise the new state is `asignar` applied to the post-evaluation state, the id, and exactly the value obtained. There is no other change. |
| `Instrucciones.InterpretarImprimir` | simplicode/server/src/interpreter/Instrucciones.js:31-34 | The child is evaluated once. If that throws, the print throws. Otherwise `salida` gains exactly that value's line. `errores` and the variables stay as the evaluation left them. |
| `Instrucciones.Cargar` | simplicode/server/src/interpreter/Instrucciones.js:8-34 | Installs, in place, the state an expression's evaluation leaves. |
| `Instrucciones.HijoNuloLanza` | simplicode/server/src/interpreter/Instrucciones.js:9 | Every instruction whose child is `null` throws, from any state. |
| `Instrucciones.ImprimirAnadeUnaLinea` | simplicode/server/src/interpreter/Instrucciones.js:31-34 | Printing returns `undefined`. The old output is a prefix of the new output. The suffix is exactly the value's line and ends in a newline. `errores` and the variables are unchanged by the print. |
| `Instrucciones.SoloNuloSeReemplaza` | simplicode/server/src/interpreter/Instrucciones.js:33 | Only `undefined` and `null` are replaced by `null`. `0`, `""` and `false` print as `0`, an empty line and `false`. |
| `Interprete.Recorrido` | simplicode/server/src/interpreter/interpreter.js:53 | A falsy node list is visited as empty. An array visits its elements. A string visits its one-character strings, in order. Any other value is not iterable, and exactly those values throw. |
| `Interprete.Caracteres` | simplicode/server/src/interpreter/interpreter.js:53 | A string iterates as its characters, in order, each one a one-character string. |
| `Interprete.Paso` | simplicode/server/src/interpreter/interpreter.js:54-59 | One iteration: only a node that converts can throw. A node that does not convert appends exactly one syntax error and leaves the output and variables as they were. |
| `Interprete.Correr` | simplicode/server/src/interpreter/interpreter.js:53-60 | The loop as a fold over the nodes. An empty list never throws. `CorrerConcatenado`, `NodoInvalidoNoAborta`, `SoloNodosInvalidos` and `ExcepcionDeUnNodo` state its properties. |
| `Interprete.Simbolos` | simplicode/server/src/interpreter/interpreter.js:65-69 | There is one record per variable. `SimbolosEnOrden` gives each record's contents, and `SimbolosCompletos` shows the snapshot loses nothing. |
| `Interprete.SimbolosEnOrden` | simplicode/server/src/interpreter/interpreter.js:65-69 | Record `i` of `simbolos` is the `i`-th key in insertion order, with the type and value of its entry. |
| `Interprete.SimbolosCompletos` | simplicode/server/src/interpreter/interpreter.js:65-69 | The snapshot loses nothing: the variable table, including its key order, can be rebuilt from `simbolos`. |
| `Interprete.Resumen` | simplicode/server/src/interpreter/interpreter.js:62-70 | `consola` and `errores` are the final `salida` and `errores`. The final table can be rebuilt from `simbolos`. |
| `Interprete.Programa` | simplicode/server/src/interpreter/interpreter.js:50-71 | The reference definition of `interpretar`. It throws `NoIterable` exactly when the list is truthy and neither an array nor a string. A missing, falsy or empty list gives empty `consola`, no `errores` and no `simbolos`. |
| `Interprete.CorrerConcatenado` | simplicode/server/src/interpreter/interpreter.js:53-60 | Running `a + b` is running `a`, then running `b` from the state `a` left. If `a` throws, the whole run throws. |
| `Interprete.CorrerUnoMas` | simplicode/server/src/interpreter/interpreter.js:53-60 | Each loop iteration handles the next node in the state the earlier nodes left. |
| `Interprete.ExcepcionDefinitiva` | simplicode/server/src/interpreter/interpreter.js:56 | Once a node throws, the whole run throws. |
| `Interprete.NodoInvalidoNoAborta` | simplicode/server/src/interpreter/interpreter.js:54-59 | A node that does not convert appends exactly one `Sintáctico`/`Nodo inválido` error and changes nothing else. The following nodes run from that state. |
| `Interprete.SoloNodosInvalidos` | simplicode/server/src/interpreter/interpreter.js:53-59 | A list of n nodes, none of which converts, appends exactly n syntax errors, leaves output and variables untouched, and never throws. |
| `Interprete.ExcepcionDeUnNodo` | simplicode/server/src/interpreter/interpreter.js:53-60 | A run throws only when some node converts and its `interpretar` throws from the state the earlier nodes left. The driver raises nothing of its own. |
| `Interprete.InstruccionSinValorAborta` | simplicode/server/src/interpreter/interpreter.js:53-60 | A recognised statement whose `valor` is missing or does not convert is not counted as a syntax error. It throws, and the whole run ends in an exception, whatever nodes follow. |
| `Interprete.ImprimirLiteral` | simplicode/server/src/interpreter/interpreter.js:54-56 | A top-level print of an integer literal appends that integer's decimal line. |
| `Interprete.ImprimeEnOrden` | simplicode/server/src/interpreter/interpreter.js:53-60 | Nodes run in input order: printing `a`, then `b`, outputs `a`'s line followed by `b`'s. |
| `Interprete.InterpretarNodo` | simplicode/server/src/interpreter/interpreter.js:54-59 | One loop iteration, in place, leaves exactly the state `Paso` gives, and reports a throw exactly when `Paso` does. |
| `Interprete.InterpretarNodos` | simplicode/server/src/interpreter/interpreter.js:53-60 | The `for…of` loop, in place, leaves exactly the state `Correr` gives, and stops at a throw exactly when `Correr` does. |
| `Interprete.Interpretar` | simplicode/server/src/interpreter/interpreter.js:50-71 | The imperative driver returns exactly `Programa`. Its `consola` and `errores` are the final environment's. Its `simbolos` are the snapshot of the final table. It throws only when the list is not iterable or a node throws. |

## Left out

- The `Entorno` class's own code is not part of this model.
  - Its `declarar` and `asignar` policies (redeclaration, undeclared
    assignment, type checks) are parameters. The model assumes they return
    normally and keep the variable table well formed.
  - A new environment is taken to be empty.
- The expression classes' `interpretar` is not part of this model: arithmetic,
  division by zero and identifier lookup. Expression evaluation is an
  `Evaluador` parameter. It sees an expression node as a whole, so a statement
  nested under an arithmetic node reaches the evaluator rather than the
  instruction semantics.
- Numbers are integers. Floating point, JavaScript's exponent formatting of
  large numbers, `NaN` and negative zero are not modelled.
- A variable table compares keys structurally. JavaScript `Map` compares
  object keys by identity.
- The state an exception leaves behind is not modelled. The driver reports
  only that the run threw, because the exception escapes `interpretar` and the
  caller never sees the environment.
- Raw ASTs are finite trees. A cyclic or very deeply nested node, which
  makes `convertirNodo` recurse until JavaScript's stack overflows with a
  `RangeError`, cannot be expressed.
- The parser and lexer that build the AST are not modelled, and neither are
  `require` and `module.exports`.
