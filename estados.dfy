/**
  The five lifecycle flags of a simulated process.

  A process record keeps a dictionary from state name to boolean; the model
  keeps it as a map from a five-value enumeration to `bool`, so that "exactly
  one flag is true" is a property to prove and not a fact of the type.
 */
module Estados {

  datatype Estado = Nuevo | Listo | Ejecutando | Bloqueado | Terminado

  /** The flag dictionary of a process. */
  type Banderas = map<Estado, bool>

  /** The keys of the dictionary in insertion order, which is the order a loop over it visits them. */
  const Orden: seq<Estado> := [Nuevo, Listo, Ejecutando, Bloqueado, Terminado]

  lemma EnOrden(e: Estado)
    ensures e in Orden
  {
    match e
    case Nuevo =>
    case Listo =>
    case Ejecutando =>
    case Bloqueado =>
    case Terminado =>
  }

  lemma TodosEnOrden()
    ensures forall e: Estado :: e in Orden
  {
    forall e: Estado ensures e in Orden {
      EnOrden(e);
    }
  }

  /** Every state has an entry: the dictionary is created with all five keys and never loses one. */
  predicate Completo(f: Banderas)
  {
    forall e: Estado :: e in f
  }

  /** The dictionary as the record's constructor builds it: every flag false. */
  function TodosFalsos(): (f: Banderas)
    ensures Completo(f)
    ensures forall e: Estado :: !f[e]
  {
    TodosEnOrden();
    map e: Estado | e in Orden :: false
  }

  /** The dictionary with `e` as its only true flag. */
  function Solo(e: Estado): (f: Banderas)
    ensures Completo(f)
    ensures f[e]
    ensures forall x: Estado :: x != e ==> !f[x]
  {
    TodosFalsos()[e := true]
  }

  /** Exactly one of the five flags is true. */
  ghost predicate ExactamenteUno(f: Banderas)
  {
    Completo(f) && exists e: Estado :: f[e] && forall x: Estado :: f[x] ==> x == e
  }

  /** How many of the flags in `ks` are true in `f`. */
  function CuentaVerdaderos(f: Banderas, ks: seq<Estado>): nat
    requires Completo(f)
  {
    if ks == [] then 0 else (if f[ks[0]] then 1 else 0) + CuentaVerdaderos(f, ks[1..])
  }

  /** The number of true flags, counted over the dictionary's keys. */
  function Activos(f: Banderas): nat
    requires Completo(f)
  {
    CuentaVerdaderos(f, Orden)
  }

  /** The count of true flags is one exactly when one flag is true and all others false. */
  lemma UnActivoSiiExactamenteUno(f: Banderas)
    requires Completo(f)
    ensures Activos(f) == 1 <==> ExactamenteUno(f)
  {
    var n, l, ej, b, t := f[Nuevo], f[Listo], f[Ejecutando], f[Bloqueado], f[Terminado];
    assert CuentaVerdaderos(f, Orden[4..]) == (if t then 1 else 0);
    assert CuentaVerdaderos(f, Orden[3..]) == (if b then 1 else 0) + (if t then 1 else 0);
    assert CuentaVerdaderos(f, Orden[2..]) == (if ej then 1 else 0) + (if b then 1 else 0) + (if t then 1 else 0);
    assert CuentaVerdaderos(f, Orden[1..]) == (if l then 1 else 0) + (if ej then 1 else 0)
                                              + (if b then 1 else 0) + (if t then 1 else 0);
    assert Activos(f) == (if n then 1 else 0) + (if l then 1 else 0) + (if ej then 1 else 0)
                         + (if b then 1 else 0) + (if t then 1 else 0);
    if Activos(f) == 1 {
      var w := if n then Nuevo else if l then Listo else if ej then Ejecutando
               else if b then Bloqueado else Terminado;
      assert f[w];
      forall x: Estado | f[x] ensures x == w {
        EnOrden(x);
      }
    }
    if ExactamenteUno(f) {
      var w :| f[w] && forall x: Estado :: f[x] ==> x == w;
      EnOrden(w);
    }
  }

  /** Setting one flag on an all-false dictionary leaves exactly one flag true. */
  lemma SoloEsExactamenteUno(e: Estado)
    ensures ExactamenteUno(Solo(e))
    ensures Activos(Solo(e)) == 1
  {
    assert Solo(e)[e];
    UnActivoSiiExactamenteUno(Solo(e));
  }
}
