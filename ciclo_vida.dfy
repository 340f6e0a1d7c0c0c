/**
  The two lifecycle walks of a simulated process, as traces.

  `PasosSimples` is the fixed five-step chain of `Proceso.simular_proceso`;
  `Eventos(n)` is the sequence of state changes (with the cycle number each
  status label shows) of the runner that alternates `n` execution cycles with
  blocked phases. The lemmas state what these traces are: which transitions
  occur, how often each state is entered, where the walk ends, and that every
  cycle number shown lies within the cycle count.
 */
module CicloVida {
  import opened Estados

  /** One state change of the runner, with the cycle number its status label carries. */
  datatype Evento =
    | EvNuevo
    | EvListo
    | EvEjecutando(ciclo: int, total: int)  // "Ejecutando (Ciclo ciclo/total)"
    | EvBloqueado(tras: int)                // "Bloqueado (Después del ciclo tras)"
    | EvListoPara(ciclo: int)               // "Listo (Para ciclo ciclo)"
    | EvTerminado

  function EstadoDe(ev: Evento): Estado
  {
    match ev
    case EvNuevo => Nuevo
    case EvListo => Listo
    case EvEjecutando(_, _) => Ejecutando
    case EvBloqueado(_) => Bloqueado
    case EvListoPara(_) => Listo
    case EvTerminado => Terminado
  }

  /** The flag dictionary after each change of the walk: the entered state's flag alone. */
  function Instantaneas(evs: seq<Evento>): seq<Banderas>
  {
    if evs == [] then [] else Instantaneas(evs[..|evs| - 1]) + [Solo(EstadoDe(evs[|evs| - 1]))]
  }

  lemma {:induction false} InstantaneasConcat(a: seq<Evento>, b: seq<Evento>)
    ensures Instantaneas(a + b) == Instantaneas(a) + Instantaneas(b)
  {
    if b == [] {
      assert a + b == a;
    } else {
      var c := b[..|b| - 1];
      InstantaneasConcat(a, c);
      assert (a + b)[..|a + b| - 1] == a + c;
    }
  }

  /** Each dictionary of the walk has the entered state's flag as its only true flag. */
  lemma {:induction false} InstantaneasEn(evs: seq<Evento>)
    ensures |Instantaneas(evs)| == |evs|
    ensures forall i :: 0 <= i < |evs| ==> Instantaneas(evs)[i] == Solo(EstadoDe(evs[i]))
  {
    if evs != [] {
      var q := evs[..|evs| - 1];
      InstantaneasEn(q);
      var r := Instantaneas(evs);
      assert r == Instantaneas(q) + [Solo(EstadoDe(evs[|evs| - 1]))];
      forall i | 0 <= i < |evs| ensures r[i] == Solo(EstadoDe(evs[i])) {
        if i < |q| {
          assert evs[i] == q[i];
          assert r[i] == Instantaneas(q)[i];
        }
      }
    }
  }

  /** Each dictionary of the walk has exactly one flag set. */
  lemma InstantaneasExactamenteUno(evs: seq<Evento>)
    ensures forall i :: 0 <= i < |Instantaneas(evs)| ==> ExactamenteUno(Instantaneas(evs)[i])
  {
    InstantaneasEn(evs);
    forall i | 0 <= i < |evs| ensures ExactamenteUno(Instantaneas(evs)[i]) {
      SoloEsExactamenteUno(EstadoDe(evs[i]));
    }
  }

  /** How many times the walk `evs` enters state `e`. */
  function Veces(evs: seq<Evento>, e: Estado): nat
  {
    if evs == [] then 0 else Veces(evs[..|evs| - 1], e) + (if EstadoDe(evs[|evs| - 1]) == e then 1 else 0)
  }

  lemma {:induction false} VecesConcat(a: seq<Evento>, b: seq<Evento>, e: Estado)
    ensures Veces(a + b, e) == Veces(a, e) + Veces(b, e)
  {
    if b != [] {
      VecesConcat(a, b[..|b| - 1], e);
      assert (a + b)[..|a + b| - 1] == a + b[..|b| - 1];
    } else {
      assert a + b == a;
    }
  }

  // ---------------------------------------------------------------------------
  // The state machine every walk must follow
  // ---------------------------------------------------------------------------

  /** The transitions of the lifecycle: New to Ready, Ready to Running,
      Running to Blocked or to Terminated, Blocked back to Ready. */
  predicate Permitida(a: Estado, b: Estado)
  {
    match (a, b)
    case (Nuevo, Listo) => true
    case (Listo, Ejecutando) => true
    case (Ejecutando, Bloqueado) => true
    case (Ejecutando, Terminado) => true
    case (Bloqueado, Listo) => true
    case _ => false
  }

  /** Every consecutive pair of states in the walk is an allowed transition. */
  predicate Encadenada(evs: seq<Evento>)
  {
    forall i :: 0 <= i < |evs| - 1 ==> Permitida(EstadoDe(evs[i]), EstadoDe(evs[i + 1]))
  }

  lemma EncadenadaConcat(a: seq<Evento>, b: seq<Evento>)
    requires Encadenada(a) && Encadenada(b)
    requires |a| > 0 && |b| > 0 ==> Permitida(EstadoDe(a[|a| - 1]), EstadoDe(b[0]))
    ensures Encadenada(a + b)
  {
    var t := a + b;
    forall i | 0 <= i < |t| - 1 ensures Permitida(EstadoDe(t[i]), EstadoDe(t[i + 1])) {
      if i < |a| - 1 {
        assert t[i] == a[i] && t[i + 1] == a[i + 1];
      } else if i == |a| - 1 {
        assert t[i] == a[|a| - 1] && t[i + 1] == b[0];
      } else {
        assert t[i] == b[i - |a|] && t[i + 1] == b[i - |a| + 1];
      }
    }
  }

  /** No transition leaves Terminated, so in a chained walk it can only be the last state. */
  lemma {:induction false} TerminadoEsFinal(evs: seq<Evento>)
    requires Encadenada(evs)
    ensures forall i :: 0 <= i < |evs| - 1 ==> EstadoDe(evs[i]) != Terminado
  {
    forall i | 0 <= i < |evs| - 1 ensures EstadoDe(evs[i]) != Terminado {
      assert Permitida(EstadoDe(evs[i]), EstadoDe(evs[i + 1]));
    }
  }

  // ---------------------------------------------------------------------------
  // Proceso.simular_proceso: a fixed five-step chain
  // ---------------------------------------------------------------------------

  /** The flag dictionary after each of the five steps, starting from `f`: each step
      clears the previous step's flag (the first clears none) and sets the next one. */
  function PasosSimples(f: Banderas): seq<Banderas>
  {
    var f1 := f[Nuevo := true];
    var f2 := f1[Nuevo := false][Listo := true];
    var f3 := f2[Listo := false][Ejecutando := true];
    var f4 := f3[Ejecutando := false][Bloqueado := true];
    var f5 := f4[Bloqueado := false][Terminado := true];
    [f1, f2, f3, f4, f5]
  }

  /** Clearing the only true flag and setting another leaves that other flag alone. */
  lemma Traspaso(a: Estado, b: Estado)
    ensures Solo(a)[a := false][b := true] == Solo(b)
  {
    var g := Solo(a)[a := false][b := true];
    forall x: Estado ensures x in g && g[x] == Solo(b)[x] {
    }
    assert g.Keys == Solo(b).Keys;
  }

  /** From a freshly built record the chain visits New, Ready, Running, Blocked,
      Terminated in that order, with exactly one flag true after every step. */
  lemma PasosSimplesDesdeRegistroNuevo()
    ensures PasosSimples(TodosFalsos()) == [Solo(Nuevo), Solo(Listo), Solo(Ejecutando), Solo(Bloqueado), Solo(Terminado)]
    ensures forall i :: 0 <= i < 5 ==> ExactamenteUno(PasosSimples(TodosFalsos())[i])
  {
    Traspaso(Nuevo, Listo);
    Traspaso(Listo, Ejecutando);
    Traspaso(Ejecutando, Bloqueado);
    Traspaso(Bloqueado, Terminado);
    SoloEsExactamenteUno(Nuevo);
    SoloEsExactamenteUno(Listo);
    SoloEsExactamenteUno(Ejecutando);
    SoloEsExactamenteUno(Bloqueado);
    SoloEsExactamenteUno(Terminado);
  }

  /** Whatever the flags were before, the chain ends with Terminated as the only true flag,
      because every one of the other four flags is written false on the way. */
  lemma PasosSimplesTerminan(f: Banderas)
    requires Completo(f)
    ensures PasosSimples(f)[4] == Solo(Terminado)
    ensures ExactamenteUno(PasosSimples(f)[4])
  {
    SoloEsExactamenteUno(Terminado);
  }

  /** The first step does not clear any flag: on a record that already terminated,
      New and Terminated are both true after it. */
  lemma PasosSimplesSinReiniciar()
    ensures var f1 := PasosSimples(Solo(Terminado))[0]; f1[Nuevo] && f1[Terminado]
    ensures !ExactamenteUno(PasosSimples(Solo(Terminado))[0])
  {
    var f1 := PasosSimples(Solo(Terminado))[0];
    assert f1[Nuevo] && f1[Terminado];
    forall w: Estado ensures !(f1[w] && forall x: Estado :: f1[x] ==> x == w) {
      if w == Nuevo {
        assert f1[Terminado];
      } else {
        assert f1[Nuevo];
      }
    }
  }

  // ---------------------------------------------------------------------------
  // SimuladorProcesador.simular_proceso_con_actualizacion: the cycle walk
  // ---------------------------------------------------------------------------

  /** The events of loop iteration `ciclo` (counted from 0) out of `n`: Running, and
      unless it is the last iteration, Blocked followed by Ready for the next one. */
  function EventosDelCiclo(ciclo: int, n: int): seq<Evento>
  {
    [EvEjecutando(ciclo + 1, n)] + (if ciclo < n - 1 then [EvBloqueado(ciclo + 1), EvListoPara(ciclo + 2)] else [])
  }

  /** The events of the first `k` loop iterations out of `n`. */
  function Ciclos(k: nat, n: int): seq<Evento>
  {
    if k == 0 then [] else Ciclos(k - 1, n) + EventosDelCiclo(k - 1, n)
  }

  lemma CiclosSiguiente(pre: seq<Evento>, k: nat, n: int)
    ensures pre + Ciclos(k + 1, n) == pre + Ciclos(k, n) + EventosDelCiclo(k, n)
  {
  }

  /** The dictionaries one loop iteration leaves behind: Running alone, then, unless
      it is the last iteration, Blocked alone and Ready alone. */
  lemma InstantaneasDelCiclo(ciclo: int, n: int)
    ensures Instantaneas(EventosDelCiclo(ciclo, n))
         == [Solo(Ejecutando)] + (if ciclo < n - 1 then [Solo(Bloqueado), Solo(Listo)] else [])
  {
    InstantaneasEn(EventosDelCiclo(ciclo, n));
  }

  /** The dictionaries the walk's opening leaves: New alone, then Ready alone. */
  lemma InstantaneasDelInicio()
    ensures Instantaneas([EvNuevo, EvListo]) == [Solo(Nuevo), Solo(Listo)]
  {
    assert [EvNuevo, EvListo][..1] == [EvNuevo];
    assert [EvNuevo][..0] == [];
  }

  /** Closing a walk with Terminated adds Terminated's flag alone. */
  lemma InstantaneasAlCerrar(evs: seq<Evento>)
    ensures Instantaneas(evs + [EvTerminado]) == Instantaneas(evs) + [Solo(Terminado)]
  {
    assert (evs + [EvTerminado])[..|evs|] == evs;
  }

  /** The whole walk for `n` cycles: New, Ready, the cycles, Terminated. */
  function Eventos(n: nat): seq<Evento>
  {
    [EvNuevo, EvListo] + Ciclos(n, n) + [EvTerminado]
  }

  /** How many of the first `k` iterations out of `n` are not the last one: each of
      them adds one Blocked phase and one extra Ready phase. */
  function Intermedios(k: nat, n: nat): nat
  {
    if k == n && n > 0 then k - 1 else k
  }

  lemma {:induction false} CiclosLongitud(k: nat, n: nat)
    requires k <= n
    ensures |Ciclos(k, n)| == k + 2 * Intermedios(k, n)
  {
    if k > 0 {
      CiclosLongitud(k - 1, n);
    }
  }

  lemma VecesDelCiclo(ciclo: int, n: int, e: Estado)
    ensures Veces(EventosDelCiclo(ciclo, n), e)
            == if e == Ejecutando || ((e == Bloqueado || e == Listo) && ciclo < n - 1) then 1 else 0
  {
    var b := EventosDelCiclo(ciclo, n);
    if ciclo < n - 1 {
      var b1, b2 := [EvEjecutando(ciclo + 1, n)], [EvEjecutando(ciclo + 1, n), EvBloqueado(ciclo + 1)];
      assert b1[..0] == [] && b2[..1] == b1 && b[..2] == b2;
      assert Veces(b1, e) == if e == Ejecutando then 1 else 0;
      assert Veces(b2, e) == if e == Ejecutando || e == Bloqueado then 1 else 0;
    } else {
      assert b[..0] == [];
    }
  }

  lemma {:induction false} CiclosCuentas(k: nat, n: nat, e: Estado)
    requires k <= n
    ensures Veces(Ciclos(k, n), e)
            == if e == Ejecutando then k else if e == Bloqueado || e == Listo then Intermedios(k, n) else 0
  {
    if k > 0 {
      CiclosCuentas(k - 1, n, e);
      VecesConcat(Ciclos(k - 1, n), EventosDelCiclo(k - 1, n), e);
      VecesDelCiclo(k - 1, n, e);
    }
  }

  lemma {:induction false} CiclosEncadenados(k: nat, n: nat)
    requires k <= n
    ensures var c := Ciclos(k, n);
      Encadenada(c)
      && (k > 0 ==> EstadoDe(c[0]) == Ejecutando)
      && (0 < k < n ==> EstadoDe(c[|c| - 1]) == Listo)
      && (0 < k == n ==> EstadoDe(c[|c| - 1]) == Ejecutando)
  {
    if k > 0 {
      CiclosEncadenados(k - 1, n);
      var a, b := Ciclos(k - 1, n), EventosDelCiclo(k - 1, n);
      assert Encadenada(b);
      EncadenadaConcat(a, b);
    }
  }

  /** What a status label may show: the running cycle between 1 and n out of n,
      the cycle just blocked between 1 and n - 1, the next cycle between 2 and n. */
  predicate RotuloEnRango(ev: Evento, n: int)
  {
    match ev
    case EvEjecutando(c, total) => 1 <= c <= n && total == n
    case EvBloqueado(c) => 1 <= c <= n - 1
    case EvListoPara(c) => 2 <= c <= n
    case _ => true
  }

  lemma {:induction false} CiclosRotulos(k: nat, n: nat)
    requires k <= n
    ensures forall i :: 0 <= i < |Ciclos(k, n)| ==> RotuloEnRango(Ciclos(k, n)[i], n)
  {
    if k > 0 {
      CiclosRotulos(k - 1, n);
      var a, b := Ciclos(k - 1, n), EventosDelCiclo(k - 1, n);
      assert forall j :: 0 <= j < |b| ==> RotuloEnRango(b[j], n);
      forall i | 0 <= i < |a + b| ensures RotuloEnRango((a + b)[i], n) {
        if i < |a| { assert (a + b)[i] == a[i]; } else { assert (a + b)[i] == b[i - |a|]; }
      }
    }
  }

  /** The walk for `n` cycles has 3n + 1 steps, starts New then Ready and ends Terminated. */
  lemma EventosExtremos(n: nat)
    requires n >= 1
    ensures |Eventos(n)| == 3 * n + 1
    ensures Eventos(n)[0] == EvNuevo && Eventos(n)[1] == EvListo
    ensures Eventos(n)[|Eventos(n)| - 1] == EvTerminado
  {
    CiclosLongitud(n, n);
  }

  /** Running is entered n times, Blocked n - 1 times, Ready n times (once after New
      and once after each Blocked), New and Terminated once each. */
  lemma EventosCuentas(n: nat)
    requires n >= 1
    ensures var t := Eventos(n);
      Veces(t, Ejecutando) == n && Veces(t, Bloqueado) == n - 1 && Veces(t, Listo) == n
      && Veces(t, Nuevo) == 1 && Veces(t, Terminado) == 1
  {
    var c := Ciclos(n, n);
    var t0 := [EvNuevo, EvListo];
    assert t0[..1] == [EvNuevo] && t0[..1][..0] == [];
    assert [EvTerminado][..0] == [];
    forall e: Estado
      ensures Veces(Eventos(n), e) == Veces(t0, e) + Veces(c, e) + Veces([EvTerminado], e)
    {
      VecesConcat(t0, c, e);
      VecesConcat(t0 + c, [EvTerminado], e);
    }
    CiclosCuentas(n, n, Ejecutando);
    CiclosCuentas(n, n, Bloqueado);
    CiclosCuentas(n, n, Listo);
    CiclosCuentas(n, n, Nuevo);
    CiclosCuentas(n, n, Terminado);
  }

  /** Every step of the walk is an allowed transition, so Terminated is only the last state. */
  lemma EventosEncadenados(n: nat)
    requires n >= 1
    ensures Encadenada(Eventos(n))
    ensures forall i :: 0 <= i < |Eventos(n)| - 1 ==> EstadoDe(Eventos(n)[i]) != Terminado
  {
    var c := Ciclos(n, n);
    CiclosEncadenados(n, n);
    EncadenadaConcat([EvNuevo, EvListo], c);
    EncadenadaConcat([EvNuevo, EvListo] + c, [EvTerminado]);
    TerminadoEsFinal(Eventos(n));
  }

  /** Every cycle number a status label shows lies within 1..n. */
  lemma EventosRotulos(n: nat)
    ensures forall i :: 0 <= i < |Eventos(n)| ==> RotuloEnRango(Eventos(n)[i], n)
  {
    var c := Ciclos(n, n);
    CiclosRotulos(n, n);
    forall i | 0 <= i < |Eventos(n)| ensures RotuloEnRango(Eventos(n)[i], n) {
      if 2 <= i < 2 + |c| { assert Eventos(n)[i] == c[i - 2]; }
    }
  }
}
