/**
  The simulator's bookkeeping: creating the process records with a shuffled
  priority permutation, restarting a run (empty the list, create, sort by
  priority) and the per-process runner loop that walks one record through
  New, Ready, its execution cycles and Terminated.

  The random draws (the shuffle, the per-process attributes, the cycle count)
  are parameters whose ranges are stated as preconditions.
 */
module Simulador {
  import opened Estados
  import opened CicloVida
  import opened Procesos

  // ---------------------------------------------------------------------------
  // Priorities: 1..n and its shuffles
  // ---------------------------------------------------------------------------

  /** The priorities 1..n in order, before the shuffle; empty when n <= 0. */
  function Rango(n: int): (r: seq<int>)
    ensures |r| == if n <= 0 then 0 else n
  {
    if n <= 0 then [] else Rango(n - 1) + [n]
  }

  /** Each of 1..n occurs once in Rango(n), and nothing else occurs. */
  lemma {:induction false} CuentaEnRango(n: int, x: int)
    ensures multiset(Rango(n))[x] == if 1 <= x <= n then 1 else 0
  {
    if n > 0 {
      CuentaEnRango(n - 1, x);
      var r := Rango(n - 1);
      assert Rango(n) == r + [n];
      assert multiset(r + [n]) == multiset(r) + multiset{n};
    }
  }

  lemma RepetidoCuentaDos(q: seq<int>, i: int, j: int)
    requires 0 <= i < j < |q|
    ensures q[i] == q[j] ==> multiset(q)[q[i]] >= 2
  {
    assert q == q[..j] + q[j..];
    assert q[..j][i] == q[i] && q[j..][0] == q[j];
    assert multiset(q) == multiset(q[..j]) + multiset(q[j..]);
  }

  /** A shuffle of 1..n (a sequence with the same multiset) has n elements, each
      between 1 and n, and no two equal. */
  lemma PermutacionDeRango(q: seq<int>, n: int)
    requires multiset(q) == multiset(Rango(n))
    ensures |q| == |Rango(n)|
    ensures forall i :: 0 <= i < |q| ==> 1 <= q[i] <= n
    ensures forall i, j :: 0 <= i < j < |q| ==> q[i] != q[j]
  {
    assert |multiset(q)| == |multiset(Rango(n))|;
    forall i | 0 <= i < |q| ensures 1 <= q[i] <= n {
      assert q[i] in multiset(q);
      CuentaEnRango(n, q[i]);
    }
    forall i, j | 0 <= i < j < |q| ensures q[i] != q[j] {
      RepetidoCuentaDos(q, i, j);
      CuentaEnRango(n, q[i]);
    }
  }

  /** A strictly increasing sequence of values in 1..|q| is exactly 1, 2, ..., |q|. */
  lemma {:induction false} CrecienteEnRango(q: seq<int>)
    requires forall i, j :: 0 <= i < j < |q| ==> q[i] < q[j]
    requires forall i :: 0 <= i < |q| ==> 1 <= q[i] <= |q|
    ensures forall k :: 0 <= k < |q| ==> q[k] == k + 1
  {
    if |q| > 0 {
      var n := |q|;
      var p := q[..n - 1];
      forall i | 0 <= i < |p| ensures 1 <= p[i] <= |p| {
        assert p[i] == q[i] < q[n - 1] <= n;
      }
      CrecienteEnRango(p);
      if n > 1 {
        assert q[n - 2] == p[n - 2] == n - 1;
      }
    }
  }

  // ---------------------------------------------------------------------------
  // Sorting the records by ascending priority
  // ---------------------------------------------------------------------------

  /** The priorities of the records, in list order. */
  function Prioridades(s: seq<Proceso>): seq<int>
  {
    if s == [] then [] else [s[0].prioridad] + Prioridades(s[1..])
  }

  lemma {:induction false} PrioridadesEn(s: seq<Proceso>)
    ensures |Prioridades(s)| == |s|
    ensures forall i :: 0 <= i < |s| ==> Prioridades(s)[i] == s[i].prioridad
  {
    if s != [] {
      PrioridadesEn(s[1..]);
    }
  }

  /** Ascending priority: a lower number comes first. */
  predicate Ordenado(s: seq<Proceso>)
  {
    forall i, j :: 0 <= i < j < |s| ==> s[i].prioridad <= s[j].prioridad
  }

  /** Inserts `x` into the ordered `s` before the first record whose priority is
      not below that of `x`. */
  function Insertar(s: seq<Proceso>, x: Proceso): (r: seq<Proceso>)
    requires Ordenado(s)
    ensures Ordenado(r)
    ensures |r| == |s| + 1
    ensures forall j :: 0 <= j < |r| ==> r[j] == x || r[j] in s
    ensures multiset(r) == multiset(s) + multiset{x}
  {
    if s == [] || x.prioridad <= s[0].prioridad then
      [x] + s
    else
      var t := Insertar(s[1..], x);
      assert s == [s[0]] + s[1..];
      [s[0]] + t
  }

  /** Inserting a record adds its priority to the priorities. */
  lemma {:induction false} InsertarPrioridades(s: seq<Proceso>, x: Proceso)
    requires Ordenado(s)
    ensures multiset(Prioridades(Insertar(s, x))) == multiset(Prioridades(s)) + multiset{x.prioridad}
  {
    if s == [] || x.prioridad <= s[0].prioridad {
      assert ([x] + s)[1..] == s;
    } else {
      InsertarPrioridades(s[1..], x);
      var t := Insertar(s[1..], x);
      assert ([s[0]] + t)[1..] == t;
    }
  }

  /** The records in ascending priority order; the result holds the same records as the input. */
  function OrdenarPorPrioridad(s: seq<Proceso>): (r: seq<Proceso>)
    ensures Ordenado(r)
    ensures multiset(r) == multiset(s)
  {
    if s == [] then []
    else
      assert s == [s[0]] + s[1..];
      Insertar(OrdenarPorPrioridad(s[1..]), s[0])
  }

  /** Sorting keeps the multiset of priorities. */
  lemma {:induction false} OrdenarConservaPrioridades(s: seq<Proceso>)
    ensures multiset(Prioridades(OrdenarPorPrioridad(s))) == multiset(Prioridades(s))
  {
    if s != [] {
      OrdenarConservaPrioridades(s[1..]);
      InsertarPrioridades(OrdenarPorPrioridad(s[1..]), s[0]);
    }
  }

  /** When the priorities are a shuffle of 1..n, the sorted list has priority k + 1
      at position k. */
  lemma PosicionEsPrioridad(r: seq<Proceso>)
    requires Ordenado(r)
    requires multiset(Prioridades(r)) == multiset(Rango(|r|))
    ensures forall k :: 0 <= k < |r| ==> r[k].prioridad == k + 1
  {
    var q := Prioridades(r);
    PrioridadesEn(r);
    PermutacionDeRango(q, |r|);
    CrecienteEnRango(q);
  }

  /** Sorting records whose priorities are a shuffle of 1..n puts priority k + 1 at
      position k. */
  lemma OrdenadoPorPosicion(s: seq<Proceso>, n: int, barajado: seq<int>)
    requires Prioridades(s) == barajado
    requires multiset(barajado) == multiset(Rango(n))
    ensures |OrdenarPorPrioridad(s)| == |Rango(n)|
    ensures forall k :: 0 <= k < |OrdenarPorPrioridad(s)| ==> OrdenarPorPrioridad(s)[k].prioridad == k + 1
  {
    var r := OrdenarPorPrioridad(s);
    OrdenarConservaPrioridades(s);
    PrioridadesEn(r);
    PrioridadesEn(s);
    assert |r| == |s| by { assert |multiset(r)| == |multiset(s)|; }
    PermutacionDeRango(barajado, n);
    assert Rango(|r|) == Rango(n);
    PosicionEsPrioridad(r);
  }

  // ---------------------------------------------------------------------------
  // The simulator
  // ---------------------------------------------------------------------------

  /** The random draws for `n` new processes: a shuffle of 1..n and one in-range
      attribute draw per process. */
  predicate EntradasValidas(n: int, barajado: seq<int>, sorteos: seq<Sorteo>)
  {
    multiset(barajado) == multiset(Rango(n))
    && |sorteos| == |barajado|
    && forall i :: 0 <= i < |sorteos| ==> SorteoValido(sorteos[i])
  }

  /** `p` is the record built at step `i` (from 0) of the creation loop. */
  ghost predicate Creado(p: Proceso, i: int, barajado: seq<int>, sorteos: seq<Sorteo>)
    reads p
  {
    0 <= i < |barajado| && i < |sorteos|
    && p.id == i + 1 && p.prioridad == barajado[i]
    && p.tiempoEjecucion == sorteos[i].tiempoEjecucion && p.cicloEjecucion == sorteos[i].cicloEjecucion
    && p.nucleo == Some(sorteos[i].nucleo) && p.hilo == Some(sorteos[i].hilo)
    && p.memoriaAsignada == sorteos[i].memoria
    && p.estados == TodosFalsos()
  }

  /** Sorting the records the creation loop built keeps each one as built and puts
      priority k + 1 at position k. */
  lemma OrdenarCreados(creados: seq<Proceso>, n: int, barajado: seq<int>, sorteos: seq<Sorteo>)
    requires EntradasValidas(n, barajado, sorteos)
    requires Prioridades(creados) == barajado
    requires forall j :: 0 <= j < |creados| ==> Creado(creados[j], j, barajado, sorteos)
    ensures |OrdenarPorPrioridad(creados)| == |Rango(n)|
    ensures forall k :: 0 <= k < |OrdenarPorPrioridad(creados)| ==> OrdenarPorPrioridad(creados)[k].prioridad == k + 1
    ensures forall p :: p in OrdenarPorPrioridad(creados) ==> p in creados && Creado(p, p.id - 1, barajado, sorteos)
  {
    OrdenadoPorPosicion(creados, n, barajado);
    var r := OrdenarPorPrioridad(creados);
    forall p | p in r ensures p in creados && Creado(p, p.id - 1, barajado, sorteos) {
      assert p in multiset(creados);
    }
  }

  /** The process count a restart uses: the given count, or 3 when it is zero. */
  function CantidadAReiniciar(previa: nat): (n: nat)
    ensures n >= 1
    ensures previa == 0 ==> n == 3
    ensures previa > 0 ==> n == previa
  {
    if previa == 0 then 3 else previa
  }

  /** One record of the creation loop: built with the given id, priority, execution
      time and cycle attribute, then given its core, thread and memory. */
  method NuevoProceso(id: int, prioridad: int, s: Sorteo) returns (p: Proceso)
    ensures fresh(p)
    ensures p.id == id && p.prioridad == prioridad
    ensures p.tiempoEjecucion == s.tiempoEjecucion && p.cicloEjecucion == s.cicloEjecucion
    ensures p.nucleo == Some(s.nucleo) && p.hilo == Some(s.hilo) && p.memoriaAsignada == s.memoria
    ensures p.estados == TodosFalsos()
  {
    p := new Proceso(id, prioridad, s.tiempoEjecucion, s.cicloEjecucion);
    p.nucleo := Some(s.nucleo);
    p.hilo := Some(s.hilo);
    p.memoriaAsignada := s.memoria;
  }

  class SimuladorProcesador {
    var procesos: seq<Proceso>

    /** Builds the simulator and creates its first `numProcesos` records. */
    constructor (numProcesos: int, barajado: seq<int>, sorteos: seq<Sorteo>)
      requires EntradasValidas(numProcesos, barajado, sorteos)
      ensures |procesos| == |barajado|
      ensures forall i :: 0 <= i < |procesos| ==> Creado(procesos[i], i, barajado, sorteos) && fresh(procesos[i])
    {
      procesos := [];
      new;
      CrearProcesos(numProcesos, barajado, sorteos);
    }

    /** Appends `n` new records: the i-th (from 0) has id i + 1, the i-th shuffled
        priority, the i-th attribute draw and every state flag false. */
    method CrearProcesos(n: int, barajado: seq<int>, sorteos: seq<Sorteo>)
      requires EntradasValidas(n, barajado, sorteos)
      modifies this`procesos
      ensures |procesos| == old(|procesos|) + |Rango(n)|
      ensures procesos[..old(|procesos|)] == old(procesos)
      ensures forall i :: old(|procesos|) <= i < |procesos| ==>
        Creado(procesos[i], i - old(|procesos|), barajado, sorteos) && fresh(procesos[i])
      ensures Prioridades(procesos[old(|procesos|)..]) == barajado
    {
      PermutacionDeRango(barajado, n);
      var prioridades := barajado;
      var i := 0;
      while i < |prioridades|
        invariant 0 <= i <= |barajado|
        invariant |procesos| == old(|procesos|) + i
        invariant procesos[..old(|procesos|)] == old(procesos)
        invariant forall j :: old(|procesos|) <= j < |procesos| ==>
          Creado(procesos[j], j - old(|procesos|), barajado, sorteos) && fresh(procesos[j])
      {
        var p := NuevoProceso(i + 1, prioridades[i], sorteos[i]);
        procesos := procesos + [p];
        i := i + 1;
      }
      PrioridadesEn(procesos[old(|procesos|)..]);
      assert Prioridades(procesos[old(|procesos|)..]) == barajado;
    }

    /** Creates `n` records in the emptied list and sorts them by ascending priority. */
    method CrearYOrdenar(n: int, barajado: seq<int>, sorteos: seq<Sorteo>)
      requires procesos == []
      requires EntradasValidas(n, barajado, sorteos)
      modifies this`procesos
      ensures |procesos| == |Rango(n)|
      ensures forall k :: 0 <= k < |procesos| ==> procesos[k].prioridad == k + 1
      ensures forall p :: p in procesos ==> Creado(p, p.id - 1, barajado, sorteos) && fresh(p)
    {
      CrearProcesos(n, barajado, sorteos);
      ghost var creados := procesos;
      assert creados[0..] == creados;
      OrdenarCreados(creados, n, barajado, sorteos);
      procesos := OrdenarPorPrioridad(procesos);
    }

    /** Restarts the run as the code is written: the list is emptied first, so the
        count `len(procesos) or 3` it then evaluates is always 3, whatever the
        previous count was. */
    method IniciarSimulacion(barajado: seq<int>, sorteos: seq<Sorteo>)
      requires EntradasValidas(3, barajado, sorteos)
      modifies this`procesos
      ensures |procesos| == 3
      ensures forall k :: 0 <= k < 3 ==> procesos[k].prioridad == k + 1
      ensures forall p :: p in procesos ==> Creado(p, p.id - 1, barajado, sorteos) && fresh(p)
    {
      procesos := [];
      var n := CantidadAReiniciar(|procesos|);
      CrearYOrdenar(n, barajado, sorteos);
    }

    /** Restarts the run keeping the previous process count (3 when there was
        none): the count is taken before the list is emptied. */
    method IniciarSimulacionConservandoCantidad(barajado: seq<int>, sorteos: seq<Sorteo>)
      requires EntradasValidas(CantidadAReiniciar(|procesos|), barajado, sorteos)
      modifies this`procesos
      ensures |procesos| == CantidadAReiniciar(old(|procesos|))
      ensures forall k :: 0 <= k < |procesos| ==> procesos[k].prioridad == k + 1
      ensures forall p :: p in procesos ==> Creado(p, p.id - 1, barajado, sorteos) && fresh(p)
    {
      var n := CantidadAReiniciar(|procesos|);
      procesos := [];
      CrearYOrdenar(n, barajado, sorteos);
    }

    /** One runner: New, Ready, then `numCiclos` cycles of Running, each followed by
        Blocked and Ready unless it is the last, then Terminated. Every transition
        clears all flags and sets one. Returns the state changes with the cycle
        numbers their labels show, and the flag dictionary after each change.
        The delays, the time measurement and the display are not modelled. */
    method SimularProcesoConActualizacion(p: Proceso, numCiclos: int)
      returns (eventos: seq<Evento>, ghost instantaneas: seq<Banderas>)
      requires p.Valid()
      requires 2 <= numCiclos <= 4
      modifies p`estados
      ensures p.Valid()
      ensures eventos == Eventos(numCiclos)
      ensures instantaneas == Instantaneas(eventos)
      ensures p.estados == Solo(Terminado)
    {
      eventos, instantaneas := Admitir(p);

      var ciclo := 0;
      while ciclo < numCiclos
        invariant 0 <= ciclo <= numCiclos
        invariant p.Valid()
        invariant eventos == [EvNuevo, EvListo] + Ciclos(ciclo, numCiclos)
        invariant instantaneas == Instantaneas(eventos)
      {
        var evs; ghost var snaps;
        evs, snaps := EjecutarCiclo(p, ciclo, numCiclos);
        InstantaneasConcat(eventos, evs);
        CiclosSiguiente([EvNuevo, EvListo], ciclo, numCiclos);
        eventos := eventos + evs;
        instantaneas := instantaneas + snaps;
        ciclo := ciclo + 1;
      }

      p.Activar(Terminado);
      InstantaneasAlCerrar(eventos);
      eventos := eventos + [EvTerminado];
      instantaneas := instantaneas + [p.estados];
    }

    /** The runner's opening: New, then Ready. */
    method Admitir(p: Proceso) returns (evs: seq<Evento>, ghost snaps: seq<Banderas>)
      requires p.Valid()
      modifies p`estados
      ensures p.Valid()
      ensures evs == [EvNuevo, EvListo]
      ensures snaps == Instantaneas(evs)
      ensures p.estados == Solo(Listo)
    {
      p.Activar(Nuevo);
      snaps := [p.estados];
      p.Activar(Listo);
      evs := [EvNuevo, EvListo];
      snaps := snaps + [p.estados];
      InstantaneasDelInicio();
    }

    /** One iteration `ciclo` (from 0) of the runner's loop: Running, and unless it is
        the last of `numCiclos`, Blocked and then Ready for the next cycle. */
    method EjecutarCiclo(p: Proceso, ciclo: int, numCiclos: int)
      returns (evs: seq<Evento>, ghost snaps: seq<Banderas>)
      requires p.Valid()
      modifies p`estados
      ensures p.Valid()
      ensures evs == EventosDelCiclo(ciclo, numCiclos)
      ensures snaps == Instantaneas(evs)
      ensures p.estados == Solo(if ciclo < numCiclos - 1 then Listo else Ejecutando)
    {
      p.Activar(Ejecutando);
      evs := [EvEjecutando(ciclo + 1, numCiclos)];
      snaps := [p.estados];
      if ciclo < numCiclos - 1 {
        p.Activar(Bloqueado);
        evs := evs + [EvBloqueado(ciclo + 1)];
        snaps := snaps + [p.estados];
        p.Activar(Listo);
        evs := evs + [EvListoPara(ciclo + 2)];
        snaps := snaps + [p.estados];
      }
      InstantaneasDelCiclo(ciclo, numCiclos);
    }
  }

  /** One in-range attribute draw for each of `n` processes. */
  function SorteosMinimos(n: nat): (s: seq<Sorteo>)
    ensures |s| == n && forall i :: 0 <= i < n ==> SorteoValido(s[i])
  {
    seq(n, i => Sorteo(1.0, 1, 1, 1, 100))
  }

  /** A simulator built with five processes has three after a restart; the
      corrected restart keeps five. */
  method ReinicioConCincoProcesos() returns (antes: nat, despues: nat, corregido: nat)
    ensures antes == 5 && despues == 3 && corregido == 5
  {
    var s := new SimuladorProcesador(5, Rango(5), SorteosMinimos(5));
    antes := |s.procesos|;
    s.IniciarSimulacion(Rango(3), SorteosMinimos(3));
    despues := |s.procesos|;

    var t := new SimuladorProcesador(5, Rango(5), SorteosMinimos(5));
    t.IniciarSimulacionConservandoCantidad(Rango(5), SorteosMinimos(5));
    corregido := |t.procesos|;
  }
}
