/**
  The process record (`Proceso`): identity, priority, the estimated execution
  time, a cycle attribute, the five-flag state dictionary and the resources
  assigned to it.
 */
module Procesos {
  import opened Estados
  import opened CicloVida

  /** A resource that may not have been assigned yet. */
  datatype Option<T> = None | Some(value: T)

  /** The random attributes drawn for one new process. */
  datatype Sorteo = Sorteo(tiempoEjecucion: real, cicloEjecucion: int, nucleo: int, hilo: int, memoria: int)

  /** The ranges the attributes are drawn from: execution time uniform in [1, 5],
      cycle attribute in 1..10, core in 1..4, thread in 1..8, memory in 100..1000 MB. */
  predicate SorteoValido(s: Sorteo)
  {
    1.0 <= s.tiempoEjecucion <= 5.0
    && 1 <= s.cicloEjecucion <= 10
    && 1 <= s.nucleo <= 4
    && 1 <= s.hilo <= 8
    && 100 <= s.memoria <= 1000
  }

  class Proceso {
    // Set once when the record is built and never reassigned.
    const id: int
    const prioridad: int
    const tiempoEjecucion: real
    const cicloEjecucion: int

    var estados: Banderas
    var nucleo: Option<int>
    var hilo: Option<int>
    var memoriaAsignada: int

    /** The flag dictionary always holds all five keys. */
    predicate Valid()
      reads this
    {
      Completo(estados)
    }

    /** A new record: every state flag false, no core or thread, no memory. */
    constructor (id: int, prioridad: int, tiempoEjecucion: real, cicloEjecucion: int)
      ensures this.id == id && this.prioridad == prioridad
      ensures this.tiempoEjecucion == tiempoEjecucion && this.cicloEjecucion == cicloEjecucion
      ensures estados == TodosFalsos()
      ensures nucleo == None && hilo == None && memoriaAsignada == 0
      ensures Valid()
    {
      this.id := id;
      this.prioridad := prioridad;
      this.tiempoEjecucion := tiempoEjecucion;
      this.cicloEjecucion := cicloEjecucion;
      estados := TodosFalsos();
      nucleo := None;
      hilo := None;
      memoriaAsignada := 0;
    }

    /** One transition of the runner: every flag is cleared, in key order, and then
        `e` is set, so afterwards `e` is the only true flag. */
    method Activar(e: Estado)
      requires Valid()
      modifies this`estados
      ensures Valid()
      ensures estados == Solo(e)
      ensures ExactamenteUno(estados)
    {
      var i := 0;
      while i < |Orden|
        invariant 0 <= i <= |Orden|
        invariant Completo(estados)
        invariant forall j :: 0 <= j < i ==> !estados[Orden[j]]
      {
        estados := estados[Orden[i] := false];
        i := i + 1;
      }
      TodosEnOrden();
      estados := estados[e := true];
      SoloEsExactamenteUno(e);
    }

    /** The five-step chain: New, Ready, Running, Blocked, Terminated, each step
        clearing the previous flag and setting the next. The delays between steps
        are not modelled. Returns the flag dictionary after each step. */
    method SimularProceso() returns (ghost instantaneas: seq<Banderas>)
      requires Valid()
      modifies this`estados
      ensures Valid()
      ensures instantaneas == PasosSimples(old(estados))
      ensures estados == Solo(Terminado)
    {
      ghost var inicio := estados;
      estados := estados[Nuevo := true];
      instantaneas := [estados];

      estados := estados[Nuevo := false];
      estados := estados[Listo := true];
      instantaneas := instantaneas + [estados];

      estados := estados[Listo := false];
      estados := estados[Ejecutando := true];
      instantaneas := instantaneas + [estados];

      estados := estados[Ejecutando := false];
      estados := estados[Bloqueado := true];
      instantaneas := instantaneas + [estados];

      estados := estados[Bloqueado := false];
      estados := estados[Terminado := true];
      instantaneas := instantaneas + [estados];

      PasosSimplesTerminan(inicio);
    }
  }
}
