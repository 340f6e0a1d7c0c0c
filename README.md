# Processor process simulator: a Dafny model

`simulador.py` simulates how processes move through a processor. A process
record (`Proceso`) holds:

- an id, a priority, an estimated execution time and a cycle attribute;
- a dictionary of five boolean state flags: New, Ready, Running, Blocked, Terminated;
- the core, thread and memory assigned to it.

The simulator (`SimuladorProcesador`) does three things:

- it creates records with ids 1..n, a shuffled permutation of the priorities
  1..n, and random attributes;
- on a restart it empties its list, creates new records and sorts them by
  ascending priority;
- it walks each record through its lifecycle: New, Ready, then 2 to 4 cycles
  of Running, where every cycle but the last is followed by Blocked and Ready
  again, and finally Terminated. Every transition clears all flags and sets
  exactly one.

The model has four modules:

- `Estados` (estados.dfy): the flag dictionary as a map from a five-value
  enumeration to `bool`, the all-false dictionary, the dictionary with one flag
  set, and "exactly one flag is true" in two equivalent forms.
- `CicloVida` (ciclo_vida.dfy): the two lifecycle walks as traces.
  - `PasosSimples` is the five-step chain of `Proceso.simular_proceso`.
  - `Eventos(n)` is the sequence of state changes of the cycle runner, each with
    the cycle number its status label shows.
  - `Instantaneas` gives the flag dictionary after each change.
  - The lemmas state the allowed transitions, how often each state is entered,
    where the walk ends, and the label ranges.
- `Procesos` (procesos.dfy): the record as a class. Its constant fields are set
  at construction. The flag dictionary and the resources are mutable fields.
  `Activar` is the clear-all-then-set-one transition, written as the loop over
  the keys that the runner uses.
- `Simulador` (simulador.dfy): the simulator as a class holding the record
  list. It covers record creation, the restart with its sort (a stable
  insertion sort on priorities), and the runner loop.

Randomness is not modelled: every random draw is an input.

- The priority shuffle is any sequence with the same multiset as 1..n.
- Each record's attributes come from one `Sorteo`, constrained to the ranges
  the code draws from: time 1..5, cycle 1..10, core 1..4, thread 1..8,
  memory 100..1000.
- The runner's cycle count is a parameter between 2 and 4.

Delays, clocks and the display are not part of the model.

`Proceso.simular_proceso` is never called by the program itself. It is
modelled as written: its first step sets New without clearing any flag. It
keeps the one-flag property when it starts from a freshly built record
(`PasosSimplesDesdeRegistroNuevo`), and loses it when it starts from a record
that has already terminated (`PasosSimplesSinReiniciar`).

## Model

| member | source | states |
|---|---|---|
| Estados.TodosFalsos | simulador.py:26-32 | the dictionary built for a new record has all five state keys and every flag false |
| Estados.Solo | simulador.py:272-274 | clearing every flag and setting `e` gives a dictionary with all five keys where `e` is true and every other flag is false |
| Estados.UnActivoSiiExactamenteUno | simulador.py:272-274 | a second way of stating "exactly one flag is true" after a transition: over a dictionary with all five keys, the count of true flags is 1 if and only if exactly one state's flag is true |
| Estados.SoloEsExactamenteUno | simulador.py:272-274 | after a clear-all-then-set transition exactly one flag is true, and the count of true flags is 1 |
| Procesos.Proceso.constructor | simulador.py:10-37 | a new record keeps the given id, priority, execution time and cycle attribute, has every state flag false, no core, no thread and 0 MB of memory |
| Procesos.Proceso.Activar | simulador.py:272-274 | the loop over the keys writes every flag false, then the chosen flag is set: the dictionary becomes `Solo(e)`, with exactly one flag true |
| Procesos.Proceso.SimularProceso | simulador.py:39-60 | the method's five flag dictionaries are `PasosSimples` of the starting flags, and the record ends with Terminated as its only true flag |
| CicloVida.Traspaso | simulador.py:47-60 | clearing the only true flag and setting another leaves that other flag as the only true one |
| CicloVida.PasosSimplesDesdeRegistroNuevo | simulador.py:39-60 | from a freshly built record the chain visits New, Ready, Running, Blocked, Terminated in that order, with exactly one flag true after each step |
| CicloVida.PasosSimplesTerminan | simulador.py:39-60 | from any complete dictionary the last step leaves Terminated as the only true flag, because the other four flags are all written false on the way |
| CicloVida.PasosSimplesSinReiniciar | simulador.py:44 | the first step clears nothing: on a record that has already terminated, New and Terminated are both true after it, so "exactly one flag" fails |
| CicloVida.TerminadoEsFinal | simulador.py:258-370 | no transition of the lifecycle leaves Terminated, so in a chained walk Terminated can only be the last state |
| CicloVida.InstantaneasEn | simulador.py:272-370 | after every state change of a walk, the dictionary is the entered state's flag alone |
| CicloVida.InstantaneasExactamenteUno | simulador.py:272-370 | after every state change of a walk, exactly one flag is true |
| CicloVida.InstantaneasConcat | simulador.py:305-364 | the dictionaries of two consecutive stretches of a walk are those of each stretch, one after the other |
| CicloVida.InstantaneasDelCiclo | simulador.py:305-364 | one loop iteration leaves Running alone, and unless it is the last iteration, Blocked alone and then Ready alone |
| CicloVida.CiclosLongitud | simulador.py:305-364 | the first k of n iterations make k + 2·(number of those that are not the last) state changes |
| CicloVida.VecesDelCiclo | simulador.py:305-364 | one iteration enters Running once, and enters Blocked and Ready once each only when it is not the last iteration |
| CicloVida.CiclosCuentas | simulador.py:305-364 | the first k of n iterations enter Running k times and Blocked and Ready once per non-last iteration, and never enter New or Terminated |
| CicloVida.CiclosEncadenados | simulador.py:305-364 | the iterations form a chain of allowed transitions that starts in Running and ends in Ready, or in Running once the last iteration is done |
| CicloVida.CiclosRotulos | simulador.py:313-361 | every cycle number the iteration labels show lies in its range: running 1..n of n, blocked after 1..n-1, ready for 2..n |
| CicloVida.EventosExtremos | simulador.py:258-370 | the walk for n cycles has 3n + 1 state changes: it starts with New then Ready and ends with Terminated |
| CicloVida.EventosCuentas | simulador.py:258-370 | the walk enters Running n times, Blocked n − 1 times, Ready n times, and New and Terminated once each |
| CicloVida.EventosEncadenados | simulador.py:258-370 | every consecutive pair of states in the walk is an allowed transition (New→Ready, Ready→Running, Running→Blocked, Running→Terminated, Blocked→Ready), and Terminated appears only at the end |
| CicloVida.EventosRotulos | simulador.py:258-370 | every cycle number shown by a status label of the walk lies within 1..n |
| Simulador.Rango | simulador.py:115 | the unshuffled priority list 1..n has n elements, and none when n ≤ 0 |
| Simulador.CuentaEnRango | simulador.py:115 | each of 1..n occurs exactly once in the unshuffled list, and no other value occurs |
| Simulador.PermutacionDeRango | simulador.py:115-116 | a shuffle of 1..n has n elements, each between 1 and n, no two equal: the priorities are unique |
| Simulador.Insertar | simulador.py:154 | inserting a record into a list sorted by priority keeps it sorted, adds exactly that record, and adds nothing else |
| Simulador.InsertarPrioridades | simulador.py:154 | inserting a record adds exactly its priority to the multiset of priorities |
| Simulador.OrdenarPorPrioridad | simulador.py:154 | the sorted list is in ascending priority order and is a permutation of the input records |
| Simulador.OrdenarConservaPrioridades | simulador.py:154 | sorting keeps the multiset of priorities |
| Simulador.PosicionEsPrioridad | simulador.py:154 | a priority-sorted list whose priorities are a permutation of 1..length has priority k + 1 at position k |
| Simulador.OrdenadoPorPosicion | simulador.py:115-154 | sorting records whose priorities are a shuffle of 1..n gives n records with priority k + 1 at position k |
| Simulador.OrdenarCreados | simulador.py:118-154 | sorting the newly created records keeps each record exactly as built (record with id i is the i-th creation) and puts priority k + 1 at position k |
| Simulador.CantidadAReiniciar | simulador.py:150 | the restart count is at least 1: it is 3 when the given count is zero, and equals the given count whenever that count is positive |
| Simulador.NuevoProceso | simulador.py:119-127 | a creation step yields a new record with the given id, priority, time and cycle attribute, the drawn core, thread and memory, and every flag false |
| Simulador.SimuladorProcesador.constructor | simulador.py:63-71 | a new simulator holds one record per shuffled priority; record i (from 0) is the i-th creation, with id i + 1 |
| Simulador.SimuladorProcesador.CrearProcesos | simulador.py:108-128 | the list keeps its old records and gains n new ones; the i-th new record has id i + 1, the i-th shuffled priority, the i-th attribute draw and all flags false; the new priorities in order are exactly the shuffle |
| Simulador.SimuladorProcesador.CrearYOrdenar | simulador.py:150-154 | on the emptied list, creating n records and sorting gives n records, with priority k + 1 at position k, each one new and exactly as created |
| Simulador.SimuladorProcesador.IniciarSimulacion | simulador.py:130-154 | a restart, as written, always leaves exactly 3 new records, whatever the previous count; they are sorted with priority k + 1 at position k, each as created |
| Simulador.SimuladorProcesador.IniciarSimulacionConservandoCantidad | simulador.py:130-154 | the corrected restart leaves as many records as before (3 when there were none), sorted with priority k + 1 at position k, each as created |
| Simulador.SimuladorProcesador.SimularProcesoConActualizacion | simulador.py:258-370 | the runner's state changes are exactly `Eventos(numCiclos)`; the dictionary after each change is that state's flag alone; the record ends with Terminated as its only true flag |
| Simulador.SimuladorProcesador.Admitir | simulador.py:271-296 | the runner's opening enters New and then Ready; the dictionary after each change is that state's flag alone, and the record leaves it with Ready as its only true flag |
| Simulador.SimuladorProcesador.EjecutarCiclo | simulador.py:305-364 | one iteration's state changes are Running, then Blocked and Ready for the next cycle unless it is the last; the dictionary after each change is that state's flag alone; the record ends the iteration with Ready as its only true flag, or Running after the last iteration |
| Simulador.ReinicioConCincoProcesos | simulador.py:130-154 | a simulator built with five records has three after a restart as written, and five after the corrected restart |

## Left out

- The Tk window is not modelled. This covers the labels, the progress bars and their values, the information labels, and the frame rebuilt at each restart. It is display only and does not change the flags or the record list.
- `actualizar_grafica` (the matplotlib chart) is not modelled. It only draws.
- Threads are not modelled. `iniciar_simulacion` starts one thread per record. The model runs each record's walk on its own and does not model how the walks interleave. The unused `lock_ejecucion` is left out.
- Time is not modelled. This covers every `time.sleep` and `time.time()`, the per-cycle time, the priority-scaled delay, the accumulated run time and `tiempo_ejecucion_real`. These are floating-point wall-clock quantities that do not affect the state walk.
- Random draws are inputs, not distributions: `random.shuffle`, `uniform` and `randint`. Their ranges appear as preconditions.
- The runner's `index` argument is not modelled. It only selects display widgets.
- The program's entry block is not modelled. It builds a simulator with 3 records.
- Simulador.SimuladorProcesador.constructor: only the record list is modelled, not the window it builds.
- Simulador.SimuladorProcesador.constructor: the default of 3 processes is not modelled. The constructor always takes an explicit count, together with the shuffle and the attribute draws for that count.
- Simulador.OrdenarPorPrioridad: the contract states sorted order and permutation but not stability. Priorities are distinct, so `PosicionEsPrioridad` already fixes the order completely.

## Findings

| source | as written | input that shows it | evidently intended | confidence | as-written member | corrected member |
|---|---|---|---|---|---|---|
| simulador.py:150 | the new process count is read after line 135 has emptied the list, so it is always 3 | a simulator built with 5 processes, then restarted: it ends with 3 processes | keep the previous number of processes, and use 3 only when there were none, as the comment above the call says | medium; not executed | Simulador.SimuladorProcesador.IniciarSimulacion, shown by Simulador.ReinicioConCincoProcesos | Simulador.SimuladorProcesador.IniciarSimulacionConservandoCantidad |
