# Fuel terminal simulation — a Dafny model

The system simulates a coastal fuel terminal as a discrete-event simulation.
Ships arrive at exponentially distributed intervals. Each brings 15000, 20000
or 25000 tonnes, chosen by a random draw. A ship pumps its load into the first
free coastal tank. If no tank is free, the ship waits in a first-come
first-served queue. When pumping ends, the ship is destroyed, its load counts
as discharged, and the tank starts discharging to the refinery. When the tank
is empty it is free again and takes the first ship in the queue. The operator
types the two lists of random digits (arrivals and loads) and can give initial
tank conditions. Each call to `avanzarSimulacion` processes one event and
returns one row of the state-vector table.

The model has these parts:

- `Motor` (motor.dfy) holds the engine state `Estado`, the fields of the
  module-level `simulacion` record, as a value. It also holds one step of the
  event loop, `Paso`, initialisation, `Inicializado`, and loading of the draw
  lists, `ConNumerosRandom`, all written as functions.
- `Simulacion.Simulacion` (simulacion.dfy) is a class with the same fields,
  kept as sequences. Its methods sort, shift and push the event list, rotate
  the draw lists, and write tanks and ships back into their lists, as the
  source does. Each method is proved to leave the object in exactly the state
  the matching `Motor` function computes.
- `Eventos` is the stable sort of the pending events and the removal of the
  earliest one.
- `Entidades` holds ships, tanks, the rate constants, and the `find` and
  `filter` scans.
- `Invariantes` is the invariant of reachable states.
- `Pasos`, `PasosLlegada` and `PasosTanques` prove that every step keeps the
  invariant and never moves the clock back.
- `Filas` states what each kind of event does and what the returned row
  reports.
- `Inicio` proves that initialisation builds a valid state.
- `SimulationTypes` holds the configuration defaults and
  `generateInitialTanks`.
- `Distribuciones` holds `uniforme` and `limites`.
- `SimulationConfig` and `Digits` model the operator's input parser
  `parseRandomNumbers` and its round trip with `join(" ")`.

Times and loads are `real`. The sampler `exponencial` is a function value
handed to the class constructor and to `Paso`. The model assumes only that it
is not negative for a draw in [0, 1) and a positive mean
(`Distribuciones.ExponencialNoNegativa`). A tank's reference to the ship
pumping into it is modelled as that ship's position in the ship list; the list
only grows, so the position never changes.

The source's behaviour is modelled as written:

- The ten per-event columns of a row are locals set to 0 at the start of every
  step (lines 187-196). Only the last two draws carry over between steps.
- With no event pending, a step only increments the event counter (lines 178
  and 186-198). It raises no error.
- An end of pumping or of discharge that names no existing tank is logged and
  otherwise ignored (lines 301-306 and 339-344).
- The configured tank `id` is not used. Tanks are numbered by list position
  (line 500).
- A tank configured as loading or unloading whose `completionTime` is missing
  or 0 gets no pending event. Such a tank never leaves that state, so the
  validity lemmas of `Inicio` require every busy configured tank to have a
  positive completion time (`Inicio.TanquesValidos`).

All source paths below are relative to the repository root.

## Model

| member | source | states |
|---|---|---|
| Simulacion.Simulacion.constructor | src/services/simulacion.ts:107-125 | The new engine is in the initial state: clock 0, no events, ships, tanks or draws, zeroed statistics. |
| Simulacion.Simulacion.EstablecerNumerosRandom | src/services/simulacion.ts:561-567 | Only the two draw lists change, and they become the given lists. |
| Simulacion.Simulacion.Inicializar | src/services/simulacion.ts:481-558 | The fields end up as `Motor.Inicializado` of the old fields: reset, tanks from the conditions or free tanks, first arrival pushed. |
| Simulacion.Simulacion.Reiniciar | src/services/simulacion.ts:486-495 | Every field except the draw lists is reset, as `Motor.Reiniciado` says. |
| Simulacion.Simulacion.ReiniciarReloj | src/services/simulacion.ts:486-495 | Only the clock, the pending events, the counter and the last event type are reset. |
| Simulacion.Simulacion.ReiniciarEntidades | src/services/simulacion.ts:486-495 | Only the ship list, the tank list and the last created ships are emptied. |
| Simulacion.Simulacion.ReiniciarEstadisticas | src/services/simulacion.ts:486-495 | Only the discharged total, the longest queue and the last draws are zeroed. |
| Simulacion.Simulacion.AgregarTanque | src/services/simulacion.ts:500-543 | One configured tank is appended, with its stand-in ship and its end event when the configuration asks for them (`Motor.AgregarTanque`). |
| Simulacion.Simulacion.AgregarTanques | src/services/simulacion.ts:499-544 | The configured tanks are appended in list order (`Motor.AgregarTanques`). |
| Simulacion.Simulacion.CrearTanquesLibres | src/services/simulacion.ts:546-550 | Into an empty tank list, `numeroTanques` (none if not positive) free, empty tanks numbered from 1; nothing else changes. |
| Simulacion.Simulacion.Sortear | src/services/simulacion.ts:208-216 | Returns the head of each draw list; each list loses its head and gets it back at the tail; the draws are recorded as the last ones. |
| Simulacion.Simulacion.Agendar | src/services/simulacion.ts:230 | One event is appended to the pending list and nothing else changes. |
| Simulacion.Simulacion.AgregarBuque | src/services/simulacion.ts:287-288 | The new ship is appended and becomes the only last-created ship. |
| Simulacion.Simulacion.ReemplazarTanque | src/services/simulacion.ts:251-253 | Only tank `k` changes, to the given tank; this is how updates through the `find` alias reach the list. |
| Simulacion.Simulacion.ProcesarLlegada | src/services/simulacion.ts:207-291 | State and row locals are exactly `Motor.ProcesarLlegada` of the old state. |
| Simulacion.Simulacion.ProcesarFinBombeo | src/services/simulacion.ts:308-326 | State and row locals are exactly `Motor.ProcesarFinBombeo` of the old state. |
| Simulacion.Simulacion.ProcesarFinDescarga | src/services/simulacion.ts:346-380 | State and row locals are exactly `Motor.ProcesarFinDescarga` of the old state. |
| Simulacion.Simulacion.Procesar | src/services/simulacion.ts:206-384 | The switch on the event type computes `Motor.Procesar`: an unknown tank changes nothing. |
| Simulacion.Simulacion.OrdenarEventos | src/services/simulacion.ts:162 | The in-place sort leaves the pending list as `Eventos.Ordenar` of it; nothing else changes. |
| Simulacion.Simulacion.Desencolar | src/services/simulacion.ts:185 | Returns the old head of the pending list, which loses exactly that event. |
| Simulacion.Simulacion.TomarEvento | src/services/simulacion.ts:182-200 | The taken event and the remaining list are `Eventos.Extraer` of the old list; the clock and last event type follow the event; the counter is unchanged. |
| Simulacion.Simulacion.Avanzar | src/services/simulacion.ts:177-438 | New state and returned row are exactly `Motor.Paso` of the old state. |
| Motor.PuedeProcesarTomado | src/services/simulacion.ts:184-200 | Once the event is taken and the clock moved, the step's demands on references, draw lists and the loading ship still hold. |
| Motor.TanquesLibres | src/services/simulacion.ts:547-549 | Exactly `n` tanks, tank `i` with id `i + 1`, free, empty and without a ship. |
| Entidades.CrearBuque | src/services/simulacion.ts:127-138 | Appending the new ship keeps ship ids 1..N in order; its id differs from every existing ship's. |
| Entidades.CrearTanque | src/services/simulacion.ts:140-154 | Appending the new tank keeps tank ids 1..N in order; its id differs from every existing tank's. |
| Entidades.CargaSegunRnd | src/services/simulacion.ts:232-238 | The load is 15000 exactly when the draw is at most 1/3, 20000 exactly when it is above 1/3 and at most 2/3, and 25000 exactly when it is above 2/3. |
| Entidades.CargaSegunRndMonotona | src/services/simulacion.ts:232-238 | A larger draw never gives a smaller load; the draws 1/3 and 2/3 give 15000 and 20000. |
| Entidades.PrimerLibre | src/services/simulacion.ts:242-244 | The position of the first free tank, with no free tank before it; `None` exactly when no tank is free. |
| Entidades.BuscarTanque | src/services/simulacion.ts:297-299 | The first tank with the event's id; `None` exactly when no tank has it (and for an event without an id). |
| Entidades.BuscarTanquePorId | src/services/simulacion.ts:335-337 | With ids 1..N, id `n` is found at position `n - 1`, and an id outside 1..N finds nothing. |
| Entidades.PrimerEnCola | src/services/simulacion.ts:349-351 | The first queued ship in creation order, with none before it; `None` exactly when none waits. |
| Entidades.CuentaEnCola | src/services/simulacion.ts:275-277 | At most the number of ships, and 0 exactly when no ship waits. |
| Eventos.Insertar | src/services/simulacion.ts:184 | One insertion step of the stable sort keeps every event and adds the new one. |
| Eventos.InsertarOrdenado | src/services/simulacion.ts:184 | Inserting into a sorted list gives a sorted list. |
| Eventos.Ordenar | src/services/simulacion.ts:184 | The sorted list is ordered by time and is a permutation of the input. |
| Eventos.OrdenarOrdenado | src/services/simulacion.ts:184 | Sorting an already sorted list changes nothing, so the dump's extra sort (line 162) does not change the order. |
| Eventos.ConTiempoInsertar | src/services/simulacion.ts:184 | Insertion puts the new event before every event of the same time, and keeps the order of those events. |
| Eventos.OrdenarEstable | src/services/simulacion.ts:184 | The sort is stable: the events of any one time keep their list order. |
| Eventos.PrimerMinimo | src/services/simulacion.ts:184-185 | The position of the first event with the smallest time: every earlier event is later in time, and no event is earlier. |
| Eventos.OrdenarCabeza | src/services/simulacion.ts:184-185 | The head of the sorted list is the first event with the smallest time. |
| Eventos.Extraer | src/services/simulacion.ts:184-185 | Sort then shift gives the first earliest event and the rest, sorted, with no event lost and none earlier than the one taken. |
| Eventos.CuentaExtraer | src/services/simulacion.ts:184-185 | Taking the head removes exactly it from every count of pending events by type and tank. |
| Eventos.CuentaOrdenar | src/services/simulacion.ts:184 | Sorting keeps every count of pending events by type and tank. |
| Eventos.PrimerEventoDe | src/services/simulacion.ts:461-467 | The first pending event naming the tank, none before it; `None` exactly when no event names it. |
| Pasos.ValidoPuedeAvanzar | src/services/simulacion.ts:184-311 | In a valid state with valid draws an event is always pending, and the step's demands (draws to shift, a ship behind `buqueQueLoCarga!`) hold. |
| Pasos.PasoConserva | src/services/simulacion.ts:177-438 | Every step from a valid state with valid draws gives a valid state with valid draws. |
| Pasos.TomadoConserva | src/services/simulacion.ts:184-200 | Taking the earliest event keeps the invariant, together with that event. |
| Pasos.ProcesarConserva | src/services/simulacion.ts:206-384 | Processing an event taken from a valid state gives a valid state with valid draws. |
| Pasos.PasoTomaElPrimero | src/services/simulacion.ts:178-200 | The new clock is no later than any pending event; it is the time and type of the first earliest event in list order; the counter grows by one. |
| Pasos.PasoSinEventos | src/services/simulacion.ts:178-198 | With no event pending, the step only increments the counter, and the row shows the new count and the old event type. |
| Pasos.RelojNoRetrocede | src/services/simulacion.ts:184-200 | In a valid state the clock never moves back. |
| Pasos.ProcesarEstadisticas | src/services/simulacion.ts:278-281 | Processing an event never lowers the discharged total or the longest queue. |
| Pasos.EstadisticasNoDecrecen | src/services/simulacion.ts:278-315 | Over a step, the total and the longest queue never decrease, and the total grows by exactly the load of the ships destroyed. |
| PasosLlegada.LlegadaEstructura | src/services/simulacion.ts:242-288 | An arrival keeps ids, loads, tank-ship links, "no queue while a tank is free", the queue bound and the discharged sum. |
| PasosLlegada.LlegadaAgenda | src/services/simulacion.ts:226-270 | After an arrival the pending events are the old ones plus the next arrival and, with a free tank, its end of pumping. |
| PasosLlegada.LlegadaEventos | src/services/simulacion.ts:226-270 | After an arrival there is still exactly one pending arrival, each busy tank has its one end pending, and nothing pending is in the past. |
| PasosLlegada.LlegadaConserva | src/services/simulacion.ts:207-291 | An arrival keeps the invariant and keeps the draw lists valid. |
| PasosTanques.TanqueDelEvento | src/services/simulacion.ts:297-311 | In a valid state the tank a pending tank event names exists, is loading for an end of pumping and discharging for an end of discharge. |
| PasosTanques.FinBombeoEstructura | src/services/simulacion.ts:308-326 | A loading tank has its ship, and the end of pumping keeps the structural invariant. |
| PasosTanques.FinBombeoEventos | src/services/simulacion.ts:319-324 | After the end of pumping the tank has its end of discharge pending and the agenda stays exact. |
| PasosTanques.FinBombeoConserva | src/services/simulacion.ts:293-329 | The end of pumping finds its tank and keeps the invariant. |
| PasosTanques.ColaSinLibres | src/services/simulacion.ts:242-285 | While a ship waits, no tank is free. |
| PasosTanques.FinDescargaEstructura | src/services/simulacion.ts:346-375 | The end of discharge keeps the structural invariant, whether or not a ship waits. |
| PasosTanques.FinDescargaEventos | src/services/simulacion.ts:366-375 | After the end of discharge the agenda stays exact: a new end of pumping exactly when a queued ship took the tank. |
| PasosTanques.FinDescargaConserva | src/services/simulacion.ts:331-383 | The end of discharge finds its tank and keeps the invariant. |
| Filas.FilaDelEstado | src/services/simulacion.ts:392-435 | Apart from the step's locals, every column of the row is read off the state after the step. |
| Filas.HoraFinTanqueValida | src/services/simulacion.ts:461-467 | The final time is the clock for a free tank, otherwise the time of its one pending end (of pumping if loading, of discharge if discharging), and never in the past. |
| Filas.EtiquetaValida | src/services/simulacion.ts:431-433 | The loading-ship label is empty exactly when the tank is not loading, and otherwise `B` followed by the decimal id of the loading ship pumping into it. |
| Filas.FilaTanques | src/services/simulacion.ts:416-434 | One entry per tank in both tank columns, with the tank's number, load and state, a final time not before the clock, and a label only for loading tanks. |
| Filas.LlegadaEfecto | src/services/simulacion.ts:207-291 | The arrival branch on its own: both draw lists rotate by one and their first draws are shown; the clock, the event number, the total and the earlier ships are unchanged; the next arrival is appended to the pending list; with a free tank the ship goes into the first one, its end of pumping is appended after the next arrival, the other tanks and the queue maximum are unchanged; with none the ship is queued, the tanks and the rest of the pending list are unchanged, and the queue maximum becomes the larger of the old maximum and the new queue length. |
| Filas.PasoLlegada | src/services/simulacion.ts:207-409 | An arrival moves the clock to its time, rotates both draw lists and shows their first draws, appends ship N+1 with the load the draw picks, and leaves the total unchanged. The pending list is the other events plus the next arrival at clock plus drawn interval, plus, with a free tank, that tank's end of pumping. With a free tank the ship pumps into the first one and the queue maximum is unchanged; with none the ship is queued, the tanks are unchanged, and the queue maximum becomes the larger of the old maximum and the new queue length. |
| Filas.FinBombeoEfecto | src/services/simulacion.ts:308-326 | The end-of-pumping branch on its own: the tank's end of discharge is appended to the pending list; its ship is destroyed and the other ships are unchanged; the tank keeps its id and configured load; the draws, shown draws, event number, event type, queue maximum and created ships are unchanged. |
| Filas.PasoFinBombeo | src/services/simulacion.ts:293-413 | The tank's load is added to the total and shown as remaining; the pending list is the other events plus its end of discharge at clock plus load / 4000; the tank discharges without a ship and keeps its id; its ship is destroyed and the other ships and tanks are unchanged; the draws, queue maximum and created ships are unchanged; the other locals are 0. |
| Filas.FinDescargaEfecto | src/services/simulacion.ts:346-380 | The end-of-discharge branch on its own: the total, the queue maximum, the draws, the shown draws, the event number, the event type and the created ships are unchanged; with no queue the pending list is unchanged; otherwise it gains the tank's end of pumping at clock plus the pumping time of the first queued ship's load. |
| Filas.PasoFinDescarga | src/services/simulacion.ts:331-383 | The total, queue maximum, draws and created ships are unchanged. With no queue the tank becomes free and empty and the pending list is the other events; otherwise the first queued ship starts pumping into it with its load, and the pending list is the other events plus its end of pumping. |
| Filas.PasoSinEfecto | src/services/simulacion.ts:206-344 | An event naming no tank, or of a type the switch ignores, changes no ship, tank, statistic or draw; one event leaves the list; the locals are 0. |
| Inicio.AgregarTanquesConstruye | src/services/simulacion.ts:499-544 | The configured tanks are built in order with ids from 1, stand-in ships and exactly the end events their configurations ask for. |
| Inicio.InicializadoSinCondiciones | src/services/simulacion.ts:486-557 | Without conditions: `numeroTanques` free, empty tanks from 1, no ship, only the first arrival at 0 pending, zeroed statistics, draws untouched. |
| Inicio.InicializadoConCondiciones | src/services/simulacion.ts:486-557 | With conditions: one tank per configuration in order, stand-in loading ships, the configured end events, and the first arrival last, at `firstShipArrival`. |
| Inicio.InicializadoValido | src/services/simulacion.ts:481-558 | Initialisation without conditions, or from sensible ones, gives a valid state, and keeps valid draws valid. |
| Distribuciones.Uniforme | src/services/distribuciones.ts:1-3 | For a draw in [0, 1] and `min <= max` the value lies in [min, max]. |
| Distribuciones.UniformeExtremos | src/services/distribuciones.ts:1-3 | Draw 0 gives `min` and draw 1 gives `max`. |
| Distribuciones.UniformeMonotona | src/services/distribuciones.ts:1-3 | A larger draw never gives a smaller value. |
| Distribuciones.Limites | src/services/distribuciones.ts:15-17 | For `min <= max` the result lies in [min, max]; a value already inside is returned unchanged. |
| Distribuciones.LimitesIdempotente | src/services/distribuciones.ts:15-17 | Clamping twice is clamping once. |
| SimulationTypes.GenerateInitialTanks | src/types/simulation.ts:85-136 | Exactly `numberOfTanks` tanks (none if not positive), tank `k` being the per-index rule for id `k + 1`. |
| SimulationTypes.InitialTankRules | src/types/simulation.ts:89-131 | Tanks 1, 2 and above 5 are free and empty; tank 3 unloads 70000 by 8, tank 4 loads 25000 by 12, tank 5 loads 45000 by 3.5. |
| SimulationTypes.InitialTankConsistent | src/types/simulation.ts:88-133 | Load plus free space is the 70000 t capacity, and a completion time (positive) is present exactly when the tank is not free. |
| SimulationTypes.DefaultTanksGenerated | src/types/simulation.ts:55-80 | For the default five tanks the generator gives exactly the default initial conditions. |
| SimulationConfig.Split | src/components/SimulationConfig.tsx:139 | At least one piece, and no piece holds a separator; with `SplitAfterRun` and `SplitAfterWord` it is pinned down on every text. |
| SimulationConfig.SplitAfterRun | src/components/SimulationConfig.tsx:139 | A non-empty run of separators followed by a word or the end gives an empty piece, then the pieces of the rest: the whole run is one boundary. |
| SimulationConfig.SplitAfterWord | src/components/SimulationConfig.tsx:139 | Characters without separators in front of a text join its first piece and leave the other pieces alone. |
| SimulationConfig.SplitLosesOnlySeparators | src/components/SimulationConfig.tsx:139 | The pieces put back together are exactly the non-separator characters, in order. |
| SimulationConfig.Trim | src/components/SimulationConfig.tsx:140 | The result is a slice of the input with only white space before and after it, and it neither starts nor ends with white space; text without white space is unchanged. |
| SimulationConfig.DropEmpty | src/components/SimulationConfig.tsx:141 | Only non-empty pieces of the input remain, every non-empty piece remains, and nothing is dropped when none is empty. |
| SimulationConfig.DropEmptyConcat | src/components/SimulationConfig.tsx:141 | Dropping the empty pieces of two lists one after the other drops them from each list, so every non-empty piece is kept in its order. |
| SimulationConfig.TokensShape | src/components/SimulationConfig.tsx:139-141 | Trimming changes no piece; every token is non-empty and holds no separator. |
| SimulationConfig.TokensOfSpaced | src/components/SimulationConfig.tsx:139-141 | A text made of a run of separators, then non-empty words without separators each followed by a run of separators (all but the last non-empty), has exactly those words as tokens. |
| SimulationConfig.TextIsSpaced | src/components/SimulationConfig.tsx:139-141 | Every text is such a layout, with its maximal runs of non-separators as the words. |
| SimulationConfig.TokensAreTextWords | src/components/SimulationConfig.tsx:139-141 | The tokens of every text are its maximal runs of characters other than white space and commas, in order. |
| SimulationConfig.ParseInt | src/components/SimulationConfig.tsx:142 | Empty text, or text whose first non-blank is not a sign or a digit, reads as `NaN`. |
| SimulationConfig.ParseIntDecimal | src/components/SimulationConfig.tsx:142 | A non-empty decimal digit string reads as its decimal value. |
| SimulationConfig.ParseIntDecimalPrefix | src/components/SimulationConfig.tsx:142 | After white space and at most one sign, a magnitude without a `0x` prefix reads as its longest decimal digit prefix, negated after a minus, or as `NaN` when there is no digit. |
| SimulationConfig.ParseIntHexPrefix | src/components/SimulationConfig.tsx:142 | After white space and at most one sign, a `0x`/`0X` prefix reads the longest hexadecimal digit prefix after it, negated after a minus, or `NaN` when no hexadecimal digit follows. |
| SimulationConfig.KeepInRange | src/components/SimulationConfig.tsx:143 | At most one number per parse result, each in 0..99. |
| SimulationConfig.ParseRandomNumbers | src/components/SimulationConfig.tsx:137-144 | Every number is in 0..99 and there are at most as many numbers as tokens. |
| SimulationConfig.ParseRandomNumbersFollowsTokens | src/components/SimulationConfig.tsx:138-143 | The numbers come from strictly increasing token positions, each being what `parseInt` reads there; every other token reads as `NaN` or out of range. |
| SimulationConfig.SplitJoinWords | src/components/SimulationConfig.tsx:686 | Splitting non-empty separator-free words joined by single spaces gives the words back. |
| SimulationConfig.TokensOfJoin | src/components/SimulationConfig.tsx:137-144 | The tokens of a joined list of non-negative numbers are the numbers' decimal texts. |
| SimulationConfig.ParseNumberText | src/components/SimulationConfig.tsx:142 | `parseInt(String(n))` is `n` for a non-negative `n`. |
| SimulationConfig.ParseJoinRoundTrip | src/components/SimulationConfig.tsx:686-691 | For any list of integers in 0..99, parsing what the text area shows with `join(" ")` gives the list back. |
| Digits.ValueOfShow | src/components/SimulationConfig.tsx:738 | Reading back the decimal text of a number gives the number. |

## Left out

- Logging with `console.log` and the debug dump `mostrarEventosProgramados` (lines 157-175) are left out. The dump's extra sort is kept, in `Simulacion.Simulacion.TomarEvento`.
- `exponencial` and `normal` are not computed, because they are floating-point transcendental functions. `exponencial` is an uninterpreted function value assumed not negative (`Distribuciones.ExponencialNoNegativa`). `normal` is never used by the engine.
- Times and loads are exact `real` numbers, so IEEE rounding, `NaN` and `Infinity` are not modelled.
- An empty draw list makes `shift()` return `undefined`, which gives `NaN` times in the source. The model instead requires non-empty draw lists at an arrival (`Motor.PuedeProcesar`).
- The `buqueQueLoCarga!` at line 311 crashes on a loading tank without a ship. The model requires the ship to be present (line 311 in `Motor.PuedeProcesar`), and `Pasos.ValidoPuedeAvanzar` proves that this always holds in a valid state.
- `traducirTipoEvento` and `traducirEstadoTanque` (lines 441-459) are display lookups. The row keeps the event type and the tank state as enumerations.
- The tank capacity `VOLUMEN_TANQUE` and the `capacidad` field are never checked by the source, and are left out.
- The event types `inicioSimulacion` and `finSimulacion` are never scheduled. They are handled only as events the switch ignores (`Filas.PasoSinEfecto`).
- JavaScript's dynamic values are not modelled:
  - the `|| 0` fallbacks on a load or the first arrival time (lines 510-511 and 553) change only `NaN` or `undefined`, so on a `real` they are the value itself;
  - `numeroTanques` is a plain `int` argument, without the default value 5 of line 482;
  - `parseInt` is modelled for the strings the tokeniser can produce, as ECMAScript specifies it (sign, `0x` prefix, longest digit prefix); negative zero is read as 0.
- Ship objects are modelled as positions in the ship list, and tank and ship aliasing through `find` as writing an updated copy back into the list.
- `ultimosBuquesCreados` holds a copy of the new ship, while the source stores the same object that it pushes onto the ship list (src/services/simulacion.ts:287-288). The engine never reads the field afterwards, so only later changes to that ship, such as its state, are not mirrored there.
- The React and Zod form code of src/components/SimulationConfig.tsx, apart from `parseRandomNumbers` and the `join(" ")` display, is not part of this model. Neither are src/components/StateVectorTable.tsx or src/App.tsx.
- Inicio.InicializadoValido: requires non-negative configured loads and a positive completion time for every busy configured tank. A loading or unloading tank configured without one keeps its state forever with nothing pending, and is not covered.
- SimulationConfig.ParseRandomNumbersFollowsTokens: states the order and origin of the numbers token by token, not as a single equation with `filter`.
