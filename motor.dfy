/**
 * The state of the fuel-terminal simulation of src/services/simulacion.ts and
 * one step of its event loop (`avanzarSimulacion`), written as functions on
 * values. The class in simulacion.dfy updates its fields the way the source
 * does and is proved to compute exactly these functions.
 */
module Motor {
  import opened Wrappers
  import opened Eventos
  import opened Entidades
  import Digits
  import SimulationTypes
  import Distribuciones

  /** Lines 86-105: clock, pending events, ships, tanks, draw lists and statistics. */
  datatype Estado = Estado(
    reloj: real,
    proximosEventos: seq<Evento>,
    buques: seq<Buque>,
    tanques: seq<Tanque>,
    rndLlegadas: seq<real>,
    rndCargas: seq<real>,
    numeroEvento: nat,
    totalToneladasDescargadas: real,
    colaMaxima: nat,
    ultimoEventoTipo: TipoEvento,
    ultimoRndLlegada: real,
    ultimoRndCarga: real,
    ultimosBuquesCreados: seq<Buque>)

  /** Lines 107-125. */
  const ESTADO_INICIAL: Estado :=
    Estado(0.0, [], [], [], [], [], 0, 0.0, 0, InicioSimulacion, 0.0, 0.0, [])

  // ---------------------------------------------------------------------------
  // The row of the state-vector table (lines 43-84)
  // ---------------------------------------------------------------------------

  /** The ten locals of lines 187-196, which each step starts at zero. */
  datatype Transitorios = Transitorios(
    tiempoLlegadaCalculado: real,
    proximaLlegada: real,
    carga: real,
    tiempoBombeo: real,
    tiempoBombeoReal: real,
    horaFinalBombeo: real,
    cargaRestante: real,
    horaFin: real,
    cargaRestanteDescarga: real,
    horaFinalDescarga: real)

  const CEROS: Transitorios := Transitorios(0.0, 0.0, 0.0, 0.0, 0.0, 0.0, 0.0, 0.0, 0.0, 0.0)

  datatype HoraFinal = HoraFinal(tankNumber: nat, remainingLoad: real, finalTime: real)

  datatype TanqueCostero = TanqueCostero(tankNumber: nat, status: EstadoTanque, remainingLoad: real, loadingShip: string)

  datatype FilaTabla = FilaTabla(
    eventNumber: nat,
    clockTime: real,
    eventType: TipoEvento,
    arrivalRnd: real,
    arrivalTime: real,
    nextArrival: real,
    loadRnd: real,
    loadTonnage: real,
    pumpTime: real,
    realPumpTime: real,
    finalPumpTime: real,
    remainingLoad: real,
    finalTime: real,
    dischargeRemainingLoad: real,
    finalDischargeTime: real,
    tankFinalTimes: seq<HoraFinal>,
    totalDischargedTonnage: real,
    maxQueueLength: nat,
    coastalTanks: seq<TanqueCostero>)

  /** Every ship a tank refers to is in the ship list. */
  predicate Referencias(e: Estado)
  {
    forall i :: 0 <= i < |e.tanques| && e.tanques[i].buqueQueLoCarga.Some? ==>
      e.tanques[i].buqueQueLoCarga.value < |e.buques|
  }

  /** `obtenerHoraFinTanque`: the time of the first listed event naming the tank, or the clock. */
  function HoraFinTanque(eventos: seq<Evento>, reloj: real, id: nat): real
  {
    match PrimerEventoDe(eventos, id)
    case Some(k) => eventos[k].tiempo
    case None => reloj
  }

  /** The `B${id}` label of the ship loading a tank, or the empty string. */
  function EtiquetaBuque(buques: seq<Buque>, ref: Option<nat>): string
  {
    match ref
    case Some(j) => if j < |buques| then "B" + Digits.Show(buques[j].id) else ""
    case None => ""
  }

  function HorasFinales(e: Estado): seq<HoraFinal>
  {
    seq(|e.tanques|, i requires 0 <= i < |e.tanques| =>
      HoraFinal(e.tanques[i].id, e.tanques[i].cargaActual,
                HoraFinTanque(e.proximosEventos, e.reloj, e.tanques[i].id)))
  }

  function TanquesCosteros(e: Estado): seq<TanqueCostero>
  {
    seq(|e.tanques|, i requires 0 <= i < |e.tanques| =>
      TanqueCostero(e.tanques[i].id, e.tanques[i].estado, e.tanques[i].cargaActual,
                    EtiquetaBuque(e.buques, e.tanques[i].buqueQueLoCarga)))
  }

  /** Lines 392-435: the row is read off the state after the step and the step's locals. */
  function ArmarFila(e: Estado, tr: Transitorios): FilaTabla
  {
    FilaTabla(
      e.numeroEvento, e.reloj, e.ultimoEventoTipo,
      e.ultimoRndLlegada, tr.tiempoLlegadaCalculado, tr.proximaLlegada,
      e.ultimoRndCarga, tr.carga, tr.tiempoBombeo, tr.tiempoBombeoReal, tr.horaFinalBombeo,
      tr.cargaRestante, tr.horaFin,
      tr.cargaRestanteDescarga, tr.horaFinalDescarga,
      HorasFinales(e),
      e.totalToneladasDescargadas, e.colaMaxima,
      TanquesCosteros(e))
  }

  // ---------------------------------------------------------------------------
  // One step
  // ---------------------------------------------------------------------------

  /** Hours of pumping a load into a tank, pump start-up included (lines 255-256, 362-364). */
  function TiempoBombeoReal(carga: real): real
  {
    carga / TASA_BOMBEO + TIEMPO_ENCENDIDO_BOMBA
  }

  /** The time to the next arrival drawn with `rnd` (line 218). */
  function TiempoEntreLlegadas(exponencial: (real, real) -> real, rnd: real): real
  {
    exponencial(rnd, TASA_LLEGADA_BUQUES)
  }

  /**
   * Lines 207-291, a ship arrives: both draw lists rotate by one, the next
   * arrival is scheduled, and the new ship takes the first free tank or joins
   * the queue.
   */
  function ProcesarLlegada(e: Estado, exponencial: (real, real) -> real): (Estado, Transitorios)
    requires |e.rndLlegadas| > 0 && |e.rndCargas| > 0
  {
    var rndLlegada := e.rndLlegadas[0];
    var rndCarga := e.rndCargas[0];
    var tiempoLlegada := exponencial(rndLlegada, TASA_LLEGADA_BUQUES);
    var proximaLlegada := e.reloj + tiempoLlegada;
    var eventos := e.proximosEventos + [Evento(LlegadaBuque, proximaLlegada, None)];
    var carga := CargaSegunRnd(rndCarga);
    var rotado := e.(rndLlegadas := e.rndLlegadas[1..] + [rndLlegada],
                     rndCargas := e.rndCargas[1..] + [rndCarga],
                     ultimoRndLlegada := rndLlegada,
                     ultimoRndCarga := rndCarga);
    match PrimerLibre(e.tanques)
    case Some(k) =>
      var nuevo := CrearBuque(e.buques, carga, carga, EstadoBuque.Cargando);
      var tanque := e.tanques[k].(estado := EstadoTanque.Cargando, buqueQueLoCarga := Some(|e.buques|), cargaActual := carga);
      var tiempoBombeo := nuevo.cargaActual / TASA_BOMBEO;
      var tiempoBombeoReal := tiempoBombeo + TIEMPO_ENCENDIDO_BOMBA;
      var horaFinalBombeo := e.reloj + tiempoBombeoReal;
      (rotado.(tanques := e.tanques[k := tanque],
               buques := e.buques + [nuevo],
               ultimosBuquesCreados := [nuevo],
               proximosEventos := eventos + [Evento(FinBombeo, horaFinalBombeo, Some(tanque.id))]),
       Transitorios(tiempoLlegada, proximaLlegada, carga, tiempoBombeo, tiempoBombeoReal,
                    horaFinalBombeo, tanque.cargaActual, horaFinalBombeo, 0.0, 0.0))
    case None =>
      var nuevo := CrearBuque(e.buques, carga, carga, EnCola);
      (rotado.(buques := e.buques + [nuevo],
               ultimosBuquesCreados := [nuevo],
               proximosEventos := eventos,
               colaMaxima := if e.colaMaxima >= CuentaEnCola(e.buques) + 1 then e.colaMaxima else CuentaEnCola(e.buques) + 1),
       CEROS.(tiempoLlegadaCalculado := tiempoLlegada, proximaLlegada := proximaLlegada, carga := carga))
  }

  /**
   * Lines 308-326, the pump of tank `k` stops: its load is counted as
   * discharged, its ship is destroyed and the discharge to the refinery is scheduled.
   */
  function ProcesarFinBombeo(e: Estado, k: nat): (Estado, Transitorios)
    requires k < |e.tanques| && e.tanques[k].buqueQueLoCarga.Some?
    requires e.tanques[k].buqueQueLoCarga.value < |e.buques|
  {
    var tanque := e.tanques[k];
    var j := tanque.buqueQueLoCarga.value;
    var horaFinalDescarga := e.reloj + tanque.cargaActual / TASA_DESCARGA;
    (e.(totalToneladasDescargadas := e.totalToneladasDescargadas + tanque.cargaActual,
        tanques := e.tanques[k := tanque.(estado := Descargando, buqueQueLoCarga := None)],
        buques := e.buques[j := e.buques[j].(estado := Destruido)],
        proximosEventos := e.proximosEventos + [Evento(FinDescarga, horaFinalDescarga, Some(tanque.id))]),
     CEROS.(cargaRestanteDescarga := tanque.cargaActual, horaFinalDescarga := horaFinalDescarga))
  }

  /**
   * Lines 346-380, tank `k` is empty again: it becomes free, and the first
   * queued ship, if any, starts pumping into it.
   */
  function ProcesarFinDescarga(e: Estado, k: nat): (Estado, Transitorios)
    requires k < |e.tanques|
  {
    var libre := e.tanques[k].(estado := Libre, cargaActual := 0.0);
    match PrimerEnCola(e.buques)
    case None => (e.(tanques := e.tanques[k := libre]), CEROS)
    case Some(j) =>
      var buque := e.buques[j];
      (e.(buques := e.buques[j := buque.(estado := EstadoBuque.Cargando)],
          tanques := e.tanques[k := libre.(estado := EstadoTanque.Cargando, buqueQueLoCarga := Some(j),
                                           cargaActual := buque.cargaActual)],
          proximosEventos := e.proximosEventos + [Evento(FinBombeo, e.reloj + TiempoBombeoReal(buque.cargaActual), Some(libre.id))]),
       CEROS)
  }

  /**
   * What processing event `x` demands beyond the references being in range:
   * an arrival shifts both draw lists (an empty list would give `undefined`),
   * and the end of pumping dereferences the tank's ship with `!` (line 311).
   */
  predicate PuedeProcesar(e: Estado, x: Evento)
  {
    && (x.tipo.LlegadaBuque? ==> |e.rndLlegadas| > 0 && |e.rndCargas| > 0)
    && (x.tipo.FinBombeo? && BuscarTanque(e.tanques, x.idTanque).Some? ==>
          e.tanques[BuscarTanque(e.tanques, x.idTanque).value].buqueQueLoCarga.Some?)
  }

  /** Lines 206-384: dispatch on the event type; a tank event naming no tank changes nothing. */
  function Procesar(e: Estado, x: Evento, exponencial: (real, real) -> real): (Estado, Transitorios)
    requires Referencias(e) && PuedeProcesar(e, x)
  {
    match x.tipo
    case LlegadaBuque => ProcesarLlegada(e, exponencial)
    case FinBombeo =>
      (match BuscarTanque(e.tanques, x.idTanque)
       case Some(k) => ProcesarFinBombeo(e, k)
       case None => (e, CEROS))
    case FinDescarga =>
      (match BuscarTanque(e.tanques, x.idTanque)
       case Some(k) => ProcesarFinDescarga(e, k)
       case None => (e, CEROS))
    case _ => (e, CEROS)
  }

  /** What one step needs of the state: see `PuedeProcesar`, applied to the event it takes. */
  predicate PuedeAvanzar(e: Estado)
  {
    && Referencias(e)
    && (|e.proximosEventos| > 0 ==> PuedeProcesar(e, e.proximosEventos[PrimerMinimo(e.proximosEventos)]))
  }

  /** The demands of `PuedeAvanzar` still hold once the event is taken and the clock has moved. */
  lemma PuedeProcesarTomado(e: Estado)
    requires PuedeAvanzar(e) && |e.proximosEventos| > 0
    ensures var (x, resto) := Extraer(e.proximosEventos);
      var actual := e.(numeroEvento := e.numeroEvento + 1, reloj := x.tiempo, ultimoEventoTipo := x.tipo, proximosEventos := resto);
      Referencias(actual) && PuedeProcesar(actual, x)
  {
  }

  /**
   * `avanzarSimulacion` (lines 177-438): count the step, take the earliest
   * pending event (the first of the earliest ones), move the clock to it,
   * process it and build the row. With no event pending only the counter moves.
   */
  function Paso(e: Estado, exponencial: (real, real) -> real): (Estado, FilaTabla)
    requires PuedeAvanzar(e)
  {
    var contado := e.(numeroEvento := e.numeroEvento + 1);
    if |e.proximosEventos| == 0 then
      (contado, ArmarFila(contado, CEROS))
    else
      var (x, resto) := Extraer(e.proximosEventos);
      var actual := contado.(reloj := x.tiempo, ultimoEventoTipo := x.tipo, proximosEventos := resto);
      var (nuevo, tr) := Procesar(actual, x, exponencial);
      (nuevo, ArmarFila(nuevo, tr))
  }

  // ---------------------------------------------------------------------------
  // Initialisation (lines 469-567)
  // ---------------------------------------------------------------------------

  /** One entry of `condicionesIniciales.tanks`; `completionTime` is optional. */
  datatype CondicionTanque = CondicionTanque(
    id: int,
    status: SimulationTypes.TankStatus,
    currentLoad: real,
    completionTime: Option<real>)

  datatype CondicionesIniciales = CondicionesIniciales(tanks: seq<CondicionTanque>, firstShipArrival: real)

  /** JavaScript truthiness of an optional number: present and not zero. */
  predicate Verdadero(t: Option<real>)
  {
    t.Some? && t.value != 0.0
  }

  function EstadoSegunStatus(s: SimulationTypes.TankStatus): EstadoTanque
  {
    match s
    case Free => Libre
    case Loading => EstadoTanque.Cargando
    case Unloading => Descargando
  }

  /**
   * Lines 500-543, one configured tank: a loading tank with a completion time
   * gets a stand-in ship and its end of pumping, an unloading one its end of
   * discharge. The configured `id` is not used: ids follow list order.
   */
  function AgregarTanque(e: Estado, c: CondicionTanque): Estado
  {
    var tanque := CrearTanque(e.tanques, c.currentLoad, c.currentLoad, EstadoSegunStatus(c.status), None);
    if c.status.Loading? && Verdadero(c.completionTime) then
      var ficticio := CrearBuque(e.buques, c.currentLoad, c.currentLoad, EstadoBuque.Cargando);
      e.(buques := e.buques + [ficticio],
         proximosEventos := e.proximosEventos + [Evento(FinBombeo, c.completionTime.value, Some(tanque.id))],
         tanques := e.tanques + [tanque.(buqueQueLoCarga := Some(|e.buques|))])
    else if c.status.Unloading? && Verdadero(c.completionTime) then
      e.(proximosEventos := e.proximosEventos + [Evento(FinDescarga, c.completionTime.value, Some(tanque.id))],
         tanques := e.tanques + [tanque])
    else
      e.(tanques := e.tanques + [tanque])
  }

  /** The `forEach` of line 499: the configured tanks in order. */
  function AgregarTanques(e: Estado, cs: seq<CondicionTanque>): Estado
  {
    if cs == [] then e else AgregarTanque(AgregarTanques(e, cs[..|cs| - 1]), cs[|cs| - 1])
  }

  /** The loop of lines 547-549: `n` free, empty tanks. */
  function TanquesLibres(n: nat): (r: seq<Tanque>)
    ensures |r| == n
    ensures forall i :: 0 <= i < n ==> r[i] == Tanque(i + 1, Libre, 0.0, 0.0, None)
  {
    if n == 0 then [] else TanquesLibres(n - 1) + [Tanque(n, Libre, 0.0, 0.0, None)]
  }

  /** Lines 486-495: everything is reset except the draw lists. */
  function Reiniciado(e: Estado): Estado
  {
    e.(reloj := 0.0, proximosEventos := [], buques := [], tanques := [], numeroEvento := 0,
       totalToneladasDescargadas := 0.0, colaMaxima := 0, ultimoEventoTipo := InicioSimulacion,
       ultimoRndLlegada := 0.0, ultimoRndCarga := 0.0, ultimosBuquesCreados := [])
  }

  /**
   * `inicializarSimulacion` (lines 481-558): reset, create the tanks from the
   * initial conditions or `numeroTanques` free ones, and schedule the first
   * arrival at `firstShipArrival`, or at 0 without conditions.
   */
  function Inicializado(e: Estado, numeroTanques: int, condiciones: Option<CondicionesIniciales>): Estado
  {
    var reiniciado := Reiniciado(e);
    var conTanques :=
      match condiciones
      case Some(c) => AgregarTanques(reiniciado, c.tanks)
      case None => reiniciado.(tanques := TanquesLibres(if numeroTanques > 0 then numeroTanques else 0));
    var primeraLlegada := match condiciones case Some(c) => c.firstShipArrival case None => 0.0;
    conTanques.(proximosEventos := conTanques.proximosEventos + [Evento(LlegadaBuque, primeraLlegada, None)])
  }

  /** `establecerNumerosRandom` (lines 561-567): the draw lists are replaced by copies. */
  function ConNumerosRandom(e: Estado, llegadas: seq<real>, cargas: seq<real>): Estado
  {
    e.(rndLlegadas := llegadas, rndCargas := cargas)
  }
}
