/**
 * The module-level `simulacion` object of src/services/simulacion.ts and the
 * three exported operations that update it in place. Each method is proved
 * to leave the object in the state the function of motor.dfy computes.
 */
module Simulacion {
  import opened Wrappers
  import opened Eventos
  import opened Entidades
  import Motor

  class Simulacion {
    var reloj: real
    var proximosEventos: seq<Evento>
    var buques: seq<Buque>
    var tanques: seq<Tanque>
    var rndLlegadas: seq<real>
    var rndCargas: seq<real>
    var numeroEvento: nat
    var totalToneladasDescargadas: real
    var colaMaxima: nat
    var ultimoEventoTipo: TipoEvento
    var ultimoRndLlegada: real
    var ultimoRndCarga: real
    var ultimosBuquesCreados: seq<Buque>

    /** The exponential sampler imported from distribuciones.ts (line 1). */
    const exponencial: (real, real) -> real

    /** The fields as one value. */
    function Estado(): Motor.Estado
      reads this
    {
      Motor.Estado(reloj, proximosEventos, buques, tanques, rndLlegadas, rndCargas, numeroEvento,
                   totalToneladasDescargadas, colaMaxima, ultimoEventoTipo, ultimoRndLlegada, ultimoRndCarga,
                   ultimosBuquesCreados)
    }

    /** Lines 107-125. */
    constructor(exponencial: (real, real) -> real)
      ensures Estado() == Motor.ESTADO_INICIAL
      ensures this.exponencial == exponencial
    {
      reloj := 0.0;
      proximosEventos := [];
      buques := [];
      tanques := [];
      rndLlegadas := [];
      rndCargas := [];
      numeroEvento := 0;
      totalToneladasDescargadas := 0.0;
      colaMaxima := 0;
      ultimoEventoTipo := InicioSimulacion;
      ultimoRndLlegada := 0.0;
      ultimoRndCarga := 0.0;
      ultimosBuquesCreados := [];
      this.exponencial := exponencial;
    }

    /** `establecerNumerosRandom` (lines 561-567). */
    method EstablecerNumerosRandom(llegadas: seq<real>, cargas: seq<real>)
      modifies this
      ensures Estado() == Motor.ConNumerosRandom(old(Estado()), llegadas, cargas)
    {
      rndLlegadas := llegadas;
      rndCargas := cargas;
    }

    /** One configured tank, the body of the `forEach` of lines 499-544. */
    method AgregarTanque(c: Motor.CondicionTanque)
      modifies this
      ensures Estado() == Motor.AgregarTanque(old(Estado()), c)
    {
      var tanque := CrearTanque(tanques, c.currentLoad, c.currentLoad, Motor.EstadoSegunStatus(c.status), None);
      if c.status.Loading? && Motor.Verdadero(c.completionTime) {
        var ficticio := CrearBuque(buques, c.currentLoad, c.currentLoad, EstadoBuque.Cargando);
        tanque := tanque.(buqueQueLoCarga := Some(|buques|));
        buques := buques + [ficticio];
        proximosEventos := proximosEventos + [Evento(FinBombeo, c.completionTime.value, Some(tanque.id))];
      } else if c.status.Unloading? && Motor.Verdadero(c.completionTime) {
        proximosEventos := proximosEventos + [Evento(FinDescarga, c.completionTime.value, Some(tanque.id))];
      }
      tanques := tanques + [tanque];
    }

    /** The `forEach` of lines 499-544 over the configured tanks. */
    method AgregarTanques(cs: seq<Motor.CondicionTanque>)
      modifies this
      ensures Estado() == Motor.AgregarTanques(old(Estado()), cs)
    {
      var i := 0;
      while i < |cs|
        invariant 0 <= i <= |cs|
        invariant Estado() == Motor.AgregarTanques(old(Estado()), cs[..i])
      {
        assert cs[..i + 1][..i] == cs[..i];
        AgregarTanque(cs[i]);
        i := i + 1;
      }
      assert cs[..i] == cs;
    }

    /** The loop of lines 547-549: `numeroTanques` free, empty tanks. */
    method CrearTanquesLibres(numeroTanques: int)
      requires tanques == []
      modifies this
      ensures Estado() == old(Estado()).(tanques := Motor.TanquesLibres(if numeroTanques > 0 then numeroTanques else 0))
    {
      var i := 1;
      while i <= numeroTanques
        invariant 1 <= i <= (if numeroTanques > 0 then numeroTanques else 0) + 1
        invariant Estado() == old(Estado()).(tanques := Motor.TanquesLibres(i - 1))
      {
        tanques := tanques + [CrearTanque(tanques, 0.0, 0.0, Libre, None)];
        i := i + 1;
      }
    }

    /** Lines 486-495. */
    method Reiniciar()
      modifies this
      ensures Estado() == Motor.Reiniciado(old(Estado()))
    {
      ReiniciarReloj();
      ReiniciarEntidades();
      ReiniciarEstadisticas();
    }

    /** The clock, the event list and the event count and type of lines 486-495. */
    method ReiniciarReloj()
      modifies this
      ensures Estado() == old(Estado()).(reloj := 0.0, proximosEventos := [], numeroEvento := 0,
                                         ultimoEventoTipo := InicioSimulacion)
    {
      reloj := 0.0;
      proximosEventos := [];
      numeroEvento := 0;
      ultimoEventoTipo := InicioSimulacion;
    }

    /** The ships and tanks of lines 486-495. */
    method ReiniciarEntidades()
      modifies this
      ensures Estado() == old(Estado()).(buques := [], tanques := [], ultimosBuquesCreados := [])
    {
      buques := [];
      tanques := [];
      ultimosBuquesCreados := [];
    }

    /** The statistics and the last draws of lines 486-495. */
    method ReiniciarEstadisticas()
      modifies this
      ensures Estado() == old(Estado()).(totalToneladasDescargadas := 0.0, colaMaxima := 0,
                                         ultimoRndLlegada := 0.0, ultimoRndCarga := 0.0)
    {
      totalToneladasDescargadas := 0.0;
      colaMaxima := 0;
      ultimoRndLlegada := 0.0;
      ultimoRndCarga := 0.0;
    }

    /** `inicializarSimulacion` (lines 481-558); the draw lists are left as they are. */
    method Inicializar(numeroTanques: int, condiciones: Option<Motor.CondicionesIniciales>)
      modifies this
      ensures Estado() == Motor.Inicializado(old(Estado()), numeroTanques, condiciones)
    {
      Reiniciar();
      ghost var reiniciado := Motor.Reiniciado(old(Estado()));
      assert Estado() == reiniciado;
      var tiempoPrimerBuque := 0.0;
      if condiciones.Some? {
        AgregarTanques(condiciones.value.tanks);
        tiempoPrimerBuque := condiciones.value.firstShipArrival;
        assert Estado() == Motor.AgregarTanques(reiniciado, condiciones.value.tanks);
      } else {
        CrearTanquesLibres(numeroTanques);
      }
      ghost var conTanques := Estado();
      proximosEventos := proximosEventos + [Evento(LlegadaBuque, tiempoPrimerBuque, None)];
      assert Estado() == conTanques.(proximosEventos := conTanques.proximosEventos + [Evento(LlegadaBuque, tiempoPrimerBuque, None)]);
    }

    /** Lines 208-216: both draw lists rotate by one and the draws taken are recorded. */
    method Sortear() returns (rndLlegada: real, rndCarga: real)
      requires |rndLlegadas| > 0 && |rndCargas| > 0
      modifies this
      ensures rndLlegada == old(rndLlegadas[0]) && rndCarga == old(rndCargas[0])
      ensures Estado() == old(Estado()).(rndLlegadas := old(rndLlegadas[1..]) + [rndLlegada],
                                         rndCargas := old(rndCargas[1..]) + [rndCarga],
                                         ultimoRndLlegada := rndLlegada, ultimoRndCarga := rndCarga)
    {
      rndLlegada := rndLlegadas[0];
      rndLlegadas := rndLlegadas[1..];
      rndCarga := rndCargas[0];
      rndCargas := rndCargas[1..];
      rndLlegadas := rndLlegadas + [rndLlegada];
      rndCargas := rndCargas + [rndCarga];
      ultimoRndLlegada := rndLlegada;
      ultimoRndCarga := rndCarga;
    }

    /**
     * Lines 207-291, a ship arrives; the result holds the step's locals. The
     * tank found by `find` is an alias of a list element: its updates are
     * made on a copy that is written back.
     */
    method ProcesarLlegada() returns (tr: Motor.Transitorios)
      requires |rndLlegadas| > 0 && |rndCargas| > 0
      modifies this
      ensures (Estado(), tr) == Motor.ProcesarLlegada(old(Estado()), exponencial)
    {
      var rndLlegada, rndCarga := Sortear();
      var tiempoLlegadaCalculado := Motor.TiempoEntreLlegadas(exponencial, rndLlegada);
      var proximaLlegada := reloj + tiempoLlegadaCalculado;
      Agendar(Evento(LlegadaBuque, proximaLlegada, None));
      var carga := CargaSegunRnd(rndCarga);
      tr := Motor.CEROS.(tiempoLlegadaCalculado := tiempoLlegadaCalculado, proximaLlegada := proximaLlegada, carga := carga);
      var libre := PrimerLibre(tanques);
      var nuevoBuque: Buque;
      if libre.Some? {
        var k := libre.value;
        nuevoBuque := CrearBuque(buques, carga, carga, EstadoBuque.Cargando);
        var tanque := tanques[k].(estado := EstadoTanque.Cargando, buqueQueLoCarga := Some(|buques|), cargaActual := carga);
        ReemplazarTanque(k, tanque);
        var tiempoBombeo := nuevoBuque.cargaActual / TASA_BOMBEO;
        var tiempoBombeoReal := tiempoBombeo + TIEMPO_ENCENDIDO_BOMBA;
        var horaFinalBombeo := reloj + tiempoBombeoReal;
        tr := tr.(tiempoBombeo := tiempoBombeo, tiempoBombeoReal := tiempoBombeoReal, horaFinalBombeo := horaFinalBombeo,
                  cargaRestante := tanque.cargaActual, horaFin := horaFinalBombeo);
        Agendar(Evento(FinBombeo, horaFinalBombeo, Some(tanque.id)));
        AgregarBuque(nuevoBuque);
      } else {
        nuevoBuque := CrearBuque(buques, carga, carga, EnCola);
        var buquesEnCola := CuentaEnCola(buques);
        colaMaxima := if colaMaxima >= buquesEnCola + 1 then colaMaxima else buquesEnCola + 1;
        AgregarBuque(nuevoBuque);
      }
    }

    /** `proximosEventos.push(x)`. */
    method Agendar(x: Evento)
      modifies this
      ensures Estado() == old(Estado()).(proximosEventos := old(proximosEventos) + [x])
    {
      proximosEventos := proximosEventos + [x];
    }

    /** The new ship joins the list and is the one reported as created (lines 287-288). */
    method AgregarBuque(b: Buque)
      modifies this
      ensures Estado() == old(Estado()).(buques := old(buques) + [b], ultimosBuquesCreados := [b])
    {
      buques := buques + [b];
      ultimosBuquesCreados := [b];
    }

    /** The copy of tank `k` is written back into the list. */
    method ReemplazarTanque(k: nat, t: Tanque)
      requires k < |tanques|
      modifies this
      ensures Estado() == old(Estado()).(tanques := old(tanques)[k := t])
    {
      tanques := tanques[k := t];
    }

    /** Lines 308-326, the pump of tank `k` stops; its ship, an alias too, is destroyed in the list. */
    method ProcesarFinBombeo(k: nat) returns (tr: Motor.Transitorios)
      requires k < |tanques| && tanques[k].buqueQueLoCarga.Some? && tanques[k].buqueQueLoCarga.value < |buques|
      modifies this
      ensures (Estado(), tr) == Motor.ProcesarFinBombeo(old(Estado()), k)
    {
      var tanque := tanques[k];
      totalToneladasDescargadas := totalToneladasDescargadas + tanque.cargaActual;
      var cargaRestanteDescarga := tanque.cargaActual;
      var j := tanque.buqueQueLoCarga.value;
      buques := buques[j := buques[j].(estado := Destruido)];
      tanques := tanques[k := tanque.(estado := Descargando, buqueQueLoCarga := None)];
      var tiempoFinDescarga := cargaRestanteDescarga / TASA_DESCARGA;
      var horaFinalDescarga := reloj + tiempoFinDescarga;
      proximosEventos := proximosEventos + [Evento(FinDescarga, horaFinalDescarga, Some(tanque.id))];
      tr := Motor.CEROS.(cargaRestanteDescarga := cargaRestanteDescarga, horaFinalDescarga := horaFinalDescarga);
    }

    /** Lines 346-380, tank `k` is empty again. */
    method ProcesarFinDescarga(k: nat) returns (tr: Motor.Transitorios)
      requires k < |tanques|
      modifies this
      ensures (Estado(), tr) == Motor.ProcesarFinDescarga(old(Estado()), k)
    {
      var tanque := tanques[k].(estado := Libre, cargaActual := 0.0);
      var enCola := PrimerEnCola(buques);
      if enCola.Some? {
        var j := enCola.value;
        var buque := buques[j];
        buques := buques[j := buque.(estado := EstadoBuque.Cargando)];
        tanque := tanque.(estado := EstadoTanque.Cargando, buqueQueLoCarga := Some(j), cargaActual := buque.cargaActual);
        var tiempoBombeoCalculado := buque.cargaActual / TASA_BOMBEO;
        var tiempoBombeoRealCalculado := tiempoBombeoCalculado + TIEMPO_ENCENDIDO_BOMBA;
        proximosEventos := proximosEventos + [Evento(FinBombeo, reloj + tiempoBombeoRealCalculado, Some(tanque.id))];
      }
      tanques := tanques[k := tanque];
      tr := Motor.CEROS;
    }

    /** Lines 206-384: the switch on the event type, for an event already taken. */
    method Procesar(proximoEvento: Evento) returns (tr: Motor.Transitorios)
      requires Motor.Referencias(Estado()) && Motor.PuedeProcesar(Estado(), proximoEvento)
      modifies this
      ensures (Estado(), tr) == Motor.Procesar(old(Estado()), proximoEvento, exponencial)
    {
      tr := Motor.CEROS;
      match proximoEvento.tipo {
        case LlegadaBuque =>
          tr := ProcesarLlegada();
        case FinBombeo =>
          var encontrado := BuscarTanque(tanques, proximoEvento.idTanque);
          if encontrado.Some? {
            tr := ProcesarFinBombeo(encontrado.value);
          }
        case FinDescarga =>
          var encontrado := BuscarTanque(tanques, proximoEvento.idTanque);
          if encontrado.Some? {
            tr := ProcesarFinDescarga(encontrado.value);
          }
        case InicioSimulacion =>
        case FinSimulacion =>
      }
    }

    /** `proximosEventos.sort((a, b) => a.tiempo - b.tiempo)`, in place (lines 162 and 184). */
    method OrdenarEventos()
      modifies this
      ensures Estado() == old(Estado()).(proximosEventos := Ordenar(old(proximosEventos)))
    {
      proximosEventos := Ordenar(proximosEventos);
    }

    /**
     * Lines 182-200: the event list is sorted twice (by the dump of line 162
     * and at line 184), its head is shifted off, and the clock and the last
     * event type follow it.
     */
    method TomarEvento() returns (proximoEvento: Evento)
      requires |proximosEventos| > 0
      modifies this
      ensures (proximoEvento, proximosEventos) == Extraer(old(proximosEventos))
      ensures Estado() == old(Estado()).(reloj := proximoEvento.tiempo, ultimoEventoTipo := proximoEvento.tipo,
                                         proximosEventos := proximosEventos)
    {
      ghost var eventos := proximosEventos;
      OrdenarEventos();
      OrdenarOrdenado(proximosEventos);
      OrdenarEventos();
      ExtraerOrdena(eventos);
      proximoEvento := Desencolar();
      reloj := proximoEvento.tiempo;
      ultimoEventoTipo := proximoEvento.tipo;
    }

    /** `proximosEventos.shift()` (line 185) on a non-empty list. */
    method Desencolar() returns (primero: Evento)
      requires |proximosEventos| > 0
      modifies this
      ensures primero == old(proximosEventos[0])
      ensures Estado() == old(Estado()).(proximosEventos := old(proximosEventos[1..]))
    {
      primero := proximosEventos[0];
      proximosEventos := proximosEventos[1..];
    }

    /**
     * `avanzarSimulacion` (lines 177-438): count the step, take and process
     * the next event if there is one (sorting an empty list changes nothing),
     * and build the row from the new state and the step's locals.
     */
    method Avanzar() returns (fila: Motor.FilaTabla)
      requires Motor.PuedeAvanzar(Estado())
      modifies this
      ensures (Estado(), fila) == Motor.Paso(old(Estado()), exponencial)
    {
      numeroEvento := numeroEvento + 1;
      var tr := Motor.CEROS;
      if |proximosEventos| > 0 {
        var proximoEvento := TomarEvento();
        Motor.PuedeProcesarTomado(old(Estado()));
        tr := Procesar(proximoEvento);
      }
      fila := Motor.ArmarFila(Estado(), tr);
    }
  }
}
