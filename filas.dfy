/**
 * What the row returned by `avanzarSimulacion` reports (src/services/simulacion.ts,
 * lines 187-196 and 392-467), and what each kind of event does to ships and tanks.
 */
module Filas {
  import opened Wrappers
  import opened Eventos
  import opened Entidades
  import opened Motor
  import opened Invariantes
  import opened Pasos
  import Digits
  import Distribuciones

  /** The ten columns of a row that come from the step's locals. */
  function TransitoriosDe(f: FilaTabla): Transitorios
  {
    Transitorios(f.arrivalTime, f.nextArrival, f.loadTonnage, f.pumpTime, f.realPumpTime, f.finalPumpTime,
                 f.remainingLoad, f.finalTime, f.dischargeRemainingLoad, f.finalDischargeTime)
  }

  /**
   * The row describes the state after the step: apart from the step's locals,
   * every column is read off that state.
   */
  lemma FilaDelEstado(e: Estado, exponencial: (real, real) -> real)
    requires PuedeAvanzar(e)
    ensures Paso(e, exponencial).1 == ArmarFila(Paso(e, exponencial).0, TransitoriosDe(Paso(e, exponencial).1))
  {
  }

  /**
   * In a valid state the final time shown for a tank (`obtenerHoraFinTanque`)
   * is the clock for a free tank and otherwise the time of its one pending
   * end of pumping (loading) or of discharge (discharging); it is never in
   * the past.
   */
  lemma HoraFinTanqueValida(e: Estado, i: nat)
    requires Valido(e) && i < |e.tanques|
    ensures var t := e.tanques[i];
      var h := HoraFinTanque(e.proximosEventos, e.reloj, t.id);
      && h >= e.reloj
      && (t.estado.Libre? ==> h == e.reloj)
      && (!t.estado.Libre? ==>
            exists k :: 0 <= k < |e.proximosEventos|
              && e.proximosEventos[k].idTanque == Some(t.id)
              && e.proximosEventos[k].tipo == (if t.estado.Cargando? then FinBombeo else FinDescarga)
              && h == e.proximosEventos[k].tiempo)
  {
    var ev := e.proximosEventos;
    var t := e.tanques[i];
    assert AgendaTanque(ev, t);
    match PrimerEventoDe(ev, t.id)
    case Some(k) =>
      assert ev[k] in ev;
      assert BienFormado(ev[k], |e.tanques|);
      CuentaMiembro(ev, k);
    case None =>
      if !t.estado.Libre? {
        var tipo := if t.estado.Cargando? then FinBombeo else FinDescarga;
        CuentaAusente(ev, tipo, Some(t.id));
        assert false;
      }
  }

  /**
   * The loading-ship column names the ship pumping into the tank: it is empty
   * exactly when the tank is not loading, and otherwise `B` followed by the
   * decimal id of a loading ship, which reads back as that id.
   */
  lemma EtiquetaValida(e: Estado, i: nat)
    requires Valido(e) && i < |e.tanques|
    ensures var t := e.tanques[i];
      var s := EtiquetaBuque(e.buques, t.buqueQueLoCarga);
      && (s == [] <==> !t.estado.Cargando?)
      && (t.estado.Cargando? ==>
            && t.buqueQueLoCarga.Some? && t.buqueQueLoCarga.value < |e.buques|
            && s[0] == 'B'
            && Digits.Value(s[1..], 10) == e.buques[t.buqueQueLoCarga.value].id
            && e.buques[t.buqueQueLoCarga.value].estado.Cargando?)
  {
    var t := e.tanques[i];
    assert CargaBien(t, e.buques);
    if t.estado.Cargando? {
      var b := e.buques[t.buqueQueLoCarga.value];
      Digits.ValueOfShow(b.id);
      assert ("B" + Digits.Show(b.id))[1..] == Digits.Show(b.id);
    }
  }

  /**
   * Lines 416-434 in a valid step: one entry per tank in both per-tank
   * columns, with the tank's number and load, the final time and the
   * loading-ship label as `HoraFinTanqueValida` and `EtiquetaValida` describe.
   */
  lemma FilaTanques(e: Estado, exponencial: (real, real) -> real)
    requires Valido(e) && Sorteos(e) && Distribuciones.ExponencialNoNegativa(exponencial)
    ensures PuedeAvanzar(e)
    ensures var r := Paso(e, exponencial).0;
      var f := Paso(e, exponencial).1;
      && |f.tankFinalTimes| == |r.tanques| && |f.coastalTanks| == |r.tanques|
      && forall i :: 0 <= i < |r.tanques| ==>
           && f.tankFinalTimes[i].tankNumber == i + 1 && f.coastalTanks[i].tankNumber == i + 1
           && f.tankFinalTimes[i].remainingLoad == r.tanques[i].cargaActual
           && f.coastalTanks[i].remainingLoad == r.tanques[i].cargaActual
           && f.coastalTanks[i].status == r.tanques[i].estado
           && f.tankFinalTimes[i].finalTime >= f.clockTime
           && (r.tanques[i].estado.Libre? ==> f.tankFinalTimes[i].finalTime == f.clockTime)
           && (f.coastalTanks[i].loadingShip == [] <==> !r.tanques[i].estado.Cargando?)
  {
    PasoConserva(e, exponencial);
    var r := Paso(e, exponencial).0;
    FilaDelEstado(e, exponencial);
    forall i | 0 <= i < |r.tanques|
      ensures r.tanques[i].id == i + 1
      ensures var h := HoraFinTanque(r.proximosEventos, r.reloj, r.tanques[i].id);
        h >= r.reloj && (r.tanques[i].estado.Libre? ==> h == r.reloj)
      ensures EtiquetaBuque(r.buques, r.tanques[i].buqueQueLoCarga) == [] <==> !r.tanques[i].estado.Cargando?
    {
      HoraFinTanqueValida(r, i);
      EtiquetaValida(r, i);
    }
  }

  /** The arrival branch (lines 207-291) on the state as the step finds it. */
  lemma LlegadaEfecto(t: Estado, exponencial: (real, real) -> real)
    requires |t.rndLlegadas| > 0 && |t.rndCargas| > 0
    ensures var (r, tr) := ProcesarLlegada(t, exponencial);
      var llegada := Evento(LlegadaBuque, tr.proximaLlegada, None);
      && r.reloj == t.reloj && r.numeroEvento == t.numeroEvento && r.ultimoEventoTipo == t.ultimoEventoTipo
      && r.rndLlegadas == t.rndLlegadas[1..] + [t.rndLlegadas[0]] && r.rndCargas == t.rndCargas[1..] + [t.rndCargas[0]]
      && r.ultimoRndLlegada == t.rndLlegadas[0] && r.ultimoRndCarga == t.rndCargas[0]
      && r.totalToneladasDescargadas == t.totalToneladasDescargadas
      && tr.tiempoLlegadaCalculado == exponencial(t.rndLlegadas[0], TASA_LLEGADA_BUQUES)
      && tr.proximaLlegada == t.reloj + tr.tiempoLlegadaCalculado
      && tr.carga == CargaSegunRnd(t.rndCargas[0])
      && tr.cargaRestanteDescarga == 0.0 && tr.horaFinalDescarga == 0.0
      && |r.buques| == |t.buques| + 1
      && r.buques[..|t.buques|] == t.buques
      && r.buques[|t.buques|].id == |t.buques| + 1
      && r.buques[|t.buques|].cargaActual == tr.carga == r.buques[|t.buques|].cargaInicial
      && r.ultimosBuquesCreados == [r.buques[|t.buques|]]
      && (PrimerLibre(t.tanques).Some? ==>
            var k := PrimerLibre(t.tanques).value;
            && r.buques[|t.buques|].estado.Cargando?
            && |r.tanques| == |t.tanques|
            && (forall i :: 0 <= i < |r.tanques| && i != k ==> r.tanques[i] == t.tanques[i])
            && r.tanques[k].id == t.tanques[k].id && r.tanques[k].cargaInicial == t.tanques[k].cargaInicial
            && r.tanques[k].estado.Cargando? && r.tanques[k].buqueQueLoCarga == Some(|t.buques|)
            && r.tanques[k].cargaActual == tr.carga == tr.cargaRestante
            && tr.tiempoBombeo == tr.carga / TASA_BOMBEO
            && tr.tiempoBombeoReal == tr.tiempoBombeo + TIEMPO_ENCENDIDO_BOMBA
            && tr.horaFinalBombeo == t.reloj + tr.tiempoBombeoReal && tr.horaFin == tr.horaFinalBombeo
            && r.proximosEventos == t.proximosEventos + [llegada] + [Evento(FinBombeo, tr.horaFinalBombeo, Some(t.tanques[k].id))]
            && r.colaMaxima == t.colaMaxima)
      && (PrimerLibre(t.tanques).None? ==>
            && r.buques[|t.buques|].estado.EnCola?
            && r.tanques == t.tanques
            && r.proximosEventos == t.proximosEventos + [llegada]
            && r.colaMaxima == (if t.colaMaxima >= CuentaEnCola(t.buques) + 1 then t.colaMaxima else CuentaEnCola(t.buques) + 1)
            && r.colaMaxima >= CuentaEnCola(r.buques)
            && tr.tiempoBombeo == 0.0 && tr.tiempoBombeoReal == 0.0 && tr.horaFinalBombeo == 0.0
            && tr.cargaRestante == 0.0 && tr.horaFin == 0.0)
  {
    var r := ProcesarLlegada(t, exponencial).0;
    var nuevo := r.buques[|t.buques|];
    assert r.buques == t.buques + [nuevo];
    Invariantes.CuentaEnColaAgregar(t.buques, nuevo);
  }

  /**
   * Lines 207-291 and 398-409, a ship arrives: the head of each draw list is
   * used and shown, the next arrival is pending at the clock plus the drawn
   * interarrival time, the load follows the load draw, and a new ship with the
   * next id is added, pumping into the first free tank (with its end of
   * pumping pending at the time the row shows) or else waiting in the queue,
   * whose maximum then covers it.
   */
  lemma PasoLlegada(e: Estado, exponencial: (real, real) -> real)
    requires PuedeAvanzar(e) && |e.proximosEventos| > 0 && Extraer(e.proximosEventos).0.tipo.LlegadaBuque?
    ensures var r := Paso(e, exponencial).0;
      var f := Paso(e, exponencial).1;
      var resto := Extraer(e.proximosEventos).1;
      var llegada := Evento(LlegadaBuque, f.nextArrival, None);
      && f.arrivalRnd == e.rndLlegadas[0] && f.loadRnd == e.rndCargas[0]
      && r.rndLlegadas == e.rndLlegadas[1..] + [e.rndLlegadas[0]] && r.rndCargas == e.rndCargas[1..] + [e.rndCargas[0]]
      && f.arrivalTime == exponencial(f.arrivalRnd, TASA_LLEGADA_BUQUES)
      && f.nextArrival == f.clockTime + f.arrivalTime
      && f.loadTonnage == CargaSegunRnd(f.loadRnd)
      && f.dischargeRemainingLoad == 0.0 && f.finalDischargeTime == 0.0
      && r.totalToneladasDescargadas == e.totalToneladasDescargadas
      && |r.buques| == |e.buques| + 1
      && r.buques[..|e.buques|] == e.buques
      && r.buques[|e.buques|].id == |e.buques| + 1
      && r.buques[|e.buques|].cargaActual == f.loadTonnage == r.buques[|e.buques|].cargaInicial
      && r.ultimosBuquesCreados == [r.buques[|e.buques|]]
      && (PrimerLibre(e.tanques).Some? ==>
            var k := PrimerLibre(e.tanques).value;
            && r.buques[|e.buques|].estado.Cargando?
            && |r.tanques| == |e.tanques|
            && (forall i :: 0 <= i < |r.tanques| && i != k ==> r.tanques[i] == e.tanques[i])
            && r.tanques[k].id == e.tanques[k].id
            && r.tanques[k].estado.Cargando? && r.tanques[k].buqueQueLoCarga == Some(|e.buques|)
            && r.tanques[k].cargaActual == f.loadTonnage == f.remainingLoad
            && f.pumpTime == f.loadTonnage / TASA_BOMBEO
            && f.realPumpTime == f.pumpTime + TIEMPO_ENCENDIDO_BOMBA
            && f.finalPumpTime == f.clockTime + f.realPumpTime && f.finalTime == f.finalPumpTime
            && r.proximosEventos == resto + [llegada] + [Evento(FinBombeo, f.finalPumpTime, Some(e.tanques[k].id))]
            && r.colaMaxima == e.colaMaxima)
      && (PrimerLibre(e.tanques).None? ==>
            && r.buques[|e.buques|].estado.EnCola?
            && r.tanques == e.tanques
            && r.proximosEventos == resto + [llegada]
            && r.colaMaxima == (if e.colaMaxima >= CuentaEnCola(e.buques) + 1 then e.colaMaxima else CuentaEnCola(e.buques) + 1)
            && r.colaMaxima >= CuentaEnCola(r.buques)
            && f.pumpTime == 0.0 && f.realPumpTime == 0.0 && f.finalPumpTime == 0.0
            && f.remainingLoad == 0.0 && f.finalTime == 0.0)
  {
    PasoDesdeTomado(e, exponencial);
    var t := Tomado(e);
    assert Procesar(t, Extraer(e.proximosEventos).0, exponencial) == ProcesarLlegada(t, exponencial);
    LlegadaEfecto(t, exponencial);
  }

  /** The end-of-pumping branch (lines 308-326) for tank `k`. */
  lemma FinBombeoEfecto(t: Estado, k: nat)
    requires k < |t.tanques| && t.tanques[k].buqueQueLoCarga.Some?
    requires t.tanques[k].buqueQueLoCarga.value < |t.buques|
    ensures var (r, tr) := ProcesarFinBombeo(t, k);
      var j := t.tanques[k].buqueQueLoCarga.value;
      && r.reloj == t.reloj && r.numeroEvento == t.numeroEvento && r.ultimoEventoTipo == t.ultimoEventoTipo
      && r.rndLlegadas == t.rndLlegadas && r.rndCargas == t.rndCargas
      && r.ultimoRndLlegada == t.ultimoRndLlegada && r.ultimoRndCarga == t.ultimoRndCarga
      && r.colaMaxima == t.colaMaxima && r.ultimosBuquesCreados == t.ultimosBuquesCreados
      && tr == CEROS.(cargaRestanteDescarga := t.tanques[k].cargaActual, horaFinalDescarga := tr.horaFinalDescarga)
      && tr.horaFinalDescarga == t.reloj + tr.cargaRestanteDescarga / TASA_DESCARGA
      && r.proximosEventos == t.proximosEventos + [Evento(FinDescarga, tr.horaFinalDescarga, Some(t.tanques[k].id))]
      && r.totalToneladasDescargadas == t.totalToneladasDescargadas + tr.cargaRestanteDescarga
      && |r.tanques| == |t.tanques| && |r.buques| == |t.buques|
      && r.tanques[k].id == t.tanques[k].id && r.tanques[k].cargaInicial == t.tanques[k].cargaInicial
      && r.tanques[k].estado.Descargando? && r.tanques[k].buqueQueLoCarga.None?
      && r.tanques[k].cargaActual == t.tanques[k].cargaActual
      && r.buques[j] == t.buques[j].(estado := Destruido)
      && (forall i :: 0 <= i < |r.tanques| && i != k ==> r.tanques[i] == t.tanques[i])
      && (forall i :: 0 <= i < |r.buques| && i != j ==> r.buques[i] == t.buques[i])
  {
  }

  /** The end-of-discharge branch (lines 346-380) for tank `k`. */
  lemma FinDescargaEfecto(t: Estado, k: nat)
    requires k < |t.tanques|
    ensures var (r, tr) := ProcesarFinDescarga(t, k);
      && r.reloj == t.reloj && r.numeroEvento == t.numeroEvento && r.ultimoEventoTipo == t.ultimoEventoTipo
      && r.rndLlegadas == t.rndLlegadas && r.rndCargas == t.rndCargas
      && r.ultimoRndLlegada == t.ultimoRndLlegada && r.ultimoRndCarga == t.ultimoRndCarga
      && r.totalToneladasDescargadas == t.totalToneladasDescargadas
      && r.colaMaxima == t.colaMaxima && r.ultimosBuquesCreados == t.ultimosBuquesCreados
      && tr == CEROS
      && |r.tanques| == |t.tanques|
      && (forall i :: 0 <= i < |r.tanques| && i != k ==> r.tanques[i] == t.tanques[i])
      && r.tanques[k].id == t.tanques[k].id && r.tanques[k].cargaInicial == t.tanques[k].cargaInicial
      && |r.buques| == |t.buques|
      && (PrimerEnCola(t.buques).None? ==>
            && r.tanques[k].estado.Libre? && r.tanques[k].cargaActual == 0.0
            && r.tanques[k].buqueQueLoCarga == t.tanques[k].buqueQueLoCarga
            && r.buques == t.buques
            && r.proximosEventos == t.proximosEventos)
      && (PrimerEnCola(t.buques).Some? ==>
            var j := PrimerEnCola(t.buques).value;
            && r.buques == t.buques[j := t.buques[j].(estado := EstadoBuque.Cargando)]
            && r.tanques[k].estado.Cargando? && r.tanques[k].buqueQueLoCarga == Some(j)
            && r.tanques[k].cargaActual == t.buques[j].cargaActual
            && r.proximosEventos ==
               t.proximosEventos + [Evento(FinBombeo, t.reloj + TiempoBombeoReal(t.buques[j].cargaActual), Some(t.tanques[k].id))])
  {
  }

  /**
   * Lines 293-329 and 412-413, the pump of a found tank stops: the row shows
   * its load as what remains to discharge and the discharge's end, pending
   * for that tank; the load is added to the discharged total; the tank is
   * discharging without a ship and the ship that loaded it is destroyed;
   * every arrival and pumping column is zero.
   */
  lemma PasoFinBombeo(e: Estado, exponencial: (real, real) -> real)
    requires PuedeAvanzar(e) && |e.proximosEventos| > 0
    requires Extraer(e.proximosEventos).0.tipo.FinBombeo?
    requires BuscarTanque(e.tanques, Extraer(e.proximosEventos).0.idTanque).Some?
    ensures var k := BuscarTanque(e.tanques, Extraer(e.proximosEventos).0.idTanque).value;
      var r := Paso(e, exponencial).0;
      var f := Paso(e, exponencial).1;
      var j := e.tanques[k].buqueQueLoCarga.value;
      && f.dischargeRemainingLoad == e.tanques[k].cargaActual
      && f.finalDischargeTime == f.clockTime + f.dischargeRemainingLoad / TASA_DESCARGA
      && r.proximosEventos == Extraer(e.proximosEventos).1 + [Evento(FinDescarga, f.finalDischargeTime, Some(e.tanques[k].id))]
      && r.totalToneladasDescargadas == e.totalToneladasDescargadas + f.dischargeRemainingLoad
      && r.rndLlegadas == e.rndLlegadas && r.rndCargas == e.rndCargas
      && r.colaMaxima == e.colaMaxima && r.ultimosBuquesCreados == e.ultimosBuquesCreados
      && |r.tanques| == |e.tanques| && |r.buques| == |e.buques|
      && r.tanques[k].id == e.tanques[k].id
      && r.tanques[k].estado.Descargando? && r.tanques[k].buqueQueLoCarga.None?
      && r.tanques[k].cargaActual == e.tanques[k].cargaActual
      && r.buques[j] == e.buques[j].(estado := Destruido)
      && (forall i :: 0 <= i < |r.tanques| && i != k ==> r.tanques[i] == e.tanques[i])
      && (forall i :: 0 <= i < |r.buques| && i != j ==> r.buques[i] == e.buques[i])
      && f.arrivalTime == 0.0 && f.nextArrival == 0.0 && f.loadTonnage == 0.0
      && f.pumpTime == 0.0 && f.realPumpTime == 0.0 && f.finalPumpTime == 0.0
      && f.remainingLoad == 0.0 && f.finalTime == 0.0
      && f.arrivalRnd == e.ultimoRndLlegada && f.loadRnd == e.ultimoRndCarga
  {
    PasoDesdeTomado(e, exponencial);
    var t := Tomado(e);
    var k := BuscarTanque(e.tanques, Extraer(e.proximosEventos).0.idTanque).value;
    assert Procesar(t, Extraer(e.proximosEventos).0, exponencial) == ProcesarFinBombeo(t, k);
    FinBombeoEfecto(t, k);
  }

  /**
   * Lines 331-383, a tank finishes discharging: without a queue it becomes
   * free and empty; otherwise the first ship to have queued (`PrimerEnCola`,
   * lines 349-351) starts pumping into it with its load and its end of
   * pumping is pending. The row's locals are all zero.
   */
  lemma PasoFinDescarga(e: Estado, exponencial: (real, real) -> real)
    requires PuedeAvanzar(e) && |e.proximosEventos| > 0
    requires Extraer(e.proximosEventos).0.tipo.FinDescarga?
    requires BuscarTanque(e.tanques, Extraer(e.proximosEventos).0.idTanque).Some?
    ensures var k := BuscarTanque(e.tanques, Extraer(e.proximosEventos).0.idTanque).value;
      var r := Paso(e, exponencial).0;
      var f := Paso(e, exponencial).1;
      var resto := Extraer(e.proximosEventos).1;
      && TransitoriosDe(f) == CEROS
      && r.totalToneladasDescargadas == e.totalToneladasDescargadas && r.colaMaxima == e.colaMaxima
      && r.rndLlegadas == e.rndLlegadas && r.rndCargas == e.rndCargas
      && r.ultimosBuquesCreados == e.ultimosBuquesCreados
      && |r.tanques| == |e.tanques|
      && (forall i :: 0 <= i < |r.tanques| && i != k ==> r.tanques[i] == e.tanques[i])
      && r.tanques[k].id == e.tanques[k].id
      && |r.buques| == |e.buques|
      && (PrimerEnCola(e.buques).None? ==>
            && r.tanques[k].estado.Libre? && r.tanques[k].cargaActual == 0.0
            && r.buques == e.buques
            && r.proximosEventos == resto)
      && (PrimerEnCola(e.buques).Some? ==>
            var j := PrimerEnCola(e.buques).value;
            && r.buques == e.buques[j := e.buques[j].(estado := EstadoBuque.Cargando)]
            && r.tanques[k].estado.Cargando? && r.tanques[k].buqueQueLoCarga == Some(j)
            && r.tanques[k].cargaActual == e.buques[j].cargaActual
            && r.proximosEventos ==
               resto + [Evento(FinBombeo, f.clockTime + TiempoBombeoReal(e.buques[j].cargaActual), Some(e.tanques[k].id))])
  {
    PasoDesdeTomado(e, exponencial);
    var t := Tomado(e);
    var k := BuscarTanque(e.tanques, Extraer(e.proximosEventos).0.idTanque).value;
    assert Procesar(t, Extraer(e.proximosEventos).0, exponencial) == ProcesarFinDescarga(t, k);
    FinDescargaEfecto(t, k);
  }

  /**
   * Every other step (a tank event naming no tank, or an event type the
   * switch does not handle) changes only the clock, the counter, the last
   * event type and the pending list, and zeroes the row's locals.
   */
  lemma PasoSinEfecto(e: Estado, exponencial: (real, real) -> real)
    requires PuedeAvanzar(e) && |e.proximosEventos| > 0
    requires var x := Extraer(e.proximosEventos).0;
      || x.tipo.InicioSimulacion? || x.tipo.FinSimulacion?
      || ((x.tipo.FinBombeo? || x.tipo.FinDescarga?) && BuscarTanque(e.tanques, x.idTanque).None?)
    ensures var r := Paso(e, exponencial).0;
      && TransitoriosDe(Paso(e, exponencial).1) == CEROS
      && r.tanques == e.tanques && r.buques == e.buques
      && r.totalToneladasDescargadas == e.totalToneladasDescargadas && r.colaMaxima == e.colaMaxima
      && r.rndLlegadas == e.rndLlegadas && r.rndCargas == e.rndCargas
      && |r.proximosEventos| + 1 == |e.proximosEventos|
  {
    assert multiset(Extraer(e.proximosEventos).1) + multiset{Extraer(e.proximosEventos).0} == multiset(e.proximosEventos);
    assert |multiset(Extraer(e.proximosEventos).1)| + 1 == |multiset(e.proximosEventos)|;
  }
}
