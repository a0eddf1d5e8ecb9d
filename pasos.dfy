/**
 * Properties of one step of `avanzarSimulacion` (src/services/simulacion.ts,
 * lines 177-438): from a valid state the step can always be taken, takes the
 * earliest pending event, never moves the clock back, keeps the invariant and
 * never decreases the statistics.
 */
module Pasos {
  import opened Wrappers
  import opened Eventos
  import opened Entidades
  import opened Motor
  import opened Invariantes
  import opened PasosLlegada
  import opened PasosTanques
  import Distribuciones

  /** A valid state always has an event pending, and processing it meets the source's demands. */
  lemma ValidoPuedeAvanzar(e: Estado)
    requires Valido(e) && Sorteos(e)
    ensures |e.proximosEventos| > 0
    ensures PuedeAvanzar(e)
  {
    var ev := e.proximosEventos;
    forall i | 0 <= i < |e.tanques| && e.tanques[i].buqueQueLoCarga.Some?
      ensures e.tanques[i].buqueQueLoCarga.value < |e.buques|
    {
      assert CargaBien(e.tanques[i], e.buques);
    }
    var m := PrimerMinimo(ev);
    var x := ev[m];
    assert x in ev;
    if x.tipo.FinBombeo? {
      BuscarTanquePorId(e.tanques, x.idTanque);
      var k := BuscarTanque(e.tanques, x.idTanque).value;
      assert AgendaTanque(ev, e.tanques[k]);
      CuentaMiembro(ev, m);
      assert CargaBien(e.tanques[k], e.buques);
    }
  }

  /** The state as the step finds it once it has taken event `x` and moved the clock to it. */
  function Tomado(e: Estado): Estado
    requires |e.proximosEventos| > 0
  {
    var (x, resto) := Extraer(e.proximosEventos);
    e.(numeroEvento := e.numeroEvento + 1, reloj := x.tiempo, ultimoEventoTipo := x.tipo, proximosEventos := resto)
  }

  /** A step with an event pending is processing that event in the state `Tomado` describes, then building the row. */
  lemma PasoDesdeTomado(e: Estado, exponencial: (real, real) -> real)
    requires PuedeAvanzar(e) && |e.proximosEventos| > 0
    ensures Referencias(Tomado(e)) && PuedeProcesar(Tomado(e), Extraer(e.proximosEventos).0)
    ensures var p := Procesar(Tomado(e), Extraer(e.proximosEventos).0, exponencial);
      Paso(e, exponencial) == (p.0, ArmarFila(p.0, p.1))
  {
    PuedeProcesarTomado(e);
  }

  /** Counting the taken event back in gives the counts of the list before the step. */
  lemma CuentaTomado(ev: seq<Evento>, tipo: TipoEvento, id: Option<nat>)
    requires |ev| > 0
    ensures Cuenta(Extraer(ev).1 + [Extraer(ev).0], tipo, id) == Cuenta(ev, tipo, id)
  {
    CuentaExtraer(ev, tipo, id);
    CuentaAgregar(Extraer(ev).1, Extraer(ev).0, tipo, id);
  }

  /** The events left after taking one, and the taken one, were pending and are not earlier than it. */
  lemma MiembrosTomado(ev: seq<Evento>)
    requires |ev| > 0
    ensures forall y :: y in Extraer(ev).1 + [Extraer(ev).0] ==> y in ev && y.tiempo >= Extraer(ev).0.tiempo
  {
    var (x, resto) := Extraer(ev);
    assert multiset(resto + [x]) == multiset(ev);
    forall y | y in resto + [x]
      ensures y in ev && y.tiempo >= x.tiempo
    {
      assert y in multiset(resto + [x]);
    }
  }

  /**
   * Taking the earliest event keeps the invariant once that event is counted
   * back in: the other pending events are not earlier than it.
   */
  lemma TomadoConserva(e: Estado)
    requires Valido(e) && |e.proximosEventos| > 0
    ensures var x := Extraer(e.proximosEventos).0;
      Valido(Tomado(e).(proximosEventos := Tomado(e).proximosEventos + [x]))
  {
    var ev := e.proximosEventos;
    var x := Extraer(ev).0;
    var resto := Extraer(ev).1;
    var t := Tomado(e).(proximosEventos := resto + [x]);
    assert t.tanques == e.tanques && t.buques == e.buques && t.reloj == x.tiempo;
    assert t.totalToneladasDescargadas == e.totalToneladasDescargadas && t.colaMaxima == e.colaMaxima;
    assert Estructura(t);
    MiembrosTomado(ev);
    assert EventosBienFormados(t);
    assert Futuro(t);
    CuentaTomado(ev, LlegadaBuque, None);
    forall i | 0 <= i < |t.tanques|
      ensures AgendaTanque(t.proximosEventos, t.tanques[i])
    {
      assert AgendaTanque(ev, e.tanques[i]);
      CuentaTomado(ev, FinBombeo, Some(e.tanques[i].id));
      CuentaTomado(ev, FinDescarga, Some(e.tanques[i].id));
    }
  }

  /** Processing an event of a valid state keeps the invariant and the validity of the draws. */
  lemma ProcesarConserva(e: Estado, x: Evento, exponencial: (real, real) -> real)
    requires Valido(e.(proximosEventos := e.proximosEventos + [x]))
    requires Sorteos(e) && Distribuciones.ExponencialNoNegativa(exponencial)
    ensures Referencias(e) && PuedeProcesar(e, x)
    ensures Valido(Procesar(e, x, exponencial).0)
    ensures Sorteos(Procesar(e, x, exponencial).0)
  {
    forall i | 0 <= i < |e.tanques| && e.tanques[i].buqueQueLoCarga.Some?
      ensures e.tanques[i].buqueQueLoCarga.value < |e.buques|
    {
      assert CargaBien(e.tanques[i], e.buques);
    }
    assert x in e.proximosEventos + [x];
    match x.tipo
    case LlegadaBuque =>
      LlegadaConserva(e, x, exponencial);
    case FinBombeo =>
      FinBombeoConserva(e, x);
    case FinDescarga =>
      FinDescargaConserva(e, x);
  }

  /**
   * The invariant is kept by every step: from a valid state with valid draws
   * and a nonnegative `exponencial`, the step can be taken and its result is
   * again valid with valid draws.
   */
  lemma PasoConserva(e: Estado, exponencial: (real, real) -> real)
    requires Valido(e) && Sorteos(e) && Distribuciones.ExponencialNoNegativa(exponencial)
    ensures PuedeAvanzar(e)
    ensures Valido(Paso(e, exponencial).0) && Sorteos(Paso(e, exponencial).0)
  {
    ValidoPuedeAvanzar(e);
    TomadoConserva(e);
    var x := Extraer(e.proximosEventos).0;
    var t := Tomado(e);
    assert t.(proximosEventos := t.proximosEventos + [x]).(proximosEventos := t.proximosEventos) == t;
    ProcesarConserva(t, x, exponencial);
    PasoDesdeTomado(e, exponencial);
  }

  /**
   * Lines 184-200: the step takes the earliest pending event, the first of
   * them in list order on a tie, moves the clock to its time, records its
   * type and counts itself.
   */
  lemma PasoTomaElPrimero(e: Estado, exponencial: (real, real) -> real)
    requires PuedeAvanzar(e) && |e.proximosEventos| > 0
    ensures var r := Paso(e, exponencial).0;
      && (forall y :: y in e.proximosEventos ==> r.reloj <= y.tiempo)
      && (exists m :: 0 <= m < |e.proximosEventos|
            && e.proximosEventos[m].tiempo == r.reloj
            && e.proximosEventos[m].tipo == r.ultimoEventoTipo
            && forall j :: 0 <= j < m ==> e.proximosEventos[j].tiempo > r.reloj)
      && r.numeroEvento == e.numeroEvento + 1
  {
    var ev := e.proximosEventos;
    var m := PrimerMinimo(ev);
    PasoDesdeTomado(e, exponencial);
    var t := Tomado(e);
    ProcesarReloj(t, Extraer(ev).0, exponencial);
    var r := Paso(e, exponencial).0;
    assert r.reloj == ev[m].tiempo && r.ultimoEventoTipo == ev[m].tipo && r.numeroEvento == e.numeroEvento + 1;
    forall y | y in ev
      ensures r.reloj <= y.tiempo
    {
      var i :| 0 <= i < |ev| && ev[i] == y;
    }
  }

  /** Processing an event leaves the clock, the last event type and the event count as the step set them. */
  lemma ProcesarReloj(t: Estado, x: Evento, exponencial: (real, real) -> real)
    requires Referencias(t) && PuedeProcesar(t, x)
    ensures var r := Procesar(t, x, exponencial).0;
      r.reloj == t.reloj && r.ultimoEventoTipo == t.ultimoEventoTipo && r.numeroEvento == t.numeroEvento
  {
  }

  /** Lines 178 and 198: with nothing pending the step only counts itself. */
  lemma PasoSinEventos(e: Estado, exponencial: (real, real) -> real)
    requires PuedeAvanzar(e) && |e.proximosEventos| == 0
    ensures Paso(e, exponencial).0 == e.(numeroEvento := e.numeroEvento + 1)
    ensures Paso(e, exponencial).1.eventNumber == e.numeroEvento + 1
    ensures Paso(e, exponencial).1.eventType == e.ultimoEventoTipo
  {
  }

  /** In a valid state the clock never moves back. */
  lemma RelojNoRetrocede(e: Estado, exponencial: (real, real) -> real)
    requires Valido(e) && Sorteos(e)
    ensures PuedeAvanzar(e)
    ensures Paso(e, exponencial).0.reloj >= e.reloj
  {
    ValidoPuedeAvanzar(e);
    PasoTomaElPrimero(e, exponencial);
    var m :| 0 <= m < |e.proximosEventos| && e.proximosEventos[m].tiempo == Paso(e, exponencial).0.reloj;
    assert e.proximosEventos[m] in e.proximosEventos;
  }

  /** Processing an event never lowers the discharged tonnage or the longest queue. */
  lemma ProcesarEstadisticas(e: Estado, x: Evento, exponencial: (real, real) -> real)
    requires Valido(e.(proximosEventos := e.proximosEventos + [x]))
    requires Referencias(e) && PuedeProcesar(e, x)
    ensures Procesar(e, x, exponencial).0.totalToneladasDescargadas >= e.totalToneladasDescargadas
    ensures Procesar(e, x, exponencial).0.colaMaxima >= e.colaMaxima
  {
    if x.tipo.FinBombeo? && BuscarTanque(e.tanques, x.idTanque).Some? {
      var k := BuscarTanque(e.tanques, x.idTanque).value;
      assert CargasNoNegativas(e.(proximosEventos := e.proximosEventos + [x]));
      assert e.tanques[k].cargaActual >= 0.0;
      assert Procesar(e, x, exponencial) == ProcesarFinBombeo(e, k);
    }
  }

  /**
   * The discharged tonnage and the longest queue never decrease, and the
   * tonnage added by a step is the load of the ships it destroys.
   */
  lemma EstadisticasNoDecrecen(e: Estado, exponencial: (real, real) -> real)
    requires Valido(e) && Sorteos(e) && Distribuciones.ExponencialNoNegativa(exponencial)
    ensures PuedeAvanzar(e)
    ensures Paso(e, exponencial).0.totalToneladasDescargadas >= e.totalToneladasDescargadas
    ensures Paso(e, exponencial).0.colaMaxima >= e.colaMaxima
    ensures Paso(e, exponencial).0.totalToneladasDescargadas - e.totalToneladasDescargadas
            == SumaDestruidos(Paso(e, exponencial).0.buques) - SumaDestruidos(e.buques)
  {
    ValidoPuedeAvanzar(e);
    PasoConserva(e, exponencial);
    PasoDesdeTomado(e, exponencial);
    TomadoConserva(e);
    var x := Extraer(e.proximosEventos).0;
    var t := Tomado(e);
    assert t.(proximosEventos := t.proximosEventos + [x]).(proximosEventos := t.proximosEventos) == t;
    ProcesarEstadisticas(t, x, exponencial);
    var r := Paso(e, exponencial).0;
    assert Estructura(e) && Estructura(r);
  }
}
