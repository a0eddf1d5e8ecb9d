/**
 * The end of pumping (lines 293-329) and the end of discharge (lines 331-383)
 * of src/services/simulacion.ts keep the invariant of invariantes.dfy.
 */
module PasosTanques {
  import opened Wrappers
  import opened Eventos
  import opened Entidades
  import opened Motor
  import opened Invariantes
  import opened PasosLlegada

  lemma CargaBienCambiar(t: Tanque, buques: seq<Buque>, j: nat, b: Buque)
    requires CargaBien(t, buques) && j < |buques|
    requires t.buqueQueLoCarga != Some(j)
    ensures CargaBien(t, buques[j := b])
  {
  }

  /**
   * With the event `x` still counted, the tank it names is found, and a
   * pending end of pumping means the tank is loading, a pending end of
   * discharge that it is discharging.
   */
  lemma TanqueDelEvento(e: Estado, x: Evento)
    requires Valido(e.(proximosEventos := e.proximosEventos + [x]))
    requires x.tipo.FinBombeo? || x.tipo.FinDescarga?
    ensures BuscarTanque(e.tanques, x.idTanque).Some?
    ensures var k := BuscarTanque(e.tanques, x.idTanque).value;
      && Some(e.tanques[k].id) == x.idTanque
      && (x.tipo.FinBombeo? ==> e.tanques[k].estado.Cargando? && Cuenta(e.proximosEventos, FinBombeo, x.idTanque) == 0
                                && Cuenta(e.proximosEventos, FinDescarga, x.idTanque) == 0)
      && (x.tipo.FinDescarga? ==> e.tanques[k].estado.Descargando? && Cuenta(e.proximosEventos, FinDescarga, x.idTanque) == 0
                                  && Cuenta(e.proximosEventos, FinBombeo, x.idTanque) == 0)
  {
    var ev := e.proximosEventos;
    assert x in ev + [x];
    BuscarTanquePorId(e.tanques, x.idTanque);
    var k := BuscarTanque(e.tanques, x.idTanque).value;
    assert AgendaTanque(ev + [x], e.tanques[k]);
    CuentaAgregar(ev, x, FinBombeo, x.idTanque);
    CuentaAgregar(ev, x, FinDescarga, x.idTanque);
  }

  lemma FinBombeoEstructura(e: Estado, k: nat)
    requires Estructura(e) && k < |e.tanques| && e.tanques[k].estado.Cargando?
    ensures e.tanques[k].buqueQueLoCarga.Some? && e.tanques[k].buqueQueLoCarga.value < |e.buques|
    ensures Estructura(ProcesarFinBombeo(e, k).0)
  {
    assert CargaBien(e.tanques[k], e.buques);
    var r := ProcesarFinBombeo(e, k).0;
    var j := e.tanques[k].buqueQueLoCarga.value;
    var destruido := e.buques[j].(estado := Destruido);
    assert r.buques == e.buques[j := destruido];
    forall i | 0 <= i < |r.tanques|
      ensures CargaBien(r.tanques[i], r.buques)
    {
      if i != k {
        assert CargaBien(e.tanques[i], e.buques);
        CargaBienCambiar(e.tanques[i], e.buques, j, destruido);
      }
    }
    CuentaEnColaCambiar(e.buques, j, destruido);
    SumaDestruidosCambiar(e.buques, j, destruido);
  }

  lemma FinBombeoEventos(e: Estado, x: Evento, k: nat)
    requires Valido(e.(proximosEventos := e.proximosEventos + [x])) && x.tipo.FinBombeo?
    requires k < |e.tanques| && Some(e.tanques[k].id) == x.idTanque && e.tanques[k].estado.Cargando?
    requires Cuenta(e.proximosEventos, FinBombeo, x.idTanque) == 0
    requires Cuenta(e.proximosEventos, FinDescarga, x.idTanque) == 0
    requires e.tanques[k].buqueQueLoCarga.Some? && e.tanques[k].buqueQueLoCarga.value < |e.buques|
    ensures EventosBienFormados(ProcesarFinBombeo(e, k).0)
    ensures Agenda(ProcesarFinBombeo(e, k).0)
    ensures Futuro(ProcesarFinBombeo(e, k).0)
  {
    var ev := e.proximosEventos;
    var r := ProcesarFinBombeo(e, k).0;
    var t := e.tanques[k];
    var descarga := Evento(FinDescarga, e.reloj + t.cargaActual / TASA_DESCARGA, Some(t.id));
    assert r.proximosEventos == ev + [descarga];
    assert forall y :: y in ev ==> y in ev + [x];
    assert t.id == k + 1;
    CuentaAgregar(ev, x, LlegadaBuque, None);
    CuentaAgregar(ev, descarga, LlegadaBuque, None);
    forall i | 0 <= i < |r.tanques|
      ensures AgendaTanque(r.proximosEventos, r.tanques[i])
    {
      if i != k {
        assert e.tanques[i].id == i + 1;
        AgendaTanqueQuitar(ev, x, e.tanques[i]);
        AgendaTanqueAgregar(ev, descarga, e.tanques[i]);
      } else {
        CuentaAgregar(ev, descarga, FinBombeo, Some(t.id));
        CuentaAgregar(ev, descarga, FinDescarga, Some(t.id));
      }
    }
  }

  /** The end of pumping of a found tank keeps the invariant. */
  lemma FinBombeoConserva(e: Estado, x: Evento)
    requires Valido(e.(proximosEventos := e.proximosEventos + [x])) && x.tipo.FinBombeo?
    ensures BuscarTanque(e.tanques, x.idTanque).Some?
    ensures var k := BuscarTanque(e.tanques, x.idTanque).value;
      && e.tanques[k].buqueQueLoCarga.Some? && e.tanques[k].buqueQueLoCarga.value < |e.buques|
      && Valido(ProcesarFinBombeo(e, k).0)
  {
    TanqueDelEvento(e, x);
    var k := BuscarTanque(e.tanques, x.idTanque).value;
    FinBombeoEstructura(e, k);
    FinBombeoEventos(e, x, k);
  }

  /** While a ship waits, no tank is free. */
  lemma ColaSinLibres(e: Estado, j: nat)
    requires SinColaConLibre(e) && j < |e.buques| && e.buques[j].estado.EnCola?
    ensures forall i :: 0 <= i < |e.tanques| ==> !e.tanques[i].estado.Libre?
  {
  }

  lemma FinDescargaEstructura(e: Estado, k: nat)
    requires Estructura(e) && k < |e.tanques| && e.tanques[k].estado.Descargando?
    ensures Estructura(ProcesarFinDescarga(e, k).0)
  {
    assert CargaBien(e.tanques[k], e.buques);
    var r := ProcesarFinDescarga(e, k).0;
    var libre := e.tanques[k].(estado := Libre, cargaActual := 0.0);
    match PrimerEnCola(e.buques)
    case None =>
      assert r.tanques == e.tanques[k := libre];
      assert r.buques == e.buques;
      forall i | 0 <= i < |r.tanques|
        ensures CargaBien(r.tanques[i], r.buques)
      {
        if i != k {
          assert CargaBien(e.tanques[i], e.buques);
        }
      }
    case Some(j) =>
      var buque := e.buques[j];
      var cargando := buque.(estado := EstadoBuque.Cargando);
      var t := libre.(estado := EstadoTanque.Cargando, buqueQueLoCarga := Some(j), cargaActual := buque.cargaActual);
      assert r.buques == e.buques[j := cargando];
      assert r.tanques == e.tanques[k := t];
      forall i | 0 <= i < |r.tanques|
        ensures CargaBien(r.tanques[i], r.buques)
      {
        if i != k {
          assert CargaBien(e.tanques[i], e.buques);
          CargaBienCambiar(e.tanques[i], e.buques, j, cargando);
        }
      }
      forall i, i2 | 0 <= i < |r.tanques| && 0 <= i2 < |r.tanques| && i != i2 && r.tanques[i].buqueQueLoCarga.Some?
        ensures r.tanques[i].buqueQueLoCarga != r.tanques[i2].buqueQueLoCarga
      {
        if i == k {
          assert CargaBien(e.tanques[i2], e.buques);
        } else if i2 == k {
          assert CargaBien(e.tanques[i], e.buques);
        }
      }
      ColaSinLibres(e, j);
      CuentaEnColaCambiar(e.buques, j, cargando);
      SumaDestruidosCambiar(e.buques, j, cargando);
  }

  lemma FinDescargaEventos(e: Estado, x: Evento, k: nat)
    requires Valido(e.(proximosEventos := e.proximosEventos + [x])) && x.tipo.FinDescarga?
    requires k < |e.tanques| && Some(e.tanques[k].id) == x.idTanque && e.tanques[k].estado.Descargando?
    requires Cuenta(e.proximosEventos, FinBombeo, x.idTanque) == 0
    requires Cuenta(e.proximosEventos, FinDescarga, x.idTanque) == 0
    ensures EventosBienFormados(ProcesarFinDescarga(e, k).0)
    ensures Agenda(ProcesarFinDescarga(e, k).0)
    ensures Futuro(ProcesarFinDescarga(e, k).0)
  {
    var ev := e.proximosEventos;
    var r := ProcesarFinDescarga(e, k).0;
    var t := e.tanques[k];
    assert forall y :: y in ev ==> y in ev + [x];
    assert t.id == k + 1;
    CuentaAgregar(ev, x, LlegadaBuque, None);
    match PrimerEnCola(e.buques)
    case None =>
      assert r.proximosEventos == ev;
      forall i | 0 <= i < |r.tanques|
        ensures AgendaTanque(r.proximosEventos, r.tanques[i])
      {
        if i != k {
          assert e.tanques[i].id == i + 1;
          AgendaTanqueQuitar(ev, x, e.tanques[i]);
        }
      }
    case Some(j) =>
      assert e.buques[j].cargaActual >= 0.0;
      var bombeo := Evento(FinBombeo, e.reloj + TiempoBombeoReal(e.buques[j].cargaActual), Some(t.id));
      assert r.proximosEventos == ev + [bombeo];
      CuentaAgregar(ev, bombeo, LlegadaBuque, None);
      forall i | 0 <= i < |r.tanques|
        ensures AgendaTanque(r.proximosEventos, r.tanques[i])
      {
        if i != k {
          assert e.tanques[i].id == i + 1;
          AgendaTanqueQuitar(ev, x, e.tanques[i]);
          AgendaTanqueAgregar(ev, bombeo, e.tanques[i]);
        } else {
          CuentaAgregar(ev, bombeo, FinBombeo, Some(t.id));
          CuentaAgregar(ev, bombeo, FinDescarga, Some(t.id));
        }
      }
  }

  /** The end of discharge of a found tank keeps the invariant. */
  lemma FinDescargaConserva(e: Estado, x: Evento)
    requires Valido(e.(proximosEventos := e.proximosEventos + [x])) && x.tipo.FinDescarga?
    ensures BuscarTanque(e.tanques, x.idTanque).Some?
    ensures Valido(ProcesarFinDescarga(e, BuscarTanque(e.tanques, x.idTanque).value).0)
  {
    TanqueDelEvento(e, x);
    var k := BuscarTanque(e.tanques, x.idTanque).value;
    FinDescargaEstructura(e, k);
    FinDescargaEventos(e, x, k);
  }
}
