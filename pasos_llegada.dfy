/**
 * The arrival of a ship (lines 207-291 of src/services/simulacion.ts) keeps
 * the invariant of invariantes.dfy.
 */
module PasosLlegada {
  import opened Wrappers
  import opened Eventos
  import opened Entidades
  import opened Motor
  import opened Invariantes
  import Distribuciones

  lemma CargaBienExtender(t: Tanque, buques: seq<Buque>, b: Buque)
    requires CargaBien(t, buques)
    ensures CargaBien(t, buques + [b])
  {
    if t.buqueQueLoCarga.Some? {
      assert (buques + [b])[t.buqueQueLoCarga.value] == buques[t.buqueQueLoCarga.value];
    }
  }

  /** Appending an event that names neither of a tank's ends leaves the tank's agenda as it was. */
  lemma AgendaTanqueAgregar(eventos: seq<Evento>, y: Evento, t: Tanque)
    requires AgendaTanque(eventos, t)
    requires y.idTanque != Some(t.id)
    ensures AgendaTanque(eventos + [y], t)
  {
    CuentaAgregar(eventos, y, FinBombeo, Some(t.id));
    CuentaAgregar(eventos, y, FinDescarga, Some(t.id));
  }

  /** Dropping an event that names another tank, or none, leaves the tank's agenda as it was. */
  lemma AgendaTanqueQuitar(eventos: seq<Evento>, x: Evento, t: Tanque)
    requires AgendaTanque(eventos + [x], t)
    requires x.idTanque != Some(t.id)
    ensures AgendaTanque(eventos, t)
  {
    CuentaAgregar(eventos, x, FinBombeo, Some(t.id));
    CuentaAgregar(eventos, x, FinDescarga, Some(t.id));
  }

  lemma Rotado(s: seq<real>)
    requires |s| > 0
    ensures forall r :: r in s[1..] + [s[0]] ==> r in s
  {
    forall r | r in s[1..] + [s[0]]
      ensures r in s
    {
      if r in s[1..] {
        var i :| 0 <= i < |s[1..]| && s[1..][i] == r;
        assert s[i + 1] == r;
      }
    }
  }

  lemma LlegadaEstructura(e: Estado, exponencial: (real, real) -> real)
    requires Estructura(e) && |e.rndLlegadas| > 0 && |e.rndCargas| > 0
    ensures Estructura(ProcesarLlegada(e, exponencial).0)
  {
    var r := ProcesarLlegada(e, exponencial).0;
    var carga := CargaSegunRnd(e.rndCargas[0]);
    match PrimerLibre(e.tanques)
    case Some(k) =>
      var nuevo := CrearBuque(e.buques, carga, carga, EstadoBuque.Cargando);
      assert r.buques == e.buques + [nuevo];
      assert r.tanques == e.tanques[k := e.tanques[k].(estado := EstadoTanque.Cargando, buqueQueLoCarga := Some(|e.buques|), cargaActual := carga)];
      assert e.tanques[k].buqueQueLoCarga.None? by { assert CargaBien(e.tanques[k], e.buques); }
      forall i | 0 <= i < |r.tanques|
        ensures CargaBien(r.tanques[i], r.buques)
      {
        if i != k {
          assert CargaBien(e.tanques[i], e.buques);
          CargaBienExtender(e.tanques[i], e.buques, nuevo);
        }
      }
      forall i, i2 | 0 <= i < |r.tanques| && 0 <= i2 < |r.tanques| && i != i2 && r.tanques[i].buqueQueLoCarga.Some?
        ensures r.tanques[i].buqueQueLoCarga != r.tanques[i2].buqueQueLoCarga
      {
        if i != k && i2 != k {
        } else if i == k {
          assert CargaBien(e.tanques[i2], e.buques);
        } else {
          assert CargaBien(e.tanques[i], e.buques);
        }
      }
      forall j | 0 <= j < |e.buques|
        ensures !e.buques[j].estado.EnCola?
      {
        assert !(e.tanques[k].estado.Libre? && e.buques[j].estado.EnCola?);
      }
      CuentaEnColaAgregar(e.buques, nuevo);
      SumaDestruidosAgregar(e.buques, nuevo);
    case None =>
      var nuevo := CrearBuque(e.buques, carga, carga, EnCola);
      assert r.buques == e.buques + [nuevo];
      assert r.tanques == e.tanques;
      forall i | 0 <= i < |r.tanques|
        ensures CargaBien(r.tanques[i], r.buques)
      {
        assert CargaBien(e.tanques[i], e.buques);
        CargaBienExtender(e.tanques[i], e.buques, nuevo);
      }
      CuentaEnColaAgregar(e.buques, nuevo);
      SumaDestruidosAgregar(e.buques, nuevo);
  }

  /** Replacing a pending arrival by another leaves every tank's agenda as it was. */
  lemma AgendaLlegada(ev: seq<Evento>, x: Evento, llegada: Evento, tanques: seq<Tanque>)
    requires AgendaTanques(ev + [x], tanques)
    requires x.idTanque.None? && llegada.idTanque.None?
    ensures AgendaTanques(ev + [llegada], tanques)
  {
    forall i | 0 <= i < |tanques|
      ensures AgendaTanque(ev + [llegada], tanques[i])
    {
      assert AgendaTanque(ev + [x], tanques[i]);
      AgendaTanqueQuitar(ev, x, tanques[i]);
      AgendaTanqueAgregar(ev, llegada, tanques[i]);
    }
  }

  /** A free tank that starts loading gets its end of pumping; the other tanks' agendas do not change. */
  lemma AgendaBombeo(ev: seq<Evento>, tanques: seq<Tanque>, k: nat, t: Tanque, bombeo: Evento)
    requires AgendaTanques(ev, tanques) && IdsTanques(tanques)
    requires k < |tanques| && tanques[k].estado.Libre?
    requires t.id == tanques[k].id && t.estado.Cargando?
    requires bombeo.tipo == FinBombeo && bombeo.idTanque == Some(t.id)
    ensures AgendaTanques(ev + [bombeo], tanques[k := t])
  {
    var nuevos := tanques[k := t];
    forall i | 0 <= i < |nuevos|
      ensures AgendaTanque(ev + [bombeo], nuevos[i])
    {
      assert AgendaTanque(ev, tanques[i]);
      if i != k {
        AgendaTanqueAgregar(ev, bombeo, tanques[i]);
      } else {
        CuentaAgregar(ev, bombeo, FinBombeo, Some(t.id));
        CuentaAgregar(ev, bombeo, FinDescarga, Some(t.id));
      }
    }
  }

  /** The one pending arrival is replaced by the next one. */
  lemma UnaLlegada(ev: seq<Evento>, x: Evento, llegada: Evento)
    requires Cuenta(ev + [x], LlegadaBuque, None) == 1
    requires x.tipo == LlegadaBuque && x.idTanque.None?
    requires llegada.tipo == LlegadaBuque && llegada.idTanque.None?
    ensures Cuenta(ev + [llegada], LlegadaBuque, None) == 1
  {
    CuentaAgregar(ev, x, LlegadaBuque, None);
    CuentaAgregar(ev, llegada, LlegadaBuque, None);
  }

  /** The pending events after an arrival: the old ones, the next arrival and, with a free tank, its end of pumping. */
  lemma LlegadaAgenda(e: Estado, exponencial: (real, real) -> real)
    requires |e.rndLlegadas| > 0 && |e.rndCargas| > 0
    ensures var r := ProcesarLlegada(e, exponencial).0;
      var llegada := Evento(LlegadaBuque, e.reloj + exponencial(e.rndLlegadas[0], TASA_LLEGADA_BUQUES), None);
      && r.reloj == e.reloj
      && (PrimerLibre(e.tanques).None? ==> r.proximosEventos == e.proximosEventos + [llegada] && r.tanques == e.tanques)
      && (PrimerLibre(e.tanques).Some? ==>
            var k := PrimerLibre(e.tanques).value;
            var carga := CargaSegunRnd(e.rndCargas[0]);
            var t := e.tanques[k].(estado := EstadoTanque.Cargando, buqueQueLoCarga := Some(|e.buques|), cargaActual := carga);
            && r.tanques == e.tanques[k := t]
            && r.proximosEventos == e.proximosEventos + [llegada]
                 + [Evento(FinBombeo, e.reloj + (carga / TASA_BOMBEO + TIEMPO_ENCENDIDO_BOMBA), Some(t.id))])
  {
  }

  /** The pending events after an arrival with no free tank: the next arrival replaces the one taken. */
  lemma EventosSinLibre(e: Estado, x: Evento, llegada: Evento, r: Estado)
    requires Valido(e.(proximosEventos := e.proximosEventos + [x])) && x.tipo.LlegadaBuque?
    requires llegada.tipo == LlegadaBuque && llegada.idTanque.None? && llegada.tiempo >= e.reloj
    requires r.proximosEventos == e.proximosEventos + [llegada] && r.tanques == e.tanques && r.reloj == e.reloj
    ensures EventosBienFormados(r) && Agenda(r) && Futuro(r)
  {
    var ev := e.proximosEventos;
    assert x in ev + [x];
    assert forall y :: y in ev ==> y in ev + [x];
    AgendaLlegada(ev, x, llegada, e.tanques);
    UnaLlegada(ev, x, llegada);
  }

  /** The pending events after an arrival that takes tank `k`: the next arrival and the tank's end of pumping. */
  lemma EventosConLibre(e: Estado, x: Evento, llegada: Evento, k: nat, t: Tanque, bombeo: Evento, r: Estado)
    requires Valido(e.(proximosEventos := e.proximosEventos + [x])) && x.tipo.LlegadaBuque?
    requires llegada.tipo == LlegadaBuque && llegada.idTanque.None? && llegada.tiempo >= e.reloj
    requires k < |e.tanques| && e.tanques[k].estado.Libre? && t.id == e.tanques[k].id && t.estado.Cargando?
    requires bombeo.tipo == FinBombeo && bombeo.idTanque == Some(t.id) && bombeo.tiempo >= e.reloj
    requires r.proximosEventos == e.proximosEventos + [llegada] + [bombeo]
    requires r.tanques == e.tanques[k := t] && r.reloj == e.reloj
    ensures EventosBienFormados(r) && Agenda(r) && Futuro(r)
  {
    var ev := e.proximosEventos;
    assert x in ev + [x];
    assert forall y :: y in ev ==> y in ev + [x];
    AgendaLlegada(ev, x, llegada, e.tanques);
    UnaLlegada(ev, x, llegada);
    AgendaBombeo(ev + [llegada], e.tanques, k, t, bombeo);
    CuentaAgregar(ev + [llegada], bombeo, LlegadaBuque, None);
    assert forall y :: y in r.proximosEventos ==> y in ev || y == llegada || y == bombeo;
  }

  lemma LlegadaEventos(e: Estado, x: Evento, exponencial: (real, real) -> real)
    requires Valido(e.(proximosEventos := e.proximosEventos + [x])) && x.tipo.LlegadaBuque?
    requires Sorteos(e) && Distribuciones.ExponencialNoNegativa(exponencial)
    ensures EventosBienFormados(ProcesarLlegada(e, exponencial).0)
    ensures Agenda(ProcesarLlegada(e, exponencial).0)
    ensures Futuro(ProcesarLlegada(e, exponencial).0)
  {
    var r := ProcesarLlegada(e, exponencial).0;
    var rnd := e.rndLlegadas[0];
    assert rnd in e.rndLlegadas;
    var llegada := Evento(LlegadaBuque, e.reloj + exponencial(rnd, TASA_LLEGADA_BUQUES), None);
    LlegadaAgenda(e, exponencial);
    match PrimerLibre(e.tanques)
    case Some(k) =>
      var carga := CargaSegunRnd(e.rndCargas[0]);
      var t := e.tanques[k].(estado := EstadoTanque.Cargando, buqueQueLoCarga := Some(|e.buques|), cargaActual := carga);
      var bombeo := Evento(FinBombeo, e.reloj + (carga / TASA_BOMBEO + TIEMPO_ENCENDIDO_BOMBA), Some(t.id));
      EventosConLibre(e, x, llegada, k, t, bombeo, r);
    case None =>
      EventosSinLibre(e, x, llegada, r);
  }

  /** An arrival keeps the invariant and the validity of the draw lists. */
  lemma LlegadaConserva(e: Estado, x: Evento, exponencial: (real, real) -> real)
    requires Valido(e.(proximosEventos := e.proximosEventos + [x])) && x.tipo.LlegadaBuque?
    requires Sorteos(e) && Distribuciones.ExponencialNoNegativa(exponencial)
    ensures Valido(ProcesarLlegada(e, exponencial).0)
    ensures Sorteos(ProcesarLlegada(e, exponencial).0)
  {
    LlegadaEstructura(e, exponencial);
    LlegadaEventos(e, x, exponencial);
    Rotado(e.rndLlegadas);
    Rotado(e.rndCargas);
  }
}
