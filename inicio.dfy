/**
 * What `inicializarSimulacion` (src/services/simulacion.ts, lines 481-558)
 * builds, and that from sensible initial conditions it builds a valid state.
 */
module Inicio {
  import opened Wrappers
  import opened Eventos
  import opened Entidades
  import opened Motor
  import opened Invariantes
  import SimulationTypes

  /** The tank made from configuration `c`, with its stand-in ship when it is loading with a completion time. */
  predicate TanqueSegun(t: Tanque, id: nat, c: CondicionTanque, buques: seq<Buque>)
  {
    && t.id == id
    && t.estado == EstadoSegunStatus(c.status)
    && t.cargaInicial == c.currentLoad && t.cargaActual == c.currentLoad
    && (t.buqueQueLoCarga.Some? <==> c.status.Loading? && Verdadero(c.completionTime))
    && (t.buqueQueLoCarga.Some? ==>
          && t.buqueQueLoCarga.value < |buques|
          && buques[t.buqueQueLoCarga.value] ==
             Buque(t.buqueQueLoCarga.value + 1, EstadoBuque.Cargando, c.currentLoad, c.currentLoad))
  }

  /** The ends pending for tank `id`: one when its configuration has a (nonzero) completion time. */
  predicate AgendaSegun(eventos: seq<Evento>, id: nat, c: CondicionTanque)
  {
    && Cuenta(eventos, FinBombeo, Some(id)) == (if c.status.Loading? && Verdadero(c.completionTime) then 1 else 0)
    && Cuenta(eventos, FinDescarga, Some(id)) == (if c.status.Unloading? && Verdadero(c.completionTime) then 1 else 0)
  }

  /** A scheduled end is the one its tank's configuration asks for, at its completion time. */
  predicate EventoSegun(y: Evento, cs: seq<CondicionTanque>)
  {
    && y.idTanque.Some? && 1 <= y.idTanque.value <= |cs|
    && Verdadero(cs[y.idTanque.value - 1].completionTime)
    && y.tiempo == cs[y.idTanque.value - 1].completionTime.value
    && ((y.tipo.FinBombeo? && cs[y.idTanque.value - 1].status.Loading?)
        || (y.tipo.FinDescarga? && cs[y.idTanque.value - 1].status.Unloading?))
  }

  predicate CargasValidas(cs: seq<CondicionTanque>)
  {
    forall i :: 0 <= i < |cs| ==> cs[i].currentLoad >= 0.0
  }

  /** What the `forEach` of line 499 has built after the configurations `cs`. */
  predicate Construido(e: Estado, cs: seq<CondicionTanque>)
  {
    && |e.tanques| == |cs|
    && (forall i :: 0 <= i < |cs| ==> TanqueSegun(e.tanques[i], i + 1, cs[i], e.buques))
    && (forall i :: 0 <= i < |cs| ==> AgendaSegun(e.proximosEventos, i + 1, cs[i]))
    && RefsDistintas(e.tanques)
    && IdsBuques(e.buques)
    && (forall j :: 0 <= j < |e.buques| ==>
          e.buques[j].estado.Cargando? && (CargasValidas(cs) ==> e.buques[j].cargaActual >= 0.0))
    && (forall y :: y in e.proximosEventos ==> EventoSegun(y, cs))
  }

  lemma SinTanque(eventos: seq<Evento>, cs: seq<CondicionTanque>, tipo: TipoEvento)
    requires forall y :: y in eventos ==> EventoSegun(y, cs)
    ensures Cuenta(eventos, tipo, Some(|cs| + 1)) == 0
    ensures Cuenta(eventos, LlegadaBuque, None) == 0
  {
    forall k | 0 <= k < |eventos|
      ensures eventos[k].idTanque != Some(|cs| + 1) && eventos[k].idTanque != None
    {
      assert eventos[k] in eventos;
    }
    CuentaAusente(eventos, tipo, Some(|cs| + 1));
    CuentaAusente(eventos, LlegadaBuque, None);
  }

  /** The events `AgregarTanque` schedules for configuration `c` given to tank `id`. */
  function Programados(c: CondicionTanque, id: nat): seq<Evento>
  {
    if c.status.Loading? && Verdadero(c.completionTime) then [Evento(FinBombeo, c.completionTime.value, Some(id))]
    else if c.status.Unloading? && Verdadero(c.completionTime) then [Evento(FinDescarga, c.completionTime.value, Some(id))]
    else []
  }

  lemma AgregarTanqueForma(e: Estado, c: CondicionTanque)
    ensures var r := AgregarTanque(e, c);
      && r.tanques == e.tanques + [Tanque(|e.tanques| + 1, EstadoSegunStatus(c.status), c.currentLoad, c.currentLoad,
                                          if c.status.Loading? && Verdadero(c.completionTime) then Some(|e.buques|) else None)]
      && r.buques == e.buques + (if c.status.Loading? && Verdadero(c.completionTime)
                                 then [Buque(|e.buques| + 1, EstadoBuque.Cargando, c.currentLoad, c.currentLoad)] else [])
      && r.proximosEventos == e.proximosEventos + Programados(c, |e.tanques| + 1)
      && r.(proximosEventos := e.proximosEventos, buques := e.buques, tanques := e.tanques) == e
  {
  }

  lemma AgregarTanqueTanques(e: Estado, cs: seq<CondicionTanque>, c: CondicionTanque)
    requires Construido(e, cs)
    ensures var r := AgregarTanque(e, c);
      && |r.tanques| == |cs| + 1
      && (forall i :: 0 <= i < |cs| + 1 ==> TanqueSegun(r.tanques[i], i + 1, (cs + [c])[i], r.buques))
      && RefsDistintas(r.tanques)
      && IdsBuques(r.buques)
      && (forall j :: 0 <= j < |r.buques| ==>
            r.buques[j].estado.Cargando? && (CargasValidas(cs + [c]) ==> r.buques[j].cargaActual >= 0.0))
  {
    AgregarTanqueForma(e, c);
    var r := AgregarTanque(e, c);
    var cs2 := cs + [c];
    assert CargasValidas(cs2) ==> CargasValidas(cs) && c.currentLoad >= 0.0 by {
      if CargasValidas(cs2) {
        assert cs2[|cs|] == c;
        forall i | 0 <= i < |cs| ensures cs[i].currentLoad >= 0.0 { assert cs2[i] == cs[i]; }
      }
    }
    forall i | 0 <= i < |cs2|
      ensures TanqueSegun(r.tanques[i], i + 1, cs2[i], r.buques)
    {
      if i < |cs| {
        assert cs2[i] == cs[i] && r.tanques[i] == e.tanques[i];
        assert TanqueSegun(e.tanques[i], i + 1, cs[i], e.buques);
        if e.tanques[i].buqueQueLoCarga.Some? {
          assert r.buques[e.tanques[i].buqueQueLoCarga.value] == e.buques[e.tanques[i].buqueQueLoCarga.value];
        }
      }
    }
    forall i, k | 0 <= i < |r.tanques| && 0 <= k < |r.tanques| && i != k && r.tanques[i].buqueQueLoCarga.Some?
      ensures r.tanques[i].buqueQueLoCarga != r.tanques[k].buqueQueLoCarga
    {
      if i == |cs| {
        assert TanqueSegun(e.tanques[k], k + 1, cs[k], e.buques);
      } else if k == |cs| {
        assert TanqueSegun(e.tanques[i], i + 1, cs[i], e.buques);
      } else {
        assert r.tanques[i] == e.tanques[i] && r.tanques[k] == e.tanques[k];
      }
    }
  }

  lemma AgregarTanqueEventos(e: Estado, cs: seq<CondicionTanque>, c: CondicionTanque)
    requires Construido(e, cs)
    ensures var r := AgregarTanque(e, c);
      && (forall i :: 0 <= i < |cs| + 1 ==> AgendaSegun(r.proximosEventos, i + 1, (cs + [c])[i]))
      && (forall y :: y in r.proximosEventos ==> EventoSegun(y, cs + [c]))
  {
    AgregarTanqueForma(e, c);
    var r := AgregarTanque(e, c);
    var cs2 := cs + [c];
    var id := |cs| + 1;
    var ev := e.proximosEventos;
    var nuevo := Programados(c, id);
    SinTanque(ev, cs, FinBombeo);
    SinTanque(ev, cs, FinDescarga);
    forall i | 0 <= i < |cs2|
      ensures AgendaSegun(r.proximosEventos, i + 1, cs2[i])
    {
      CuentaConcat(ev, nuevo, FinBombeo, Some(i + 1));
      CuentaConcat(ev, nuevo, FinDescarga, Some(i + 1));
      if i < |cs| {
        assert cs2[i] == cs[i];
      }
    }
    forall y | y in r.proximosEventos
      ensures EventoSegun(y, cs2)
    {
      if y in ev {
        assert EventoSegun(y, cs);
        assert cs2[y.idTanque.value - 1] == cs[y.idTanque.value - 1];
      } else {
        assert y in nuevo;
        assert cs2[id - 1] == c;
      }
    }
  }

  lemma AgregarTanqueConstruye(e: Estado, cs: seq<CondicionTanque>, c: CondicionTanque)
    requires Construido(e, cs)
    ensures Construido(AgregarTanque(e, c), cs + [c])
  {
    AgregarTanqueTanques(e, cs, c);
    AgregarTanqueEventos(e, cs, c);
  }

  /** The `forEach` builds what its configurations describe, and touches nothing but tanks, ships and events. */
  lemma {:induction false} AgregarTanquesConstruye(e: Estado, cs: seq<CondicionTanque>)
    requires Construido(e, [])
    ensures Construido(AgregarTanques(e, cs), cs)
    ensures AgregarTanques(e, cs).(proximosEventos := e.proximosEventos, buques := e.buques, tanques := e.tanques) == e
  {
    if cs != [] {
      var ini := cs[..|cs| - 1];
      AgregarTanquesConstruye(e, ini);
      AgregarTanqueConstruye(AgregarTanques(e, ini), ini, cs[|cs| - 1]);
      AgregarTanqueForma(AgregarTanques(e, ini), cs[|cs| - 1]);
      assert ini + [cs[|cs| - 1]] == cs;
    }
  }

  lemma {:induction false} SumaSinDestruidos(buques: seq<Buque>)
    requires forall j :: 0 <= j < |buques| ==> !buques[j].estado.Destruido?
    ensures SumaDestruidos(buques) == 0.0
  {
    if buques != [] {
      SumaSinDestruidos(buques[1..]);
    }
  }

  /**
   * Without initial conditions the simulation starts with `numeroTanques`
   * free, empty tanks numbered from 1, no ship, the first arrival at time 0
   * as the only pending event, zeroed statistics and the draw lists untouched.
   */
  lemma InicializadoSinCondiciones(e: Estado, numeroTanques: int)
    ensures var r := Inicializado(e, numeroTanques, None);
      && |r.tanques| == (if numeroTanques > 0 then numeroTanques else 0)
      && (forall i :: 0 <= i < |r.tanques| ==> r.tanques[i] == Tanque(i + 1, Libre, 0.0, 0.0, None))
      && r.buques == []
      && r.proximosEventos == [Evento(LlegadaBuque, 0.0, None)]
      && r.reloj == 0.0 && r.numeroEvento == 0 && r.totalToneladasDescargadas == 0.0 && r.colaMaxima == 0
      && r.ultimoEventoTipo == InicioSimulacion
      && r.rndLlegadas == e.rndLlegadas && r.rndCargas == e.rndCargas
  {
  }

  /**
   * With initial conditions there is one tank per configuration, in order and
   * numbered from 1, in the configured state and load; each loading tank with a
   * completion time pumps from a stand-in ship of its load and has its end of
   * pumping pending at that time, each unloading one its end of discharge; the
   * first arrival comes last, at `firstShipArrival`;
   * `numeroTanques` is then ignored.
   */
  lemma InicializadoConCondiciones(e: Estado, numeroTanques: int, c: CondicionesIniciales)
    ensures var r := Inicializado(e, numeroTanques, Some(c));
      && |r.tanques| == |c.tanks|
      && (forall i :: 0 <= i < |c.tanks| ==> TanqueSegun(r.tanques[i], i + 1, c.tanks[i], r.buques))
      && (forall i :: 0 <= i < |c.tanks| ==> AgendaSegun(r.proximosEventos, i + 1, c.tanks[i]))
      && Cuenta(r.proximosEventos, LlegadaBuque, None) == 1
      && r.proximosEventos[|r.proximosEventos| - 1] == Evento(LlegadaBuque, c.firstShipArrival, None)
      && (forall j :: 0 <= j < |r.buques| ==> r.buques[j].estado.Cargando?)
      && r.reloj == 0.0 && r.numeroEvento == 0 && r.totalToneladasDescargadas == 0.0 && r.colaMaxima == 0
      && r.rndLlegadas == e.rndLlegadas && r.rndCargas == e.rndCargas
  {
    var base := Reiniciado(e);
    var t := AgregarTanques(base, c.tanks);
    AgregarTanquesConstruye(base, c.tanks);
    var llegada := Evento(LlegadaBuque, c.firstShipArrival, None);
    SinTanque(t.proximosEventos, c.tanks, FinBombeo);
    CuentaAgregar(t.proximosEventos, llegada, LlegadaBuque, None);
    forall i | 0 <= i < |c.tanks|
      ensures AgendaSegun(t.proximosEventos + [llegada], i + 1, c.tanks[i])
    {
      CuentaAgregar(t.proximosEventos, llegada, FinBombeo, Some(i + 1));
      CuentaAgregar(t.proximosEventos, llegada, FinDescarga, Some(i + 1));
    }
  }

  /** Tank configurations the engine can run from: no negative load, and a future completion time for every busy tank. */
  predicate TanquesValidos(cs: seq<CondicionTanque>)
  {
    && CargasValidas(cs)
    && (forall i :: 0 <= i < |cs| && !cs[i].status.Free? ==>
          cs[i].completionTime.Some? && cs[i].completionTime.value > 0.0)
  }

  /** Initial conditions the engine can run from: valid tanks and a first arrival not in the past. */
  predicate CondicionesValidas(c: CondicionesIniciales)
  {
    TanquesValidos(c.tanks) && c.firstShipArrival >= 0.0
  }

  lemma ConstruidoEstructura(t: Estado, cs: seq<CondicionTanque>)
    requires Construido(t, cs) && TanquesValidos(cs) && t.totalToneladasDescargadas == 0.0
    ensures Estructura(t)
  {
    forall i | 0 <= i < |t.tanques|
      ensures CargaBien(t.tanques[i], t.buques) && t.tanques[i].id == i + 1 && t.tanques[i].cargaActual >= 0.0
    {
      assert TanqueSegun(t.tanques[i], i + 1, cs[i], t.buques);
    }
    assert CuentaEnCola(t.buques) == 0;
    SumaSinDestruidos(t.buques);
  }

  lemma ConstruidoEventos(t: Estado, cs: seq<CondicionTanque>, llegada: Evento)
    requires Construido(t, cs) && TanquesValidos(cs) && t.reloj == 0.0
    requires llegada.tipo.LlegadaBuque? && llegada.idTanque.None? && llegada.tiempo >= 0.0
    ensures var r := t.(proximosEventos := t.proximosEventos + [llegada]);
      EventosBienFormados(r) && Agenda(r) && Futuro(r)
  {
    var ev := t.proximosEventos + [llegada];
    SinTanque(t.proximosEventos, cs, FinBombeo);
    CuentaAgregar(t.proximosEventos, llegada, LlegadaBuque, None);
    forall i | 0 <= i < |t.tanques|
      ensures AgendaTanque(ev, t.tanques[i])
    {
      assert TanqueSegun(t.tanques[i], i + 1, cs[i], t.buques);
      assert AgendaSegun(t.proximosEventos, i + 1, cs[i]);
      CuentaAgregar(t.proximosEventos, llegada, FinBombeo, Some(i + 1));
      CuentaAgregar(t.proximosEventos, llegada, FinDescarga, Some(i + 1));
    }
    forall y | y in ev
      ensures BienFormado(y, |t.tanques|) && y.tiempo >= 0.0
    {
      if y != llegada {
        assert y in t.proximosEventos;
        assert EventoSegun(y, cs);
      }
    }
  }

  lemma ConCondicionesValido(e: Estado, numeroTanques: int, c: CondicionesIniciales)
    requires CondicionesValidas(c)
    ensures Valido(Inicializado(e, numeroTanques, Some(c)))
  {
    var base := Reiniciado(e);
    var t := AgregarTanques(base, c.tanks);
    AgregarTanquesConstruye(base, c.tanks);
    ConstruidoEstructura(t, c.tanks);
    ConstruidoEventos(t, c.tanks, Evento(LlegadaBuque, c.firstShipArrival, None));
  }

  lemma SinCondicionesValido(e: Estado, numeroTanques: int)
    ensures Valido(Inicializado(e, numeroTanques, None))
  {
    InicializadoSinCondiciones(e, numeroTanques);
    var r := Inicializado(e, numeroTanques, None);
    forall i | 0 <= i < |r.tanques|
      ensures AgendaTanque(r.proximosEventos, r.tanques[i])
    {
      assert Cuenta(r.proximosEventos, FinBombeo, Some(i + 1)) == 0;
      assert Cuenta(r.proximosEventos, FinDescarga, Some(i + 1)) == 0;
    }
  }

  /**
   * Initialising from no initial conditions, or from sensible ones, gives a
   * valid state, and keeps the draws valid if they were.
   */
  lemma InicializadoValido(e: Estado, numeroTanques: int, condiciones: Option<CondicionesIniciales>)
    requires condiciones.Some? ==> CondicionesValidas(condiciones.value)
    ensures Valido(Inicializado(e, numeroTanques, condiciones))
    ensures Sorteos(e) ==> Sorteos(Inicializado(e, numeroTanques, condiciones))
  {
    match condiciones
    case None => SinCondicionesValido(e, numeroTanques);
    case Some(c) =>
      ConCondicionesValido(e, numeroTanques, c);
      InicializadoConCondiciones(e, numeroTanques, c);
  }
}
