/**
 * What a reachable state of the simulation satisfies, stated as predicates on
 * `Motor.Estado`, with the counting lemmas the preservation proofs use.
 */
module Invariantes {
  import opened Wrappers
  import opened Eventos
  import opened Entidades
  import opened Motor

  // ---------------------------------------------------------------------------
  // Counting ships
  // ---------------------------------------------------------------------------

  function EnColaN(b: Buque): nat { if b.estado.EnCola? then 1 else 0 }

  /** The load a ship has delivered: all of it once destroyed, none before. */
  function Aporte(b: Buque): real { if b.estado.Destruido? then b.cargaActual else 0.0 }

  /** The tonnes carried by the destroyed ships of the list. */
  function SumaDestruidos(buques: seq<Buque>): real
  {
    if buques == [] then 0.0 else Aporte(buques[0]) + SumaDestruidos(buques[1..])
  }

  lemma {:induction false} CuentaEnColaAgregar(buques: seq<Buque>, b: Buque)
    ensures CuentaEnCola(buques + [b]) == CuentaEnCola(buques) + EnColaN(b)
  {
    if buques == [] {
      assert buques + [b] == [b];
    } else {
      assert (buques + [b])[1..] == buques[1..] + [b];
      CuentaEnColaAgregar(buques[1..], b);
    }
  }

  lemma {:induction false} CuentaEnColaCambiar(buques: seq<Buque>, j: nat, b: Buque)
    requires j < |buques|
    ensures CuentaEnCola(buques[j := b]) + EnColaN(buques[j]) == CuentaEnCola(buques) + EnColaN(b)
  {
    if j > 0 {
      assert buques[j := b][1..] == buques[1..][j - 1 := b];
      CuentaEnColaCambiar(buques[1..], j - 1, b);
    }
  }

  lemma {:induction false} SumaDestruidosAgregar(buques: seq<Buque>, b: Buque)
    ensures SumaDestruidos(buques + [b]) == SumaDestruidos(buques) + Aporte(b)
  {
    if buques == [] {
      assert buques + [b] == [b];
    } else {
      assert (buques + [b])[1..] == buques[1..] + [b];
      SumaDestruidosAgregar(buques[1..], b);
    }
  }

  lemma {:induction false} SumaDestruidosCambiar(buques: seq<Buque>, j: nat, b: Buque)
    requires j < |buques|
    ensures SumaDestruidos(buques[j := b]) + Aporte(buques[j]) == SumaDestruidos(buques) + Aporte(b)
  {
    if j > 0 {
      assert buques[j := b][1..] == buques[1..][j - 1 := b];
      SumaDestruidosCambiar(buques[1..], j - 1, b);
    }
  }

  // ---------------------------------------------------------------------------
  // The invariant
  // ---------------------------------------------------------------------------

  predicate CargasNoNegativas(e: Estado)
  {
    && (forall i :: 0 <= i < |e.tanques| ==> e.tanques[i].cargaActual >= 0.0)
    && (forall j :: 0 <= j < |e.buques| ==> e.buques[j].cargaActual >= 0.0)
  }

  /**
   * A tank refers to a ship exactly while it is loading; that ship is in the
   * list, is itself loading and carries the tank's load.
   */
  predicate CargaBien(t: Tanque, buques: seq<Buque>)
  {
    && (t.buqueQueLoCarga.Some? <==> t.estado.Cargando?)
    && (t.buqueQueLoCarga.Some? ==>
          && t.buqueQueLoCarga.value < |buques|
          && buques[t.buqueQueLoCarga.value].estado.Cargando?
          && t.cargaActual == buques[t.buqueQueLoCarga.value].cargaActual)
  }

  /** No ship pumps into two tanks. */
  predicate RefsDistintas(tanques: seq<Tanque>)
  {
    forall i, k :: 0 <= i < |tanques| && 0 <= k < |tanques| && i != k && tanques[i].buqueQueLoCarga.Some? ==>
      tanques[i].buqueQueLoCarga != tanques[k].buqueQueLoCarga
  }

  predicate Propiedad(e: Estado)
  {
    && (forall i :: 0 <= i < |e.tanques| ==> CargaBien(e.tanques[i], e.buques))
    && RefsDistintas(e.tanques)
  }

  /** A ship waits only while every tank is busy. */
  predicate SinColaConLibre(e: Estado)
  {
    forall i, j :: 0 <= i < |e.tanques| && 0 <= j < |e.buques| ==>
      !(e.tanques[i].estado.Libre? && e.buques[j].estado.EnCola?)
  }

  /** The state apart from the pending events. */
  predicate Estructura(e: Estado)
  {
    && IdsTanques(e.tanques)
    && IdsBuques(e.buques)
    && CargasNoNegativas(e)
    && Propiedad(e)
    && SinColaConLibre(e)
    && CuentaEnCola(e.buques) <= e.colaMaxima
    && e.totalToneladasDescargadas == SumaDestruidos(e.buques)
  }

  /** An arrival names no tank; the end of pumping or of discharge names one of the `n` tanks. */
  predicate BienFormado(x: Evento, n: nat)
  {
    || (x.tipo.LlegadaBuque? && x.idTanque.None?)
    || ((x.tipo.FinBombeo? || x.tipo.FinDescarga?) && x.idTanque.Some? && 1 <= x.idTanque.value <= n)
  }

  predicate EventosBienFormados(e: Estado)
  {
    forall y :: y in e.proximosEventos ==> BienFormado(y, |e.tanques|)
  }

  /** A loading tank has one end of pumping pending and a discharging one one end of discharge. */
  predicate AgendaTanque(eventos: seq<Evento>, t: Tanque)
  {
    && Cuenta(eventos, FinBombeo, Some(t.id)) == (if t.estado.Cargando? then 1 else 0)
    && Cuenta(eventos, FinDescarga, Some(t.id)) == (if t.estado.Descargando? then 1 else 0)
  }

  predicate AgendaTanques(eventos: seq<Evento>, tanques: seq<Tanque>)
  {
    forall i :: 0 <= i < |tanques| ==> AgendaTanque(eventos, tanques[i])
  }

  /** Exactly one arrival is pending, and each busy tank's end is pending. */
  predicate Agenda(e: Estado)
  {
    && Cuenta(e.proximosEventos, LlegadaBuque, None) == 1
    && AgendaTanques(e.proximosEventos, e.tanques)
  }

  /** No pending event lies in the past. */
  predicate Futuro(e: Estado)
  {
    forall y :: y in e.proximosEventos ==> y.tiempo >= e.reloj
  }

  predicate Valido(e: Estado)
  {
    && Estructura(e)
    && EventosBienFormados(e)
    && Agenda(e)
    && Futuro(e)
  }

  /** Both draw lists are non-empty and hold draws in [0, 1). */
  predicate Sorteos(e: Estado)
  {
    && |e.rndLlegadas| > 0 && |e.rndCargas| > 0
    && (forall r :: r in e.rndLlegadas ==> 0.0 <= r < 1.0)
    && (forall r :: r in e.rndCargas ==> 0.0 <= r < 1.0)
  }
}
