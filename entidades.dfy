/**
 * Ships, tanks and the hard-coded rates of src/services/simulacion.ts
 * (lines 3-27 and 127-154), with the `find`/`filter` scans the engine runs
 * over the ship and tank lists.
 */
module Entidades {
  import opened Wrappers
  import SimulationTypes

  /** Mean time between ship arrivals, in hours (passed as the mean of `exponencial`). */
  const TASA_LLEGADA_BUQUES: real := 0.125
  /** Tonnes per hour pumped from a ship into a tank. */
  const TASA_BOMBEO: real := 10000.0
  /** Hours to start the pump. */
  const TIEMPO_ENCENDIDO_BOMBA: real := 0.5
  /** Tonnes per hour discharged from a tank to the refinery. */
  const TASA_DESCARGA: real := 4000.0

  datatype EstadoBuque = Cargando | EnCola | Destruido

  datatype Buque = Buque(id: nat, estado: EstadoBuque, cargaInicial: real, cargaActual: real)

  datatype EstadoTanque = Libre | Cargando | Descargando

  /**
   * A coastal tank. `buqueQueLoCarga` is the ship object pumping into it; the
   * model holds that reference as the ship's position in the engine's ship list.
   */
  datatype Tanque = Tanque(
    id: nat,
    estado: EstadoTanque,
    cargaInicial: real,
    cargaActual: real,
    buqueQueLoCarga: Option<nat>)

  /** Ship ids are 1, 2, ... in list order. */
  predicate IdsBuques(buques: seq<Buque>)
  {
    forall i :: 0 <= i < |buques| ==> buques[i].id == i + 1
  }

  /** Tank ids are 1, 2, ... in list order. */
  predicate IdsTanques(tanques: seq<Tanque>)
  {
    forall i :: 0 <= i < |tanques| ==> tanques[i].id == i + 1
  }

  /** `crearBuque`: the id is the list length plus one, so appending keeps the numbering. */
  function CrearBuque(buques: seq<Buque>, cargaActual: real, cargaInicial: real, estado: EstadoBuque): (b: Buque)
    ensures IdsBuques(buques) ==> IdsBuques(buques + [b])
    ensures forall i :: 0 <= i < |buques| && IdsBuques(buques) ==> buques[i].id != b.id
  {
    Buque(|buques| + 1, estado, cargaInicial, cargaActual)
  }

  /** `crearTanque`: the id is the list length plus one, so appending keeps the numbering. */
  function CrearTanque(tanques: seq<Tanque>, cargaActual: real, cargaInicial: real, estado: EstadoTanque,
                       buqueQueLoCarga: Option<nat>): (t: Tanque)
    ensures IdsTanques(tanques) ==> IdsTanques(tanques + [t])
    ensures forall i :: 0 <= i < |tanques| && IdsTanques(tanques) ==> tanques[i].id != t.id
  {
    Tanque(|tanques| + 1, estado, cargaInicial, cargaActual, buqueQueLoCarga)
  }

  /** The load chosen by the load draw (lines 232-238): three bins of width one third. */
  function CargaSegunRnd(rnd: real): (carga: real)
    ensures var cargas := SimulationTypes.DEFAULT_PARAMETERS.shipLoads;
      carga == cargas.0 || carga == cargas.1 || carga == cargas.2
    ensures carga == 15000.0 <==> rnd <= 1.0 / 3.0
    ensures carga == 20000.0 <==> 1.0 / 3.0 < rnd <= 2.0 / 3.0
    ensures carga == 25000.0 <==> 2.0 / 3.0 < rnd
  {
    if rnd <= 1.0 / 3.0 then 15000.0
    else if rnd <= 2.0 / 3.0 then 20000.0
    else 25000.0
  }

  /** A larger draw never gives a smaller ship; the bin edges at 1/3 and 2/3 belong to the lower bin. */
  lemma CargaSegunRndMonotona(r1: real, r2: real)
    requires r1 <= r2
    ensures CargaSegunRnd(r1) <= CargaSegunRnd(r2)
    ensures CargaSegunRnd(1.0 / 3.0) == 15000.0 && CargaSegunRnd(2.0 / 3.0) == 20000.0
  {
  }

  /** `tanques.find((t) => t.estado === "libre")`, as a position. */
  function PrimerLibre(tanques: seq<Tanque>): (r: Option<nat>)
    ensures r.Some? ==> r.value < |tanques| && tanques[r.value].estado.Libre?
    ensures r.Some? ==> forall j :: 0 <= j < r.value ==> !tanques[j].estado.Libre?
    ensures r.None? ==> forall j :: 0 <= j < |tanques| ==> !tanques[j].estado.Libre?
  {
    if tanques == [] then None
    else if tanques[0].estado.Libre? then Some(0)
    else match PrimerLibre(tanques[1..])
      case Some(k) => Some(k + 1)
      case None => None
  }

  /** `tanques.find((t) => t.id === idTanque)`, as a position; an absent id matches no tank. */
  function BuscarTanque(tanques: seq<Tanque>, idTanque: Option<nat>): (r: Option<nat>)
    ensures r.Some? ==> r.value < |tanques| && Some(tanques[r.value].id) == idTanque
    ensures r.Some? ==> forall j :: 0 <= j < r.value ==> Some(tanques[j].id) != idTanque
    ensures r.None? ==> forall j :: 0 <= j < |tanques| ==> Some(tanques[j].id) != idTanque
  {
    if tanques == [] then None
    else if Some(tanques[0].id) == idTanque then Some(0)
    else match BuscarTanque(tanques[1..], idTanque)
      case Some(k) => Some(k + 1)
      case None => None
  }

  /** With ids 1..N in order, the tank with id `n` is at position `n - 1`, and any other id finds nothing. */
  lemma BuscarTanquePorId(tanques: seq<Tanque>, idTanque: Option<nat>)
    requires IdsTanques(tanques)
    ensures idTanque.Some? && 1 <= idTanque.value <= |tanques| ==> BuscarTanque(tanques, idTanque) == Some(idTanque.value - 1)
    ensures !(idTanque.Some? && 1 <= idTanque.value <= |tanques|) ==> BuscarTanque(tanques, idTanque).None?
  {
    if idTanque.Some? && 1 <= idTanque.value <= |tanques| {
      assert tanques[idTanque.value - 1].id == idTanque.value;
    }
  }

  /** `buques.find((b) => b.estado === "enCola")`, as a position: the queue is served in creation order. */
  function PrimerEnCola(buques: seq<Buque>): (r: Option<nat>)
    ensures r.Some? ==> r.value < |buques| && buques[r.value].estado.EnCola?
    ensures r.Some? ==> forall j :: 0 <= j < r.value ==> !buques[j].estado.EnCola?
    ensures r.None? ==> forall j :: 0 <= j < |buques| ==> !buques[j].estado.EnCola?
  {
    if buques == [] then None
    else if buques[0].estado.EnCola? then Some(0)
    else match PrimerEnCola(buques[1..])
      case Some(k) => Some(k + 1)
      case None => None
  }

  /** `buques.filter((b) => b.estado === "enCola").length`. */
  function CuentaEnCola(buques: seq<Buque>): (n: nat)
    ensures n <= |buques|
    ensures n == 0 <==> forall j :: 0 <= j < |buques| ==> !buques[j].estado.EnCola?
  {
    if buques == [] then 0
    else (if buques[0].estado.EnCola? then 1 else 0) + CuentaEnCola(buques[1..])
  }
}
