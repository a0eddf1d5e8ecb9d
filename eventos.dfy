/**
 * The pending-event list of src/services/simulacion.ts. Each step sorts the
 * list with `Array.prototype.sort` (stable) by `tiempo` and shifts off the head;
 * new events are appended with `push`.
 */
module Eventos {
  import opened Wrappers

  datatype TipoEvento = InicioSimulacion | LlegadaBuque | FinBombeo | FinDescarga | FinSimulacion

  /** An event; `idTanque` is absent for ship arrivals. */
  datatype Evento = Evento(tipo: TipoEvento, tiempo: real, idTanque: Option<nat>)

  predicate Ordenado(s: seq<Evento>)
  {
    forall i, j :: 0 <= i < j < |s| ==> s[i].tiempo <= s[j].tiempo
  }

  /**
   * Puts `x` in front of the first element whose time is not smaller: where a
   * stable sort places an element that preceded all of `s`.
   */
  function Insertar(x: Evento, s: seq<Evento>): (r: seq<Evento>)
    ensures multiset(r) == multiset(s) + multiset{x}
  {
    if s == [] || x.tiempo <= s[0].tiempo then [x] + s
    else
      assert s == [s[0]] + s[1..];
      [s[0]] + Insertar(x, s[1..])
  }

  lemma {:induction false} InsertarOrdenado(x: Evento, s: seq<Evento>)
    requires Ordenado(s)
    ensures Ordenado(Insertar(x, s))
  {
    if s != [] && x.tiempo > s[0].tiempo {
      InsertarOrdenado(x, s[1..]);
      var t := Insertar(x, s[1..]);
      forall j | 0 <= j < |t|
        ensures s[0].tiempo <= t[j].tiempo
      {
        assert t[j] in multiset(t);
        if t[j] != x {
          assert t[j] in multiset(s[1..]);
          var i :| 0 <= i < |s[1..]| && s[1..][i] == t[j];
          assert s[i + 1] == t[j];
        }
      }
      assert Insertar(x, s) == [s[0]] + t;
    }
  }

  /** The stable sort by `tiempo` of line 184, written as an insertion sort. */
  function Ordenar(s: seq<Evento>): (r: seq<Evento>)
    ensures multiset(r) == multiset(s)
    ensures |r| == |s|
    ensures Ordenado(r)
  {
    if s == [] then []
    else
      assert s == [s[0]] + s[1..];
      InsertarOrdenado(s[0], Ordenar(s[1..]));
      Insertar(s[0], Ordenar(s[1..]))
  }

  /**
   * Sorting a sorted list changes nothing, so sorting the list twice in one
   * step (once when the pending events are dumped, line 162, and again at
   * line 184) is the same as sorting it once.
   */
  lemma {:induction false} OrdenarOrdenado(s: seq<Evento>)
    requires Ordenado(s)
    ensures Ordenar(s) == s
  {
    if s != [] {
      assert Ordenado(s[1..]);
      OrdenarOrdenado(s[1..]);
      assert s == [s[0]] + s[1..];
    }
  }

  /** The events of `s` whose time is `t`, in order. */
  function ConTiempo(s: seq<Evento>, t: real): seq<Evento>
  {
    if s == [] then [] else (if s[0].tiempo == t then [s[0]] else []) + ConTiempo(s[1..], t)
  }

  lemma {:induction false} ConTiempoInsertar(x: Evento, s: seq<Evento>, t: real)
    ensures ConTiempo(Insertar(x, s), t) == (if x.tiempo == t then [x] else []) + ConTiempo(s, t)
  {
    if s == [] || x.tiempo <= s[0].tiempo {
      ConTiempoCons(x, s, t);
    } else {
      var u := s[1..];
      ConTiempoInsertar(x, u, t);
      ConTiempoCons(s[0], Insertar(x, u), t);
      assert s == [s[0]] + u;
      ConTiempoCons(s[0], u, t);
      var c := ConTiempo(u, t);
      if x.tiempo == t {
        calc {
          ConTiempo(Insertar(x, s), t);
          ConTiempo([s[0]] + Insertar(x, u), t);
          [] + ([x] + c);
          [x] + ([] + c);
        }
      } else {
        assert ConTiempo(Insertar(x, s), t) == (if s[0].tiempo == t then [s[0]] else []) + ([] + c);
      }
    }
  }

  lemma ConTiempoCons(y: Evento, s: seq<Evento>, t: real)
    ensures ConTiempo([y] + s, t) == (if y.tiempo == t then [y] else []) + ConTiempo(s, t)
  {
    assert ([y] + s)[1..] == s;
  }

  /**
   * The sort is stable: for every time, the events with that time come out in
   * the order they had in the list.
   */
  lemma {:induction false} OrdenarEstable(s: seq<Evento>, t: real)
    ensures ConTiempo(Ordenar(s), t) == ConTiempo(s, t)
  {
    if s != [] {
      OrdenarEstable(s[1..], t);
      ConTiempoInsertar(s[0], Ordenar(s[1..]), t);
    }
  }

  /** The position of the first event with the smallest time. */
  function PrimerMinimo(s: seq<Evento>): (k: nat)
    requires |s| > 0
    ensures k < |s|
    ensures forall j :: 0 <= j < |s| ==> s[k].tiempo <= s[j].tiempo
    ensures forall j :: 0 <= j < k ==> s[j].tiempo > s[k].tiempo
  {
    if |s| == 1 then 0
    else
      var k := 1 + PrimerMinimo(s[1..]);
      if s[k].tiempo < s[0].tiempo then k else 0
  }

  /** After sorting, the head is the first event with the smallest time. */
  lemma {:induction false} OrdenarCabeza(s: seq<Evento>)
    requires |s| > 0
    ensures Ordenar(s)[0] == s[PrimerMinimo(s)]
  {
    if |s| > 1 {
      OrdenarCabeza(s[1..]);
      var o := Ordenar(s[1..]);
      assert o[0] == s[1 + PrimerMinimo(s[1..])];
    }
  }

  /**
   * Lines 184-185, sort then shift: the first event with the smallest time,
   * and the other events, sorted.
   */
  function Extraer(s: seq<Evento>): (r: (Evento, seq<Evento>))
    requires |s| > 0
    ensures r.0 == s[PrimerMinimo(s)]
    ensures multiset(r.1) + multiset{r.0} == multiset(s)
    ensures Ordenado(r.1)
    ensures forall y :: y in r.1 ==> r.0.tiempo <= y.tiempo
  {
    var o := Ordenar(s);
    OrdenarCabeza(s);
    assert o == [o[0]] + o[1..];
    assert multiset(o) == multiset{o[0]} + multiset(o[1..]);
    (o[0], o[1..])
  }

  /** Extracting is sorting and splitting off the head. */
  lemma ExtraerOrdena(s: seq<Evento>)
    requires |s| > 0
    ensures Extraer(s) == (Ordenar(s)[0], Ordenar(s)[1..])
  {
  }

  // ---------------------------------------------------------------------------
  // Counting pending events
  // ---------------------------------------------------------------------------

  /** How many events of `s` have this type and this tank id. */
  function Cuenta(s: seq<Evento>, tipo: TipoEvento, id: Option<nat>): nat
  {
    if s == [] then 0
    else (if s[0].tipo == tipo && s[0].idTanque == id then 1 else 0) + Cuenta(s[1..], tipo, id)
  }

  function Coincide(x: Evento, tipo: TipoEvento, id: Option<nat>): nat
  {
    if x.tipo == tipo && x.idTanque == id then 1 else 0
  }

  lemma {:induction false} CuentaConcat(a: seq<Evento>, b: seq<Evento>, tipo: TipoEvento, id: Option<nat>)
    ensures Cuenta(a + b, tipo, id) == Cuenta(a, tipo, id) + Cuenta(b, tipo, id)
  {
    if a == [] {
      assert a + b == b;
    } else {
      CuentaConcat(a[1..], b, tipo, id);
      assert (a + b)[1..] == a[1..] + b;
    }
  }

  lemma CuentaAgregar(a: seq<Evento>, x: Evento, tipo: TipoEvento, id: Option<nat>)
    ensures Cuenta(a + [x], tipo, id) == Cuenta(a, tipo, id) + Coincide(x, tipo, id)
  {
    CuentaConcat(a, [x], tipo, id);
  }

  lemma {:induction false} CuentaInsertar(x: Evento, s: seq<Evento>, tipo: TipoEvento, id: Option<nat>)
    ensures Cuenta(Insertar(x, s), tipo, id) == Coincide(x, tipo, id) + Cuenta(s, tipo, id)
  {
    if s == [] || x.tiempo <= s[0].tiempo {
      assert ([x] + s)[1..] == s;
    } else {
      CuentaInsertar(x, s[1..], tipo, id);
      assert ([s[0]] + Insertar(x, s[1..]))[1..] == Insertar(x, s[1..]);
    }
  }

  lemma {:induction false} CuentaOrdenar(s: seq<Evento>, tipo: TipoEvento, id: Option<nat>)
    ensures Cuenta(Ordenar(s), tipo, id) == Cuenta(s, tipo, id)
  {
    if s != [] {
      CuentaOrdenar(s[1..], tipo, id);
      CuentaInsertar(s[0], Ordenar(s[1..]), tipo, id);
    }
  }

  /** Extracting the head removes exactly one event from every count it belongs to. */
  lemma CuentaExtraer(s: seq<Evento>, tipo: TipoEvento, id: Option<nat>)
    requires |s| > 0
    ensures Cuenta(Extraer(s).1, tipo, id) + Coincide(Extraer(s).0, tipo, id) == Cuenta(s, tipo, id)
  {
    CuentaOrdenar(s, tipo, id);
    OrdenarCabeza(s);
  }

  /** An event of the list is counted under its own type and tank. */
  lemma {:induction false} CuentaMiembro(s: seq<Evento>, k: nat)
    requires k < |s|
    ensures Cuenta(s, s[k].tipo, s[k].idTanque) >= 1
  {
    if k > 0 {
      CuentaMiembro(s[1..], k - 1);
    }
  }

  /** An absent event type and tank pair is counted zero times. */
  lemma {:induction false} CuentaAusente(s: seq<Evento>, tipo: TipoEvento, id: Option<nat>)
    requires forall k :: 0 <= k < |s| ==> !(s[k].tipo == tipo && s[k].idTanque == id)
    ensures Cuenta(s, tipo, id) == 0
  {
    if s != [] {
      CuentaAusente(s[1..], tipo, id);
    }
  }

  /** Line 463: the position of the first pending event naming tank `id`. */
  function PrimerEventoDe(s: seq<Evento>, id: nat): (r: Option<nat>)
    ensures r.Some? ==> r.value < |s| && s[r.value].idTanque == Some(id)
    ensures r.Some? ==> forall j :: 0 <= j < r.value ==> s[j].idTanque != Some(id)
    ensures r.None? ==> forall j :: 0 <= j < |s| ==> s[j].idTanque != Some(id)
  {
    if s == [] then None
    else if s[0].idTanque == Some(id) then Some(0)
    else match PrimerEventoDe(s[1..], id)
      case Some(k) => Some(k + 1)
      case None => None
  }
}
