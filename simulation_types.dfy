/**
 * The configuration types and defaults of src/types/simulation.ts, and
 * `generateInitialTanks`, which fills the initial-conditions form with one
 * tank per configured tank.
 */
module SimulationTypes {
  import opened Wrappers

  datatype TankStatus = Free | Loading | Unloading

  /** One tank of the initial conditions; loads in tonnes, times in hours. */
  datatype TankState = TankState(
    id: int,
    status: TankStatus,
    currentLoad: real,
    freeSpace: real,
    completionTime: Option<real>)

  datatype SimulationParameters = SimulationParameters(
    arrivalMean: real,
    pumpStartupTime: real,
    pumpingRate: real,
    dischargeRate: real,
    shipLoads: (real, real, real),
    coastalTankCapacity: real,
    simulationTime: real,
    numberOfTanks: int,
    numberOfRuns: int)

  datatype InitialConditions = InitialConditions(tanks: seq<TankState>, firstShipArrival: real)

  const DEFAULT_PARAMETERS := SimulationParameters(
    0.125, 0.5, 10000.0, 4000.0, (15000.0, 20000.0, 25000.0), 70000.0, 1000.0, 5, 1)

  const DEFAULT_INITIAL_CONDITIONS := InitialConditions(
    [ TankState(1, Free, 0.0, 70000.0, None),
      TankState(2, Free, 0.0, 70000.0, None),
      TankState(3, Unloading, 70000.0, 0.0, Some(8.0)),
      TankState(4, Loading, 25000.0, 45000.0, Some(12.0)),
      TankState(5, Loading, 45000.0, 25000.0, Some(3.5)) ],
    0.0)

  /** The tank that `generateInitialTanks` pushes for loop index `i` (which becomes its id). */
  function InitialTank(i: int): (t: TankState)
    ensures t.id == i
  {
    if i <= 2 then TankState(i, Free, 0.0, 70000.0, None)
    else if i == 3 then TankState(i, Unloading, 70000.0, 0.0, Some(8.0))
    else if i == 4 then TankState(i, Loading, 25000.0, 45000.0, Some(12.0))
    else if i == 5 then TankState(i, Loading, 45000.0, 25000.0, Some(3.5))
    else TankState(i, Free, 0.0, 70000.0, None)
  }

  /** `generateInitialTanks(numberOfTanks)`: exactly the tanks 1..numberOfTanks, in order. */
  method GenerateInitialTanks(numberOfTanks: int) returns (tanks: seq<TankState>)
    ensures |tanks| == if numberOfTanks > 0 then numberOfTanks else 0
    ensures forall k :: 0 <= k < |tanks| ==> tanks[k] == InitialTank(k + 1)
  {
    tanks := [];
    var i := 1;
    while i <= numberOfTanks
      invariant 1 <= i <= if numberOfTanks > 0 then numberOfTanks + 1 else 1
      invariant |tanks| == i - 1
      invariant forall k :: 0 <= k < |tanks| ==> tanks[k] == InitialTank(k + 1)
    {
      if i <= 2 {
        tanks := tanks + [TankState(i, Free, 0.0, 70000.0, None)];
      } else if i == 3 {
        tanks := tanks + [TankState(i, Unloading, 70000.0, 0.0, Some(8.0))];
      } else if i == 4 {
        tanks := tanks + [TankState(i, Loading, 25000.0, 45000.0, Some(12.0))];
      } else if i == 5 {
        tanks := tanks + [TankState(i, Loading, 45000.0, 25000.0, Some(3.5))];
      } else {
        tanks := tanks + [TankState(i, Free, 0.0, 70000.0, None)];
      }
      i := i + 1;
    }
  }

  /** The per-index rules: tanks 1, 2 and above 5 are free and empty; 3, 4 and 5 have fixed states. */
  lemma InitialTankRules(i: int)
    requires i >= 1
    ensures i <= 2 || i > 5 ==> InitialTank(i) == TankState(i, Free, 0.0, 70000.0, None)
    ensures i == 3 ==> InitialTank(i).status == Unloading && InitialTank(i).currentLoad == 70000.0
                       && InitialTank(i).completionTime == Some(8.0)
    ensures i == 4 ==> InitialTank(i).status == Loading && InitialTank(i).currentLoad == 25000.0
                       && InitialTank(i).completionTime == Some(12.0)
    ensures i == 5 ==> InitialTank(i).status == Loading && InitialTank(i).currentLoad == 45000.0
                       && InitialTank(i).completionTime == Some(3.5)
  {
  }

  /**
   * Every generated tank fills the 70000 t capacity with load plus free space,
   * and has a completion time exactly when it is not free.
   */
  lemma InitialTankConsistent(i: int)
    ensures InitialTank(i).currentLoad + InitialTank(i).freeSpace == DEFAULT_PARAMETERS.coastalTankCapacity
    ensures InitialTank(i).completionTime.Some? <==> InitialTank(i).status != Free
    ensures InitialTank(i).completionTime.Some? ==> InitialTank(i).completionTime.value > 0.0
  {
  }

  /** For five tanks the generator reproduces the default initial conditions. */
  lemma DefaultTanksGenerated()
    ensures |DEFAULT_INITIAL_CONDITIONS.tanks| == DEFAULT_PARAMETERS.numberOfTanks
    ensures forall k :: 0 <= k < 5 ==> DEFAULT_INITIAL_CONDITIONS.tanks[k] == InitialTank(k + 1)
  {
  }
}
