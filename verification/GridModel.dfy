/** The grid's data frames, the resource constants of a grid model, and the change table. */
module GridModel {
  import opened Reals
  import opened Tables

  datatype Bus = Bus(zone: int, interconnect: string, lat: real, lon: real, baseKV: real, pd: real)

  datatype Substation = Substation(lat: real, lon: real, interconnect: string)

  datatype BusToSub = BusToSub(sub: int, interconnect: string)

  /** Dividing a reactance by a zero factor leaves the finite numbers. */
  datatype Reactance = Finite(value: real) | NotFinite {
    function DividedBy(f: real): Reactance {
      if this.NotFinite? || f == 0.0 then NotFinite else Finite(value / f)
    }
  }

  datatype Branch = Branch(fromBus: int, toBus: int, rateA: real, x: Reactance, interconnect: string,
                           fromZone: int, toZone: int)

  datatype DcLine = DcLine(fromBus: int, toBus: int, pmin: real, pmax: real, status: int,
                           fromInterconnect: string, toInterconnect: string)

  datatype Plant = Plant(bus: int, resource: string, zone: int, interconnect: string, pmin: real, pmax: real)

  /** A MATPOWER cost row: `model` is 1 (piecewise linear) or 2 (polynomial). */
  datatype GenCost = GenCost(model: int, n: int, c2: real, c1: real, c0: real)

  /** One row of the plant table with its row of the cost table. */
  datatype Unit = Unit(plant: Plant, cost: GenCost)

  datatype StorageGen = StorageGen(bus: int, pmin: real, pmax: real)

  datatype StorageData = StorageData(unitIdx: int, initial: real, minLevel: real, maxLevel: real,
                                     terminalMin: real, terminalMax: real, price: real,
                                     inEff: real, outEff: real, lossFactor: real)

  /** What a new storage unit gets where its entry says nothing. */
  datatype StorageDefaults = StorageDefaults(duration: real, minStor: real, maxStor: real, energyValue: real,
                                             inEff: real, outEff: real, lossFactor: real,
                                             terminalMin: real, terminalMax: real)

  /** The resource sets of a grid model. */
  datatype Resources = Resources(all: set<string>, thermal: set<string>, profile: set<string>,
                                 groups: map<string, set<string>>, pminShare: map<string, Option<real>>)

  datatype Grid = Grid(
    bus: Table<Bus>, sub: Table<Substation>, bus2sub: Table<BusToSub>,
    branch: Table<Branch>, dcline: Table<DcLine>,
    plant: Table<Plant>, gencost: Table<GenCost>,
    storageGen: seq<StorageGen>, storageData: seq<StorageData>, storageDefaults: StorageDefaults,
    zones: set<int>, resources: Resources)

  /** Distances (between buses, and from a bus to a base plant) and per-voltage reactances come from outside. */
  datatype Geography = Geography(
    distance: (Bus, Bus) -> real,
    plantDistance: (Bus, int) -> real,
    reactancePerDistance: (Table<Bus>, Table<Branch>) -> map<real, real>)

  datatype NewBus = NewBus(lat: real, lon: real, zone: int, pd: real, baseKV: real)

  datatype NewLine = NewLine(fromBus: int, toBus: int, pmin: real, pmax: real)

  datatype CostTerms = CostTerms(c0: real, c1: real, c2: real)

  datatype NewPlant = NewPlant(bus: int, resource: string, pmin: real, pmax: real,
                               terms: Option<CostTerms>, neighbor: Option<int>)

  datatype NewStorage = NewStorage(bus: int, capacity: real, duration: real, minStor: real, maxStor: real,
                                   energyValue: real, inEff: real, outEff: real, lossFactor: real,
                                   terminalMin: real, terminalMax: real)

  /** The `zone_id` and `plant_id` (or `branch_id`) sub-dictionaries of one change-table key. */
  datatype Factors = Factors(zone: map<int, real>, id: map<int, real>)

  /** The change table. A missing key is None (or is absent from the map); an empty list is Some([]). */
  datatype Changes = Changes(
    capacity: map<string, Factors>, cost: map<string, Factors>, pmin: map<string, Factors>,
    branch: Option<Factors>, dcline: Option<map<int, real>>,
    newBus: Option<seq<NewBus>>, newBranch: Option<seq<NewLine>>, newDcline: Option<seq<NewLine>>,
    newPlant: Option<seq<NewPlant>>, storage: Option<seq<NewStorage>>,
    removeBranch: Option<set<int>>, removeBus: Option<set<int>>)

  const NO_CHANGES := Changes(map[], map[], map[], None, None, None, None, None, None, None, None, None)

  function OrEmpty<T>(o: Option<seq<T>>): seq<T> {
    if o.Some? then o.value else []
  }

  function OrNone(o: Option<set<int>>): set<int> {
    if o.Some? then o.value else {}
  }
}
