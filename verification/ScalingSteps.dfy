/** Facts about one scaling step, used by the loops of the transform. */
module ScalingSteps {
  import opened GridModel
  import opened Products
  import opened TransformSpec

  /** A unit of resource `r` scaled by the factor of its zone. */
  function ZonedUnit(kind: Kind, thermal: bool, r: string, m: map<int, real>, u: Unit): (v: Unit)
    ensures v.plant == u.plant.(pmax := v.plant.pmax, pmin := v.plant.pmin)
  {
    if u.plant.resource == r && u.plant.zone in m then Scaled(kind, thermal, u, m[u.plant.zone]) else u
  }

  /** The same while the zones in `todo` are still to come. */
  ghost function ZonedSoFar(kind: Kind, thermal: bool, r: string, m: map<int, real>, todo: set<int>, u: Unit): (v: Unit)
    ensures v.plant == u.plant.(pmax := v.plant.pmax, pmin := v.plant.pmin)
  {
    if u.plant.zone in todo then u else ZonedUnit(kind, thermal, r, m, u)
  }

  /** A unit scaled by the factor of its own id. */
  function ListedUnit(kind: Kind, thermal: bool, m: map<int, real>, k: int, u: Unit): Unit {
    if k in m then Scaled(kind, thermal, u, m[k]) else u
  }

  /** `h` differs from `g` in the contents of its units at most. */
  ghost predicate OnlyUnits(g: Grid, h: Grid) {
    && h == g.(plant := h.plant, gencost := h.gencost)
    && h.plant.ids == g.plant.ids && h.gencost.ids == g.gencost.ids
    && SameIds(h) && h.plant.rows.Keys == g.plant.rows.Keys
  }

  lemma UnitsBack(g: Grid, us: map<int, Unit>)
    requires SameIds(g) && us.Keys == g.plant.rows.Keys
    ensures OnlyUnits(g, WithUnits(g, us))
    ensures forall k :: k in us ==> UnitAt(WithUnits(g, us), k) == us[k]
  {
  }

  /** A grid that differs in its units only is the one with those units put in. */
  lemma UnitsDetermine(g: Grid, h: Grid, us: map<int, Unit>)
    requires SameIds(g) && OnlyUnits(g, h) && us.Keys == g.plant.rows.Keys
    requires forall k :: k in us ==> UnitAt(h, k) == us[k]
    ensures h == WithUnits(g, us)
  {
    var w := WithUnits(g, us);
    forall k | k in us
      ensures h.plant.rows[k] == w.plant.rows[k] && h.gencost.rows[k] == w.gencost.rows[k]
    {
      assert UnitAt(h, k) == us[k];
    }
    assert h.plant.rows.Keys == w.plant.rows.Keys && h.gencost.rows.Keys == w.gencost.rows.Keys;
    assert h.plant.rows == w.plant.rows && h.gencost.rows == w.gencost.rows;
  }

  /** Scaling changes neither resources nor zones, so it changes no group. */
  lemma SamePlants(g: Grid, h: Grid, r: string, z: int)
    requires SameIds(g) && OnlyUnits(g, h)
    requires forall k :: k in h.plant.rows ==>
      UnitAt(h, k).plant.resource == UnitAt(g, k).plant.resource && UnitAt(h, k).plant.zone == UnitAt(g, k).plant.zone
    ensures HasPlants(h, r, z) <==> HasPlants(g, r, z)
  {
  }

  lemma SameZones(g: Grid, h: Grid, ct: Changes, kind: Kind, r: string)
    requires SameIds(g) && OnlyUnits(g, h)
    requires forall k :: k in h.plant.rows ==>
      UnitAt(h, k).plant.resource == UnitAt(g, k).plant.resource && UnitAt(h, k).plant.zone == UnitAt(g, k).plant.zone
    ensures ZonesMatch(h, ct, kind, r) <==> ZonesMatch(g, ct, kind, r)
  {
  }

  ghost function ZoneScaledSoFar(m: map<int, real>, todo: set<int>, b: Branch): (r: Branch)
    ensures r == b.(rateA := r.rateA, x := r.x)
  {
    if b.fromZone in todo then b else ZoneScaledBranch(m, b)
  }

  lemma SameBranches(g: Grid, h: Grid, z: int)
    requires h.branch.rows.Keys == g.branch.rows.Keys
    requires forall k :: k in h.branch.rows ==>
      h.branch.rows[k].fromZone == g.branch.rows[k].fromZone && h.branch.rows[k].toZone == g.branch.rows[k].toZone
    ensures HasBranches(h, z) <==> HasBranches(g, z)
  {
  }

  /** The zone scaling of one kind under resource `r`: only units of that resource change. */
  function ZoneKind(ct: Changes, kind: Kind, thermal: bool, r: string, u: Unit): (v: Unit)
    ensures v.plant == u.plant.(pmax := v.plant.pmax, pmin := v.plant.pmin)
  {
    if u.plant.resource == r then Scaled(kind, thermal, u, ZoneFactor(ct, kind, r, u.plant.zone)) else u
  }

  /** The three zone scalings of resource `r`. */
  function ZoneAll(ct: Changes, thermal: bool, r: string, u: Unit): (v: Unit)
    ensures v.plant == u.plant.(pmax := v.plant.pmax, pmin := v.plant.pmin)
  {
    ZoneKind(ct, MinGen, thermal, r, ZoneKind(ct, Cost, thermal, r, ZoneKind(ct, Capacity, thermal, r, u)))
  }

  function IdKind(ct: Changes, kind: Kind, thermal: bool, r: string, k: int, u: Unit): (v: Unit)
    ensures v.plant == u.plant.(pmax := v.plant.pmax, pmin := v.plant.pmin)
  {
    Scaled(kind, thermal, u, IdFactor(ct, kind, r, k))
  }

  /** The three id scalings recorded under resource `r`. */
  function IdAll(ct: Changes, thermal: bool, r: string, k: int, u: Unit): (v: Unit)
    ensures v.plant == u.plant.(pmax := v.plant.pmax, pmin := v.plant.pmin)
  {
    IdKind(ct, MinGen, thermal, r, k, IdKind(ct, Cost, thermal, r, k, IdKind(ct, Capacity, thermal, r, k, u)))
  }

  lemma ZonedIsFactor(ct: Changes, kind: Kind, thermal: bool, r: string, u: Unit)
    ensures r in Family(ct, kind) ==>
      ZonedUnit(kind, thermal, r, Family(ct, kind)[r].zone, u) == ZoneKind(ct, kind, thermal, r, u)
    ensures r !in Family(ct, kind) ==> ZoneKind(ct, kind, thermal, r, u) == u
  {
  }

  lemma ListedIsFactor(ct: Changes, kind: Kind, thermal: bool, r: string, k: int, u: Unit)
    ensures r in Family(ct, kind) ==>
      ListedUnit(kind, thermal, Family(ct, kind)[r].id, k, u) == IdKind(ct, kind, thermal, r, k, u)
    ensures r !in Family(ct, kind) ==> IdKind(ct, kind, thermal, r, k, u) == u
  {
  }

  /** The resources in `todo` are still to come. */
  ghost function ZoneDone(ct: Changes, res: Resources, todo: set<string>, u: Unit): (v: Unit)
    ensures v.plant == u.plant.(pmax := v.plant.pmax, pmin := v.plant.pmin)
  {
    if u.plant.resource in todo then u else ZoneScaled(ct, res, u)
  }

  /** Nothing is scaled yet, except that units of unknown resources never will be. */
  lemma ZoneDoneAtStart(ct: Changes, res: Resources, u: Unit)
    ensures ZoneDone(ct, res, res.all, u) == u
    ensures ZoneDone(ct, res, {}, u) == ZoneScaled(ct, res, u)
  {
  }

  lemma ZoneDoneStep(ct: Changes, res: Resources, todo: set<string>, r: string, u: Unit)
    requires r in todo && r in res.all
    ensures ZoneAll(ct, r in res.thermal, r, ZoneDone(ct, res, todo, u)) == ZoneDone(ct, res, todo - {r}, u)
  {
  }

  function Times(x: real, y: real): real { x * y }

  /** `m` followed by scalings of capacity by f1, cost by f2 and minimum generation by f3. */
  function Then(m: Multiplier, thermal: bool, f1: real, f2: real, f3: real): Multiplier {
    Multiplier(Times(m.cap, f1), Times(m.cost, f2), Times(m.pmin, f3),
               if thermal then Times(m.heat, f1) else m.heat,
               if thermal then Times(m.divisor, NonZero(f1)) else m.divisor)
  }

  function ThreeScalings(u: Unit, thermal: bool, f1: real, f2: real, f3: real): Unit {
    Scaled(MinGen, thermal, Scaled(Cost, thermal, Scaled(Capacity, thermal, u, f1), f2), f3)
  }

  lemma ThenDivides(m: Multiplier, thermal: bool, f1: real, f2: real, f3: real)
    requires m.divisor != 0.0
    ensures Then(m, thermal, f1, f2, f3).divisor != 0.0
  {
  }

  lemma Regroup(x: real, a: real, f: real, af: real)
    requires af == Times(a, f)
    ensures x * af == x * a * f
  {
  }

  lemma Regroup4(x: real, a: real, b: real, f: real, h: real, af: real, bh: real)
    requires af == Times(a, f) && bh == Times(b, h)
    ensures x * af * bh == x * a * b * f * h
  {
  }

  lemma ThenPlant(u: Unit, m: Multiplier, thermal: bool, f1: real, f2: real, f3: real)
    requires m.divisor != 0.0 && Then(m, thermal, f1, f2, f3).divisor != 0.0
    ensures Multiplied(u, Then(m, thermal, f1, f2, f3)).plant
         == ThreeScalings(Multiplied(u, m), thermal, f1, f2, f3).plant
  {
    hide Times, NonZero;
    Regroup(u.plant.pmax, m.cap, f1, Times(m.cap, f1));
    Regroup4(u.plant.pmin, m.cap, m.pmin, f1, f3, Times(m.cap, f1), Times(m.pmin, f3));
  }

  lemma ThenLinear(u: Unit, m: Multiplier, thermal: bool, f1: real, f2: real, f3: real)
    requires m.divisor != 0.0 && Then(m, thermal, f1, f2, f3).divisor != 0.0
    ensures var v := Multiplied(u, Then(m, thermal, f1, f2, f3));
      var w := ThreeScalings(Multiplied(u, m), thermal, f1, f2, f3);
      v.cost.c1 == w.cost.c1 && v.cost.c0 == w.cost.c0
  {
    hide Times, NonZero;
    Regroup(u.cost.c1, m.cost, f2, Times(m.cost, f2));
    if thermal {
      Regroup4(u.cost.c0, m.heat, m.cost, f1, f2, Times(m.heat, f1), Times(m.cost, f2));
    } else {
      Regroup(u.cost.c0 * m.heat, m.cost, f2, Times(m.cost, f2));
    }
  }

  lemma MultipliedQuadratic(u: Unit, m: Multiplier)
    requires m.divisor != 0.0
    ensures Multiplied(u, m).cost.c2 * m.divisor == u.cost.c2 * m.cost
  {
  }

  lemma RegroupQuotient(x: real, a: real, d: real, f: real, h: real, ah: real, df: real, c: real, e: real)
    requires d != 0.0 && df != 0.0 && ah == Times(a, h) && df == Times(d, NonZero(f))
    requires c * d == x * a && e * df == x * ah
    ensures f == 0.0 ==> e == c * h
    ensures f != 0.0 ==> e == c / f * h
  {
  }

  lemma TimesSkipped(x: real)
    ensures Times(x, NonZero(0.0)) == x
  {
  }

  lemma ThenQuadratic(u: Unit, m: Multiplier, thermal: bool, f1: real, f2: real, f3: real)
    requires m.divisor != 0.0 && Then(m, thermal, f1, f2, f3).divisor != 0.0
    ensures var v := Multiplied(u, Then(m, thermal, f1, f2, f3));
      var w := ThreeScalings(Multiplied(u, m), thermal, f1, f2, f3);
      v.cost.c2 == w.cost.c2
  {
    hide Times, NonZero, Multiplied;
    var n := Then(m, thermal, f1, f2, f3);
    var c, d := Multiplied(u, m).cost.c2, Multiplied(u, n).cost.c2;
    MultipliedQuadratic(u, m);
    MultipliedQuadratic(u, n);
    if thermal {
      RegroupQuotient(u.cost.c2, m.cost, m.divisor, f1, f2, n.cost, n.divisor, c, d);
    } else {
      TimesSkipped(m.divisor);
      RegroupQuotient(u.cost.c2, m.cost, m.divisor, 0.0, f2, n.cost, n.divisor, c, d);
    }
  }

  lemma ThenIsScaling(u: Unit, m: Multiplier, thermal: bool, f1: real, f2: real, f3: real)
    requires m.divisor != 0.0
    ensures Then(m, thermal, f1, f2, f3).divisor != 0.0
    ensures Multiplied(u, Then(m, thermal, f1, f2, f3)) ==
      Scaled(MinGen, thermal, Scaled(Cost, thermal, Scaled(Capacity, thermal, Multiplied(u, m), f1), f2), f3)
  {
    ThenDivides(m, thermal, f1, f2, f3);
    ThenPlant(u, m, thermal, f1, f2, f3);
    ThenLinear(u, m, thermal, f1, f2, f3);
    ThenQuadratic(u, m, thermal, f1, f2, f3);
    var v := Multiplied(u, Then(m, thermal, f1, f2, f3));
    var w := ThreeScalings(Multiplied(u, m), thermal, f1, f2, f3);
    assert v.cost == u.cost.(c0 := v.cost.c0, c1 := v.cost.c1, c2 := v.cost.c2);
    assert w.cost == u.cost.(c0 := w.cost.c0, c1 := w.cost.c1, c2 := w.cost.c2);
  }

  lemma IdScaledAtStart(ct: Changes, thermal: set<string>, k: int, u: Unit)
    ensures IdScaled(ct, {}, thermal, k, u) == u
  {
  }

  lemma FactorsGrow(ct: Changes, kind: Kind, done: set<string>, r: string, k: int)
    requires r !in done
    ensures Product(IdFactors(ct, kind, done + {r}, k)) ==
      Times(Product(IdFactors(ct, kind, done, k)), IdFactor(ct, kind, r, k))
  {
    hide IdFactor, Product;
    var m := IdFactors(ct, kind, done, k);
    ProductInsert(m, r, IdFactor(ct, kind, r, k));
    assert IdFactors(ct, kind, done + {r}, k) == m[r := IdFactor(ct, kind, r, k)];
  }

  lemma DivisorsGrow(ct: Changes, done: set<string>, r: string, k: int)
    requires r !in done
    ensures Product(Divisors(ct, done + {r}, k)) ==
      Times(Product(Divisors(ct, done, k)), NonZero(IdFactor(ct, Capacity, r, k)))
  {
    hide IdFactor, Product;
    var m := Divisors(ct, done, k);
    ProductInsert(m, r, NonZero(IdFactor(ct, Capacity, r, k)));
    assert Divisors(ct, done + {r}, k) == m[r := NonZero(IdFactor(ct, Capacity, r, k))];
  }

  lemma MultiplierGrows(ct: Changes, done: set<string>, thermal: set<string>, r: string, k: int)
    requires r !in done
    ensures IdMultiplier(ct, done + {r}, thermal, k) ==
      Then(IdMultiplier(ct, done, thermal, k), r in thermal,
           IdFactor(ct, Capacity, r, k), IdFactor(ct, Cost, r, k), IdFactor(ct, MinGen, r, k))
  {
    hide Product, IdFactor, IdFactors, Divisors, Times, NonZero;
    var more, hot := done + {r}, done * thermal;
    FactorsGrow(ct, Capacity, done, r, k);
    FactorsGrow(ct, Cost, done, r, k);
    FactorsGrow(ct, MinGen, done, r, k);
    if r in thermal {
      assert more * thermal == hot + {r};
      FactorsGrow(ct, Capacity, hot, r, k);
      DivisorsGrow(ct, hot, r, k);
    } else {
      assert more * thermal == hot;
    }
  }

  /** Adding one more resource to the closed form is applying that resource's three id scalings. */
  lemma IdScaledStep(ct: Changes, done: set<string>, thermal: set<string>, r: string, k: int, u: Unit)
    requires r !in done
    ensures IdScaled(ct, done + {r}, thermal, k, u) == IdAll(ct, r in thermal, r, k, IdScaled(ct, done, thermal, k, u))
  {
    hide Multiplied, Scaled, IdFactor, IdMultiplier;
    var m, f1, f2, f3 := IdMultiplier(ct, done, thermal, k), IdFactor(ct, Capacity, r, k), IdFactor(ct, Cost, r, k),
                         IdFactor(ct, MinGen, r, k);
    MultiplierGrows(ct, done, thermal, r, k);
    ThenIsScaling(u, m, r in thermal, f1, f2, f3);
  }

}
