/**
  The front end of pyssa's `Simulation` class: construction of a reaction
  network with its consistency check, the replicate loop of `simulate` and the
  `results` accessor. The stepping engine `direct_naive` is not part of this
  model: `Simulate` receives it as a parameter.
 */
module Pyssa {
  import opened Wrappers
  import opened Arrays

  /** The `ValueError`s the constructor raises, in the order its guards run. */
  datatype ConfigError =
    | ShapeMismatch         // react_stoic and prod_stoic differ in shape
    | NegativeReactant      // a reactant coefficient is negative
    | NegativeProduct       // a product coefficient is negative
    | NegativeInitialState  // an initial species count is negative
    | NegativeRateConstant  // a rate constant is negative
    | RateCountMismatch     // not one rate constant per reaction
    | NoReactions           // `np.max` of the empty order vector raises
    | OrderTooHigh          // some reaction has order above 3
  {
    /** The position of this error's guard in the check. */
    function Rank(): nat {
      match this
      case ShapeMismatch => 0
      case NegativeReactant => 1
      case NegativeProduct => 2
      case NegativeInitialState => 3
      case NegativeRateConstant => 4
      case RateCountMismatch => 5
      case NoReactions => 6
      case OrderTooHigh => 7
    }
  }

  /** What the guard reporting `e` demands of the constructor's arguments. */
  ghost predicate Holds(e: ConfigError, react: IntMatrix, prod: IntMatrix, initState: seq<int>, kDet: seq<real>) {
    match e
    case ShapeMismatch => prod.nrows == react.nrows && prod.ncols == react.ncols
    case NegativeReactant => NonNegativeEntries(react)
    case NegativeProduct => NonNegativeEntries(prod)
    case NegativeInitialState => forall i :: 0 <= i < |initState| ==> initState[i] >= 0
    case NegativeRateConstant => forall i :: 0 <= i < |kDet| ==> kDet[i] >= 0.0
    case RateCountMismatch => |kDet| == react.nrows
    case NoReactions => react.nrows > 0
    case OrderTooHigh => forall r :: 0 <= r < react.nrows ==> RowSum(react.rows[r]) <= 3
  }

  /**
    The consistency check of the constructor. The order of each reaction is
    the sum of its row of `react`, and the network has `react`'s row and column
    counts. The result is the error of the first guard that fails, or `None`.
   */
  function CheckConsistency(react: IntMatrix, prod: IntMatrix, initState: seq<int>, kDet: seq<real>): (err: Option<ConfigError>)
    ensures err.None? <==> forall e :: Holds(e, react, prod, initState, kDet)
    ensures err.Some? ==> !Holds(err.value, react, prod, initState, kDet)
    ensures err.Some? ==> forall e: ConfigError :: e.Rank() < err.value.Rank() ==> Holds(e, react, prod, initState, kDet)
  {
    var orders := RowSums(react);
    var err :=
      if react.nrows != prod.nrows || react.ncols != prod.ncols then Some(ShapeMismatch)
      else if AnyEntry(react, x => x < 0) then Some(NegativeReactant)
      else if AnyEntry(prod, x => x < 0) then Some(NegativeProduct)
      else if Any(initState, x => x < 0) then Some(NegativeInitialState)
      else if Any(kDet, x => x < 0.0) then Some(NegativeRateConstant)
      else if |kDet| != react.nrows then Some(RateCountMismatch)
      else if |orders| == 0 then Some(NoReactions)
      else if Max(orders) > 3 then Some(OrderTooHigh)
      else None;
    assert err.Some? ==> !Holds(err.value, react, prod, initState, kDet);
    err
  }

  /**
    A network the check accepts has the shape and sign invariants of a
    reaction network, at least one reaction, every order at most 3 and hence
    every reactant coefficient at most 3.
   */
  lemma AcceptedNetworkIsWellFormed(react: IntMatrix, prod: IntMatrix, initState: seq<int>, kDet: seq<real>)
    requires CheckConsistency(react, prod, initState, kDet).None?
    ensures prod.nrows == react.nrows && prod.ncols == react.ncols
    ensures NonNegativeEntries(react) && NonNegativeEntries(prod)
    ensures forall i :: 0 <= i < |initState| ==> initState[i] >= 0
    ensures |kDet| == react.nrows && forall i :: 0 <= i < |kDet| ==> kDet[i] >= 0.0
    ensures 0 < react.nrows
    ensures forall r :: 0 <= r < react.nrows ==> 0 <= RowSums(react)[r] <= 3
    ensures forall r, s :: 0 <= r < react.nrows && 0 <= s < react.ncols ==> react.rows[r][s] <= 3
  {
    assert Holds(ShapeMismatch, react, prod, initState, kDet);
    assert Holds(NegativeReactant, react, prod, initState, kDet);
    assert Holds(NegativeProduct, react, prod, initState, kDet);
    assert Holds(NegativeInitialState, react, prod, initState, kDet);
    assert Holds(NegativeRateConstant, react, prod, initState, kDet);
    assert Holds(RateCountMismatch, react, prod, initState, kDet);
    assert Holds(NoReactions, react, prod, initState, kDet);
    assert Holds(OrderTooHigh, react, prod, initState, kDet);
    forall r | 0 <= r < react.nrows
      ensures 0 <= RowSum(react.rows[r])
      ensures forall s :: 0 <= s < react.ncols ==> react.rows[r][s] <= 3
    {
      RowSumNonNegative(react.rows[r]);
      forall s | 0 <= s < react.ncols ensures react.rows[r][s] <= 3 {
        EntryAtMostRowSum(react.rows[r], s);
      }
    }
  }

  /** The exit status of one run of the engine, with the integer code it reports. */
  datatype Status =
    | MaxIterReached            // 1: `max_iter` iterations reached
    | MaxTimeReached            // 2: `max_t` crossed
    | AllExtinct                // 3: every species went extinct
    | InvalidOrder              // -1: an order above 3 was detected
    | ZeroPropensityNotExtinct  // -2: propensities vanished without extinction
  {
    function Code(): int {
      match this
      case MaxIterReached => 1
      case MaxTimeReached => 2
      case AllExtinct => 3
      case InvalidOrder => -1
      case ZeroPropensityNotExtinct => -2
    }

    /** The first three are successful completions, the last two failures. */
    predicate Succeeded() {
      MaxIterReached? || MaxTimeReached? || AllExtinct?
    }
  }

  /**
    Reads back an integer status code; codes the engine does not document give
    `None`. The front end never decodes a status: this function and the lemma
    after it only document the code table of `simulate`'s docstring.
   */
  function StatusOf(code: int): (s: Option<Status>)
    ensures s.Some? ==> s.value.Code() == code
    ensures s.None? ==> forall st: Status :: st.Code() != code
  {
    if code == 1 then Some(MaxIterReached)
    else if code == 2 then Some(MaxTimeReached)
    else if code == 3 then Some(AllExtinct)
    else if code == -1 then Some(InvalidOrder)
    else if code == -2 then Some(ZeroPropensityNotExtinct)
    else None
  }

  /** Every status survives the trip through its code, and success is a positive code. */
  lemma StatusCodeRoundTrip(s: Status)
    ensures StatusOf(s.Code()) == Some(s)
    ensures s.Succeeded() <==> s.Code() > 0
  {
  }

  /** The arguments of one call of the engine, in the order `simulate` passes them. */
  datatype EngineCall = EngineCall(
    reactStoic: IntMatrix,
    prodStoic: IntMatrix,
    initState: seq<int>,
    kDet: seq<real>,
    maxT: real,
    maxIter: int,
    volume: real,
    seed: int,
    chemFlag: bool)

  /** What one engine run returns: its times, its states and its exit status. */
  datatype Run = Run(t: seq<real>, x: seq<seq<int>>, status: Status)

  /**
    The stepping engine `direct_naive` as `simulate` sees it: a call with the
    arguments `c` returns `run(c)`, and every call is recorded, in order, in `log`.
   */
  class Engine {
    /** What a call returns: the engine is deterministic given its arguments, the seed included. */
    const run: EngineCall -> Run
    /** The calls made so far. */
    ghost var log: seq<EngineCall>

    constructor (run: EngineCall -> Run)
      ensures this.run == run && log == []
    {
      this.run := run;
      log := [];
    }

    /** One call of the engine. */
    method Step(c: EngineCall) returns (r: Run)
      modifies this
      ensures r == run(c)
      ensures log == old(log) + [c]
    {
      r := run(c);
      log := log + [c];
    }
  }

  /** The record `simulate` stores: the three per-replicate lists, the algorithm tag and the seeds used. */
  datatype Results = Results(
    tList: seq<seq<real>>,
    xList: seq<seq<seq<int>>>,
    statusList: seq<Status>,
    algorithm: string,
    seed: seq<int>)

  /** The `ValueError`s `simulate` raises. */
  datatype SimulateError = SeedLengthMismatch | UnsupportedAlgorithm

  /** The only algorithm tag `simulate` accepts. */
  const DirectNaive: string := "direct_naive"

  /** The seeds used when none are supplied: replicate `i` gets seed `i` (none for a count below 1). */
  function DefaultSeeds(nRep: int): (seeds: seq<int>)
    ensures |seeds| == if nRep > 0 then nRep else 0
    ensures forall i :: 0 <= i < |seeds| ==> seeds[i] == i
  {
    seq(if nRep > 0 then nRep else 0, i => i)
  }

  class Simulation {
    const reactStoic: IntMatrix
    const prodStoic: IntMatrix
    const initState: seq<int>
    const kDet: seq<real>
    const chemFlag: bool
    const volume: real
    const nr: nat
    const ns: nat
    const orders: seq<int>
    var results: Option<Results>
    /** Whether some call of `Simulate` has succeeded on this object. */
    ghost var simulated: bool

    /** A constructed object: derived fields as computed, the network accepted, results stored exactly after a successful run. */
    ghost predicate Valid()
      reads this
    {
      && nr == reactStoic.nrows && ns == reactStoic.ncols && orders == RowSums(reactStoic)
      && CheckConsistency(reactStoic, prodStoic, initState, kDet).None?
      && (results.Some? <==> simulated)
    }

    /** Stores the arguments and derives the network's size and the reaction orders. */
    constructor (react: IntMatrix, prod: IntMatrix, initState: seq<int>, kDet: seq<real>, chemFlag: bool, volume: real)
      ensures reactStoic == react && prodStoic == prod && this.initState == initState && this.kDet == kDet
      ensures this.chemFlag == chemFlag && this.volume == volume
      ensures nr == react.nrows && ns == react.ncols
      ensures |orders| == nr && forall r :: 0 <= r < nr ==> orders[r] == RowSum(react.rows[r])
      ensures results == None && !simulated
    {
      reactStoic := react;
      prodStoic := prod;
      this.initState := initState;
      this.kDet := kDet;
      this.chemFlag := chemFlag;
      nr := react.nrows;
      ns := react.ncols;
      this.volume := volume;
      orders := RowSums(react);
      results := None;
      simulated := false;
    }

    /** The engine call for one replicate: the stored network with the run's own settings and seed. */
    function Call(maxT: real, maxIter: int, volume: real, seed: int): EngineCall {
      EngineCall(reactStoic, prodStoic, initState, kDet, maxT, maxIter, volume, seed, chemFlag)
    }

    /** The engine calls for the replicates with the given seeds, in seed order. */
    function Calls(maxT: real, maxIter: int, volume: real, seeds: seq<int>): seq<EngineCall> {
      seq(|seeds|, i requires 0 <= i < |seeds| => Call(maxT, maxIter, volume, seeds[i]))
    }

    /**
      What a call of `simulate` produces: an error, or the results of one
      engine run per seed, in seed order.
     */
    function Outcome(engine: Engine, maxT: real, maxIter: int, volume: real, seed: Option<seq<int>>, nRep: int, algorithm: string)
      : (r: Result<Results, SimulateError>)
      ensures r.Failure? <==> (seed.Some? && |seed.value| != nRep) || algorithm != DirectNaive
      ensures seed.Some? && |seed.value| != nRep ==> r == Failure(SeedLengthMismatch)
      ensures !(seed.Some? && |seed.value| != nRep) && algorithm != DirectNaive ==> r == Failure(UnsupportedAlgorithm)
      ensures r.Success? ==> r.value.algorithm == algorithm
      ensures r.Success? ==> r.value.seed == if seed.Some? then seed.value else DefaultSeeds(nRep)
      ensures r.Success? ==>
        && |r.value.tList| == |r.value.seed|
        && |r.value.xList| == |r.value.seed|
        && |r.value.statusList| == |r.value.seed|
        && |r.value.seed| == if nRep > 0 then nRep else 0
      ensures r.Success? ==> forall i :: 0 <= i < |r.value.seed| ==>
        engine.run(Call(maxT, maxIter, volume, r.value.seed[i])) == Run(r.value.tList[i], r.value.xList[i], r.value.statusList[i])
    {
      if seed.Some? && nRep != |seed.value| then Failure(SeedLengthMismatch)
      else
        var seeds := if seed.Some? then seed.value else DefaultSeeds(nRep);
        if algorithm != DirectNaive then Failure(UnsupportedAlgorithm)
        else
          var runs := seq(|seeds|, i requires 0 <= i < |seeds| => engine.run(Call(maxT, maxIter, volume, seeds[i])));
          Success(Results(
            seq(|runs|, i requires 0 <= i < |runs| => runs[i].t),
            seq(|runs|, i requires 0 <= i < |runs| => runs[i].x),
            seq(|runs|, i requires 0 <= i < |runs| => runs[i].status),
            algorithm,
            seeds))
    }

    /**
      The replicate loop of `simulate`: replicate `index` calls the engine on the
      stored network with seed `seeds[index]`, for `index` from 0 up to `nRep`,
      and its time, state and status lists grow by one entry each.
     */
    method RunReplicates(engine: Engine, maxT: real, maxIter: int, volume: real, seeds: seq<int>, nRep: int)
      returns (tList: seq<seq<real>>, xList: seq<seq<seq<int>>>, statusList: seq<Status>)
      requires |seeds| == if nRep > 0 then nRep else 0
      modifies engine
      ensures engine.log == old(engine.log) + Calls(maxT, maxIter, volume, seeds)
      ensures |tList| == |seeds| && |xList| == |seeds| && |statusList| == |seeds|
      ensures forall i :: 0 <= i < |seeds| ==>
        engine.run(Call(maxT, maxIter, volume, seeds[i])) == Run(tList[i], xList[i], statusList[i])
    {
      tList, xList, statusList := [], [], [];
      var index := 0;
      while index < nRep
        invariant 0 <= index <= |seeds|
        invariant engine.log == old(engine.log) + Calls(maxT, maxIter, volume, seeds[..index])
        invariant |tList| == index && |xList| == index && |statusList| == index
        invariant forall j :: 0 <= j < index ==>
          engine.run(Call(maxT, maxIter, volume, seeds[j])) == Run(tList[j], xList[j], statusList[j])
      {
        var call := Call(maxT, maxIter, volume, seeds[index]);
        var run := engine.Step(call);
        assert Calls(maxT, maxIter, volume, seeds[..index + 1]) == Calls(maxT, maxIter, volume, seeds[..index]) + [call];
        tList := tList + [run.t];
        xList := xList + [run.x];
        statusList := statusList + [run.status];
        index := index + 1;
      }
      assert seeds[..index] == seeds;
    }

    /**
      `simulate`: checks the seeds and the algorithm tag, calls the engine once
      per seed in seed order and stores the results. On an error the engine is
      never called and the stored results stay as they were.
     */
    method Simulate(engine: Engine, maxT: real, maxIter: int, volume: real, seed: Option<seq<int>>, nRep: int, algorithm: string)
      returns (err: Option<SimulateError>)
      requires Valid()
      modifies this, engine
      ensures Valid()
      ensures var outcome := Outcome(engine, maxT, maxIter, volume, seed, nRep, algorithm);
        match outcome
        case Failure(e) =>
          err == Some(e) && results == old(results) && simulated == old(simulated) && engine.log == old(engine.log)
        case Success(res) =>
          && err == None && results == Some(res) && simulated
          && engine.log == old(engine.log) + Calls(maxT, maxIter, volume, res.seed)
    {
      var seeds: seq<int>;
      if seed.Some? {
        if nRep != |seed.value| {
          err := Some(SeedLengthMismatch);
          return;
        }
        seeds := seed.value;
      } else {
        seeds := DefaultSeeds(nRep);
      }

      if algorithm == DirectNaive {
        var tList, xList, statusList := RunReplicates(engine, maxT, maxIter, volume, seeds, nRep);
        ghost var expected := Outcome(engine, maxT, maxIter, volume, seed, nRep, algorithm).value;
        assert expected.seed == seeds;
        assert expected.tList == tList;
        assert expected.xList == xList;
        assert expected.statusList == statusList;
        results := Some(Results(tList, xList, statusList, algorithm, seeds));
        simulated := true;
        err := None;
      } else {
        err := Some(UnsupportedAlgorithm);
      }
    }

    /** The `results` property: the stored results, `None` exactly until a call of `Simulate` has succeeded. */
    method GetResults() returns (r: Option<Results>)
      requires Valid()
      ensures r == results
      ensures r.None? <==> !simulated
    {
      r := results;
    }
  }

  /**
    Constructing a `Simulation`: the object is set up and then checked; a
    failed check is the `ValueError` of the first failing guard, and no
    object is handed out.
   */
  method Create(react: IntMatrix, prod: IntMatrix, initState: seq<int>, kDet: seq<real>, chemFlag: bool, volume: real)
    returns (r: Result<Simulation, ConfigError>)
    ensures r.Failure? <==> CheckConsistency(react, prod, initState, kDet).Some?
    ensures r.Failure? ==> r.error == CheckConsistency(react, prod, initState, kDet).value
    ensures r.Success? ==>
      && fresh(r.value) && r.value.Valid()
      && r.value.reactStoic == react && r.value.prodStoic == prod
      && r.value.initState == initState && r.value.kDet == kDet
      && r.value.chemFlag == chemFlag && r.value.volume == volume
      && r.value.results == None
  {
    var sim := new Simulation(react, prod, initState, kDet, chemFlag, volume);
    var err := CheckConsistency(sim.reactStoic, sim.prodStoic, sim.initState, sim.kDet);
    if err.Some? {
      r := Failure(err.value);
    } else {
      r := Success(sim);
    }
  }

  /** Replicates given equal seeds return equal times, states and statuses. */
  lemma EqualSeedsGiveEqualReplicates(sim: Simulation, engine: Engine, maxT: real, maxIter: int, volume: real,
                                      seed: Option<seq<int>>, nRep: int, algorithm: string, i: nat, j: nat)
    requires sim.Outcome(engine, maxT, maxIter, volume, seed, nRep, algorithm).Success?
    requires i < |sim.Outcome(engine, maxT, maxIter, volume, seed, nRep, algorithm).value.seed|
    requires j < |sim.Outcome(engine, maxT, maxIter, volume, seed, nRep, algorithm).value.seed|
    requires sim.Outcome(engine, maxT, maxIter, volume, seed, nRep, algorithm).value.seed[i]
          == sim.Outcome(engine, maxT, maxIter, volume, seed, nRep, algorithm).value.seed[j]
    ensures var res := sim.Outcome(engine, maxT, maxIter, volume, seed, nRep, algorithm).value;
      res.tList[i] == res.tList[j] && res.xList[i] == res.xList[j] && res.statusList[i] == res.statusList[j]
  {
  }
}
