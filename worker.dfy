/** The recompute state machine of the browser build (src/app/wasm_worker.rs):
    one `Inner` record, shared through a `RefCell`, holding the scoring, the
    simulation trial count, the current game state, the solution built from
    the first two and the simulation result built from all of them. Each
    update decides whether to rebuild the solution or only to rerun the
    simulation. The simulator itself is not part of this model; it is a
    parameter fixed when the worker is spawned. */
module Worker {
  import opened Options
  import opened Solver
  import opened GameStates

  /** `SimResult` of src/app.rs: one simulated outcome and how likely and
      how valuable it is. */
  datatype SimResult = SimResult(counts: Slots, probability: real, score: real)

  /** `Solution::simulate_top_10`, applied to the solution's table, the
      number of trials and the game state to start from. */
  type Simulator = (map<State, Answer>, nat, Snapshot) -> seq<SimResult>

  /** What `status` reports; the source formats these as text. */
  datatype Status = FindingSolution | Solved(states: nat) | RunningSimulations(states: nat)

  class Inner {
    var solution: Option<Solution>
    var mostLikely: Option<seq<SimResult>>
    var scoring: Option<Scoring>
    var simTries: Option<nat>
    var gameState: Snapshot
    const simulate: Simulator

    /** The solution object, when there is one. */
    ghost function Objects(): set<object>
      reads this
    {
      if solution.Some? then {solution.value} else {}
    }

    /** What the simulation would yield now. */
    function Simulated(): (r: seq<SimResult>)
      reads this, Objects()
      requires solution.Some? && simTries.Some?
      ensures r == simulate(solution.value.optimal, simTries.value, gameState)
    {
      simulate(solution.value.optimal, simTries.value, gameState)
    }

    /** Facts that hold between any two steps: a solution is complete and
        was built from some scoring, and a simulation result exists only
        next to a solution and a trial count. The slot count fits the
        odometer's byte counter. */
    ghost predicate Base()
      reads this, Objects()
    {
      && gameState.numSlots < U8Max
      && (solution.Some? ==> scoring.Some? && solution.value.Valid())
      && (mostLikely.Some? ==> solution.Some? && simTries.Some?)
    }

    /** The solution is the one for the current scoring and slot count. */
    ghost predicate SolutionCurrent()
      reads this, Objects()
    {
      && (solution.Some? <==> scoring.Some?)
      && (solution.Some? ==> solution.value.scoring == scoring.value
                             && solution.value.count == gameState.numSlots)
    }

    /** The simulation result is there exactly when it can be, and is the
        one for the current solution, trial count and game state. */
    ghost predicate SimulationCurrent()
      reads this, Objects()
    {
      && (mostLikely.Some? <==> solution.Some? && simTries.Some?)
      && (mostLikely.Some? ==> mostLikely.value == Simulated())
    }

    ghost predicate Valid()
      reads this, Objects()
    {
      Base() && SolutionCurrent() && SimulationCurrent()
    }

    /** The record `spawn` builds before its first rebuild. */
    constructor (scoring: Option<Scoring>, gameState: Snapshot, simTries: Option<nat>, simulate: Simulator)
      requires gameState.numSlots < U8Max
      ensures Base() && solution == None && mostLikely == None
      ensures this.scoring == scoring && this.gameState == gameState && this.simTries == simTries
      ensures this.simulate == simulate
    {
      solution := None;
      mostLikely := None;
      this.scoring := scoring;
      this.simTries := simTries;
      this.gameState := gameState;
      this.simulate := simulate;
    }

    /** `rebuild_solution`: without a scoring nothing changes; otherwise a
        new solution is built from the scoring and the current slot count,
        and the simulation is rerun. */
    method RebuildSolution()
      requires Base()
      modifies this
      ensures Valid()
      ensures scoring == old(scoring) && simTries == old(simTries) && gameState == old(gameState)
      ensures old(scoring).None? ==> solution == old(solution) && mostLikely == old(mostLikely)
      ensures old(scoring).Some? ==> solution.Some? && fresh(solution.value)
    {
      if scoring.None? {
        return;
      }
      var sc := scoring.value;
      var built := new Solution.Build(sc, gameState.numSlots);
      solution := Some(built);
      RerunSimulation();
    }

    /** `rerun_simulation`: without a trial count or a solution nothing
        changes; otherwise the result is recomputed. */
    method RerunSimulation()
      requires Base() && SolutionCurrent()
      modifies this
      ensures Valid()
      ensures solution == old(solution) && scoring == old(scoring)
      ensures simTries == old(simTries) && gameState == old(gameState)
      ensures simTries.None? || solution.None? ==> mostLikely == old(mostLikely)
    {
      if simTries.None? {
        return;
      }
      var tries := simTries.value;
      if solution.None? {
        return;
      }
      var s := solution.value;
      mostLikely := Some(simulate(s.optimal, tries, gameState));
    }
  }

  class ThreadHandle {
    /** `RefCell<Inner>`: borrowed for the length of each call. */
    const inner: Inner

    ghost predicate Valid()
      reads this, inner, inner.Objects()
    {
      inner.Valid()
    }

    /** `ThreadHandle::spawn`: the solution exists from the start exactly
        when a scoring is given. */
    constructor Spawn(scoring: Option<Scoring>, gameState: Snapshot, simTries: Option<nat>,
                      simulate: Simulator)
      requires gameState.numSlots < U8Max
      ensures Valid() && fresh(inner)
      ensures inner.scoring == scoring && inner.simTries == simTries
      ensures inner.gameState == gameState && inner.simulate == simulate
      ensures inner.solution.Some? <==> scoring.Some?
    {
      var state := new Inner(scoring, gameState, simTries, simulate);
      state.RebuildSolution();
      inner := state;
    }

    /** `status`: no solution yet, solved with the simulation done, or
        solved with the simulation still to come. */
    function Status(): (st: Status)
      reads this, inner, inner.Objects()
      requires Valid()
      ensures st == FindingSolution <==> inner.solution.None?
      ensures st.Solved? <==> inner.solution.Some? && inner.mostLikely.Some?
      ensures st.RunningSimulations? <==> inner.solution.Some? && inner.mostLikely.None?
      ensures st.RunningSimulations? <==> inner.solution.Some? && inner.simTries.None?
      ensures !st.FindingSolution? ==> st.states == StateCount(inner.gameState.numSlots)
    {
      match inner.solution
      case None => FindingSolution
      case Some(solution) =>
        if inner.mostLikely.Some? then Solved(solution.NumStates())
        else RunningSimulations(solution.NumStates())
    }

    /** `update_weights`: store the scoring and rebuild. */
    method UpdateWeights(sc: Scoring)
      requires Valid()
      modifies inner
      ensures Valid()
      ensures inner.scoring == Some(sc)
      ensures inner.solution.Some? && fresh(inner.solution.value)
      ensures inner.simTries == old(inner.simTries) && inner.gameState == old(inner.gameState)
      ensures old(inner.mostLikely).Some? ==> inner.mostLikely.Some?
    {
      inner.scoring := Some(sc);
      inner.RebuildSolution();
    }

    /** `update_sim_tries`: store the trial count and rerun the simulation;
        the solution and the scoring are left alone. */
    method UpdateSimTries(n: nat)
      requires Valid()
      modifies inner
      ensures Valid()
      ensures inner.simTries == Some(n)
      ensures inner.solution == old(inner.solution) && inner.scoring == old(inner.scoring)
      ensures inner.gameState == old(inner.gameState)
      ensures inner.mostLikely.Some? <==> inner.solution.Some?
    {
      inner.simTries := Some(n);
      inner.RerunSimulation();
    }

    /** `update_game_state`: store the game state; rebuild when the slot
        count changed, otherwise keep the solution and rerun only the
        simulation. */
    method UpdateGameState(gameState: Snapshot)
      requires Valid() && gameState.numSlots < U8Max
      modifies inner
      ensures Valid()
      ensures inner.gameState == gameState
      ensures inner.scoring == old(inner.scoring) && inner.simTries == old(inner.simTries)
      ensures inner.solution != old(inner.solution)
              <==> old(inner.gameState.numSlots) != gameState.numSlots && inner.scoring.Some?
      ensures old(inner.solution).Some? ==> inner.solution.Some?
      ensures old(inner.mostLikely).Some? ==> inner.mostLikely.Some?
    {
      var prevNumSlots := inner.gameState.numSlots;
      inner.gameState := gameState;
      if prevNumSlots != gameState.numSlots {
        inner.RebuildSolution();
      } else {
        inner.RerunSimulation();
      }
    }
  }
}
