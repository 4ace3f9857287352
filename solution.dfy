/** The decision core of the advisor (src/app/solution.rs): the per-decision
    state, its two successors, the final score, and the backward-induction
    solver that stores the best row for every reachable state. */
module Solver {
  import opened Chances

  /** Per-row counters, the source's `[u8; 3]`. */
  type Slots = r: seq<nat> | |r| == 3 witness [0, 0, 0]

  /** Per-row weights, the source's `[f64; 3]`. */
  type Weights3 = w: seq<real> | |w| == 3 witness [0.0, 0.0, 0.0]

  /** Largest `u8`: the counters and the slot count are bytes. */
  const U8Max: nat := 255

  /** `usize::MAX` on the wasm32 target the worker is built for, the index
      `lookup` reports for a terminal state. */
  const UsizeMax: nat := 0xFFFF_FFFF

  datatype Answer = Answer(index: nat, score: real)

  /** A ladder level plus the remaining slots of the three rows. */
  datatype State = State(chance: Chance, remaining: Slots)

  datatype Scoring = Scoring(success: Weights3, fail: Weights3)

  /** `ALL_CHANCES` of solution.rs: every level, lowest first. */
  const AllChances: seq<Chance> :=
    [TwentyFive, ThirtyFive, FourtyFive, FiftyFive, SixtyFive, SeventyFive]

  lemma AllChancesByLevel()
    ensures |AllChances| == 6
    ensures forall j :: 0 <= j < 6 ==> Level(AllChances[j]) == j
    ensures forall c :: AllChances[Level(c)] == c
  {
  }

  // ---------------------------------------------------------------------
  // State and transitions
  // ---------------------------------------------------------------------

  /** Slots left in all rows together; every attempt uses one. */
  function Total(s: State): nat
  {
    s.remaining[0] + s.remaining[1] + s.remaining[2]
  }

  /** No row has a slot left. */
  predicate Terminal(s: State)
  {
    s.remaining[0] == 0 && s.remaining[1] == 0 && s.remaining[2] == 0
  }

  /** Every row has at most `count` slots left. */
  predicate InSpace(s: State, count: nat)
  {
    s.remaining[0] <= count && s.remaining[1] <= count && s.remaining[2] <= count
  }

  /** `State::new`: the fresh stone with `count` slots per row at 75%. */
  function Initial(count: nat): (s: State)
    ensures s.chance == SeventyFive && Total(s) == 3 * count
    ensures InSpace(s, count) && (Terminal(s) <==> count == 0)
  {
    State(SeventyFive, [count, count, count])
  }

  /** The rows below `n` that have a slot left, in ascending order. */
  function ChoicesBelow(s: State, n: nat): seq<nat>
    requires n <= 3
  {
    if n == 0 then []
    else ChoicesBelow(s, n - 1) + (if s.remaining[n - 1] > 0 then [n - 1] else [])
  }

  lemma {:induction false} ChoicesBelowSpec(s: State, n: nat)
    requires n <= 3
    ensures forall i :: i in ChoicesBelow(s, n) <==> 0 <= i < n && s.remaining[i] > 0
    ensures forall a, b :: 0 <= a < b < |ChoicesBelow(s, n)| ==>
              ChoicesBelow(s, n)[a] < ChoicesBelow(s, n)[b]
    ensures forall a :: 0 <= a < |ChoicesBelow(s, n)| ==> ChoicesBelow(s, n)[a] < n
  {
    if n > 0 {
      ChoicesBelowSpec(s, n - 1);
    }
  }

  /** The rows that can still be chosen, in ascending order; there are
      none exactly at a terminal state. */
  function Choices(s: State): (cs: seq<nat>)
    ensures forall a :: 0 <= a < |cs| ==> cs[a] < 3 && s.remaining[cs[a]] > 0
    ensures cs == [] <==> Terminal(s)
  {
    ChoicesBelowSpec(s, 3);
    var cs := ChoicesBelow(s, 3);
    assert !Terminal(s) ==> (0 in cs || 1 in cs || 2 in cs);
    assert |cs| > 0 ==> cs[0] in cs;
    cs
  }

  /** The choices are exactly the rows with a slot left, in ascending
      order. */
  lemma ChoicesSpec(s: State)
    ensures forall i :: i in Choices(s) <==> 0 <= i < 3 && s.remaining[i] > 0
    ensures forall a, b :: 0 <= a < b < |Choices(s)| ==> Choices(s)[a] < Choices(s)[b]
  {
    ChoicesBelowSpec(s, 3);
  }

  /** `State::available_choices`: the loop that pushes each row with a slot
      left onto the output. */
  method AvailableChoices(s: State) returns (out: seq<nat>)
    ensures out == Choices(s)
  {
    out := [];
    for i := 0 to 3
      invariant out == ChoicesBelow(s, i)
    {
      if s.remaining[i] > 0 {
        out := out + [i];
      }
    }
  }

  /** `State::transition`: both successors use one slot of the chosen row;
      success steps the ladder down and failure steps it up. */
  function Transition(s: State, choice: nat): (r: (State, State))
    requires choice < 3 && s.remaining[choice] > 0
    ensures r.0.remaining[choice] == s.remaining[choice] - 1
    ensures r.1.remaining == r.0.remaining
    ensures forall j :: 0 <= j < 3 && j != choice ==> r.0.remaining[j] == s.remaining[j]
    ensures r.0.chance == Down(s.chance) && r.1.chance == Up(s.chance)
    ensures Total(r.0) == Total(s) - 1 && Total(r.1) == Total(s) - 1
    ensures LexLess(r.0.remaining, s.remaining)
    ensures forall count: nat :: InSpace(s, count) ==> InSpace(r.0, count) && InSpace(r.1, count)
  {
    var next := s.remaining[choice := s.remaining[choice] - 1];
    (State(Down(s.chance), next), State(Up(s.chance), next))
  }

  /** `State::update` in place: one slot of `choice` is used, and the attempt
      succeeds when the uniform draw falls below the current chance. The
      random draw is a parameter. */
  method Update(s: State, choice: nat, draw: real) returns (next: State, succeeded: bool)
    requires choice < 3 && s.remaining[choice] > 0
    ensures succeeded <==> draw < AsReal(s.chance)
    ensures next == if succeeded then Transition(s, choice).0 else Transition(s, choice).1
  {
    next := s.(remaining := s.remaining[choice := s.remaining[choice] - 1]);
    if draw < AsReal(next.chance) {
      next := next.(chance := Down(next.chance));
      succeeded := true;
    } else {
      next := next.(chance := Up(next.chance));
      succeeded := false;
    }
  }

  // ---------------------------------------------------------------------
  // Final score
  // ---------------------------------------------------------------------

  /** `Scoring::eval`: every success of row i is worth `success[i]` and each
      of the other `count - scores[i]` attempts is worth `fail[i]`. */
  function Eval(sc: Scoring, scores: Slots, count: nat): real
  {
    sc.success[0] * scores[0] as real
    + sc.success[1] * scores[1] as real
    + sc.success[2] * scores[2] as real
    + sc.fail[0] * (count as real - scores[0] as real)
    + sc.fail[1] * (count as real - scores[1] as real)
    + sc.fail[2] * (count as real - scores[2] as real)
  }

  /** Number of successes recorded in a row of outcomes. */
  function Successes(row: seq<bool>): (n: nat)
    ensures n <= |row|
  {
    if row == [] then 0
    else Successes(row[..|row| - 1]) + (if row[|row| - 1] then 1 else 0)
  }

  /** Reward of a row of outcomes of row i, attempt by attempt. */
  function RowReward(sc: Scoring, i: nat, row: seq<bool>): real
    requires i < 3
  {
    if row == [] then 0.0
    else RowReward(sc, i, row[..|row| - 1])
         + (if row[|row| - 1] then sc.success[i] else sc.fail[i])
  }

  lemma {:induction false} RowRewardClosedForm(sc: Scoring, i: nat, row: seq<bool>, count: nat)
    requires i < 3 && |row| == count
    ensures RowReward(sc, i, row) == RowScore(sc, i, Successes(row), count)
  {
    if row != [] {
      var init := row[..|row| - 1];
      RowRewardClosedForm(sc, i, init, count - 1);
      var n := Successes(init) as real;
      var c := (count - 1) as real;
      if row[|row| - 1] {
        assert sc.success[i] * (n + 1.0) == sc.success[i] * n + sc.success[i];
        assert sc.fail[i] * (c + 1.0 - (n + 1.0)) == sc.fail[i] * (c - n);
      } else {
        assert sc.fail[i] * (c + 1.0 - n) == sc.fail[i] * (c - n) + sc.fail[i];
      }
    }
  }

  /** `eval` of the success counts of a finished stone (every row used all
      `count` slots) is the sum of the rewards of its attempts. */
  lemma EvalIsPlayReward(sc: Scoring, rows: seq<seq<bool>>, scores: Slots, count: nat)
    requires |rows| == 3
    requires |rows[0]| == count && |rows[1]| == count && |rows[2]| == count
    requires scores[0] == Successes(rows[0]) && scores[1] == Successes(rows[1])
    requires scores[2] == Successes(rows[2])
    ensures Eval(sc, scores, count)
            == RowReward(sc, 0, rows[0]) + RowReward(sc, 1, rows[1]) + RowReward(sc, 2, rows[2])
  {
    RowRewardClosedForm(sc, 0, rows[0], count);
    RowRewardClosedForm(sc, 1, rows[1], count);
    RowRewardClosedForm(sc, 2, rows[2], count);
    EvalByRows(sc, scores, count);
  }

  /** `eval` is a sum of one term per row. */
  lemma EvalByRows(sc: Scoring, scores: Slots, count: nat)
    ensures Eval(sc, scores, count)
            == RowScore(sc, 0, scores[0], count) + RowScore(sc, 1, scores[1], count)
               + RowScore(sc, 2, scores[2], count)
  {
  }

  /** The share of row i in `eval`. */
  function RowScore(sc: Scoring, i: nat, successes: nat, count: nat): real
    requires i < 3
  {
    sc.success[i] * successes as real + sc.fail[i] * (count as real - successes as real)
  }

  // ---------------------------------------------------------------------
  // Reference definition of the optimal policy
  // ---------------------------------------------------------------------

  /** The order `sort_by` uses: by score, and on equal scores the higher
      index first. */
  predicate SortsBefore(a: Answer, b: Answer)
  {
    a.score < b.score || (a.score == b.score && b.index < a.index)
  }

  /** The candidate that sorting puts last, so the one `pop` returns. */
  function Greatest(cands: seq<Answer>): Answer
    requires |cands| > 0
  {
    if |cands| == 1 then cands[0]
    else
      var w := Greatest(cands[..|cands| - 1]);
      var last := cands[|cands| - 1];
      if SortsBefore(w, last) then last else w
  }

  /** What sort-then-pop returns: a candidate with the highest score and,
      among those, the lowest index. */
  lemma {:induction false} GreatestIsBest(cands: seq<Answer>)
    requires |cands| > 0
    ensures Greatest(cands) in cands
    ensures forall a :: a in cands ==> a.score <= Greatest(cands).score
    ensures forall a :: a in cands && a.score == Greatest(cands).score ==>
              Greatest(cands).index <= a.index
  {
    if |cands| > 1 {
      var init := cands[..|cands| - 1];
      GreatestIsBest(init);
      assert cands == init + [cands[|cands| - 1]];
    }
  }

  /** Expectation of an attempt at level c worth `onSuccess` when it
      succeeds and `onFail` when it fails, one level at a time. */
  function Mix(c: Chance, onSuccess: real, onFail: real): real
  {
    match c
    case TwentyFive => 0.25 * onSuccess + 0.75 * onFail
    case ThirtyFive => 0.35 * onSuccess + 0.65 * onFail
    case FourtyFive => 0.45 * onSuccess + 0.55 * onFail
    case FiftyFive => 0.55 * onSuccess + 0.45 * onFail
    case SixtyFive => 0.65 * onSuccess + 0.35 * onFail
    case SeventyFive => 0.75 * onSuccess + 0.25 * onFail
  }

  /** The weighting the solver writes: `pSuccess·a + pFail·b`. */
  function Weigh(pSuccess: real, pFail: real, onSuccess: real, onFail: real): real
  {
    pSuccess * onSuccess + pFail * onFail
  }

  /** `Mix` is the solver's weighting with `pSuccess` the success
      probability of the level and `pFail = 1 − pSuccess`. */
  lemma MixIsWeighted(c: Chance, onSuccess: real, onFail: real)
    ensures Mix(c, onSuccess, onFail) == Weigh(AsReal(c), 1.0 - AsReal(c), onSuccess, onFail)
  {
  }

  /** Expected future score of attempting row i at state s and playing
      optimally afterwards. */
  function Expected(sc: Scoring, s: State, i: nat): real
    requires i < 3 && s.remaining[i] > 0
    decreases Total(s), 0, 0
  {
    var t := Transition(s, i);
    Mix(s.chance, sc.success[i] + Value(sc, t.0), sc.fail[i] + Value(sc, t.1))
  }

  /** One answer per row in `cs`, in the order of `cs`. */
  function Candidates(sc: Scoring, s: State, cs: seq<nat>): seq<Answer>
    requires forall k :: 0 <= k < |cs| ==> cs[k] < 3 && s.remaining[cs[k]] > 0
    decreases Total(s), 0, |cs|
  {
    if cs == [] then []
    else
      var i := cs[|cs| - 1];
      Candidates(sc, s, cs[..|cs| - 1]) + [Answer(i, Expected(sc, s, i))]
  }

  /** The answer the solver stores for a non-terminal state. */
  function Best(sc: Scoring, s: State): Answer
    requires !Terminal(s)
    decreases Total(s), 1
  {
    Greatest(Candidates(sc, s, Choices(s)))
  }

  /** The value of a state: 0 when no slot is left. */
  function Value(sc: Scoring, s: State): real
    decreases Total(s), 2
  {
    if Terminal(s) then 0.0 else Best(sc, s).score
  }

  /** `Expected` in terms of the values of the two successors. */
  lemma ExpectedFromValues(sc: Scoring, s: State, i: nat, successValue: real, failValue: real)
    requires i < 3 && s.remaining[i] > 0
    requires successValue == Value(sc, Transition(s, i).0)
    requires failValue == Value(sc, Transition(s, i).1)
    ensures Expected(sc, s, i) == Mix(s.chance, sc.success[i] + successValue, sc.fail[i] + failValue)
  {
  }

  /** Scoring one more row appends one answer. */
  lemma CandidatesSnoc(sc: Scoring, s: State, cs: seq<nat>, n: nat)
    requires n < |cs|
    requires forall k :: 0 <= k < |cs| ==> cs[k] < 3 && s.remaining[cs[k]] > 0
    ensures Candidates(sc, s, cs[..n + 1])
            == Candidates(sc, s, cs[..n]) + [Answer(cs[n], Expected(sc, s, cs[n]))]
  {
    assert cs[..n + 1][..n] == cs[..n];
  }

  lemma {:induction false} CandidatesAt(sc: Scoring, s: State, cs: seq<nat>)
    requires forall k :: 0 <= k < |cs| ==> cs[k] < 3 && s.remaining[cs[k]] > 0
    ensures |Candidates(sc, s, cs)| == |cs|
    ensures forall k :: 0 <= k < |cs| ==>
              Candidates(sc, s, cs)[k] == Answer(cs[k], Expected(sc, s, cs[k]))
  {
    if cs != [] {
      CandidatesAt(sc, s, cs[..|cs| - 1]);
    }
  }

  /** The stored answer is an available row whose expected score is the
      largest over all available rows, the lowest such row on a tie, and the
      answer's score is that row's expected score. */
  lemma BestIsOptimal(sc: Scoring, s: State)
    requires !Terminal(s)
    ensures Best(sc, s).index < 3 && s.remaining[Best(sc, s).index] > 0
    ensures Best(sc, s).score == Expected(sc, s, Best(sc, s).index)
    ensures forall i: nat :: i < 3 && s.remaining[i] > 0 ==> Expected(sc, s, i) <= Best(sc, s).score
    ensures forall i: nat :: i < 3 && s.remaining[i] > 0 && Expected(sc, s, i) == Best(sc, s).score ==>
              Best(sc, s).index <= i
  {
    ChoicesSpec(s);
    var cs := Choices(s);
    var cands := Candidates(sc, s, cs);
    CandidatesAt(sc, s, cs);
    GreatestIsBest(cands);
    var g := Greatest(cands);
    var k :| 0 <= k < |cands| && cands[k] == g;
    assert g.index == cs[k];
    forall i: nat | i < 3 && s.remaining[i] > 0
      ensures Expected(sc, s, i) <= g.score
      ensures Expected(sc, s, i) == g.score ==> g.index <= i
    {
      var m :| 0 <= m < |cs| && cs[m] == i;
      assert cands[m] in cands;
    }
  }

  /** The sort followed by `pop`: the candidate that sorts last. */
  method PopGreatest(scores: seq<Answer>) returns (best: Answer)
    requires |scores| > 0
    ensures best == Greatest(scores)
  {
    best := scores[0];
    for n := 1 to |scores|
      invariant best == Greatest(scores[..n])
    {
      assert scores[..n + 1][..n] == scores[..n];
      if SortsBefore(best, scores[n]) {
        best := scores[n];
      }
    }
    assert scores[..|scores|] == scores;
  }

  // ---------------------------------------------------------------------
  // The odometer order
  // ---------------------------------------------------------------------

  /** Lexicographic order on remaining-slot triples: the order in which the
      odometer of `build_impl` visits them. */
  predicate LexLess(a: Slots, b: Slots)
  {
    a[0] < b[0] || (a[0] == b[0] && (a[1] < b[1] || (a[1] == b[1] && a[2] < b[2])))
  }

  /** `a · b` as repeated addition: being recursive, it is unfolded only on
      demand, which keeps the odometer proofs free of nonlinear arithmetic. */
  function Mul(a: nat, b: nat): (p: nat)
    ensures a == 0 || b == 0 <==> p == 0
  {
    if a == 0 then 0 else Mul(a - 1, b) + b
  }

  lemma {:induction false} MulIsProduct(a: nat, b: nat)
    ensures Mul(a, b) == a * b
  {
    if a > 0 {
      MulIsProduct(a - 1, b);
    }
  }

  /** Position of a triple in odometer order, digits in base k. */
  function Code(r: Slots, k: nat): nat
  {
    Mul(Mul(r[0], k) + r[1], k) + r[2]
  }

  lemma CodeZero(r: Slots, k: nat)
    requires k > 0
    ensures Code(r, k) == 0 <==> r[0] == 0 && r[1] == 0 && r[2] == 0
  {
  }

  lemma CodeCarry(a: nat, b: nat, k: nat)
    requires k > 0
    ensures Code([a, b + 1, 0], k) == Code([a, b, k - 1], k) + 1
    ensures Code([a + 1, 0, 0], k) == Code([a, k - 1, k - 1], k) + 1
  {
    assert Mul(a * 0 + Mul(a, k) + b + 1, k) == Mul(Mul(a, k) + b, k) + k;
    assert Mul(a + 1, k) == Mul(a, k) + k;
    assert Mul(Mul(a, k) + k, k) == Mul(Mul(a, k) + k - 1, k) + k;
  }

  lemma CodeLast(k: nat)
    requires k > 0
    ensures Code([k - 1, k - 1, k - 1], k) == k * k * k - 1
  {
    MulIsProduct(k - 1, k);
    MulIsProduct((k - 1) * k + k - 1, k);
    assert ((k - 1) * k + k - 1) * k + k - 1 == (k * k - 1) * k + k - 1;
    assert (k * k - 1) * k == k * k * k - k;
  }

  /** `next` is the triple the odometer of `build_impl` moves to from `cur`
      when digits run over `[0, count]`. */
  predicate NextTriple(cur: Slots, next: Slots, count: nat)
  {
    || (cur[2] < count && next[0] == cur[0] && next[1] == cur[1] && next[2] == cur[2] + 1)
    || (cur[2] == count && cur[1] < count && next[0] == cur[0] && next[1] == cur[1] + 1 && next[2] == 0)
    || (cur[2] == count && cur[1] == count && next[0] == cur[0] + 1 && next[1] == 0 && next[2] == 0)
  }

  /** The map holds exactly the in-range non-terminal states whose triple
      is lexicographically below `upTo`, or also equal to it when `through`. */
  ghost predicate StoredUpTo(m: map<State, Answer>, upTo: Slots, count: nat, through: bool)
  {
    forall s :: s in m <==>
      InSpace(s, count) && !Terminal(s) && (LexLess(s.remaining, upTo) || (through && s.remaining == upTo))
  }

  /** Six ladder levels at each non-terminal triple below `upTo`. */
  function StatesBelow(upTo: Slots, count: nat): nat
  {
    var code := Code(upTo, count + 1);
    if code == 0 then 0 else 6 * (code - 1)
  }

  /** One odometer step: the states through `cur` are the states below
      `next`, and six more (none at the all-zero triple) are counted. */
  lemma {:induction false} OdometerStep(m: map<State, Answer>, cur: Slots, next: Slots, count: nat)
    requires cur[0] <= count && cur[1] <= count && cur[2] <= count
    requires NextTriple(cur, next, count)
    requires StoredUpTo(m, cur, count, true)
    ensures StoredUpTo(m, next, count, false)
    ensures StatesBelow(next, count) == StatesBelow(cur, count) + if cur == [0, 0, 0] then 0 else 6
  {
    forall s | InSpace(s, count)
      ensures LexLess(s.remaining, next) <==> LexLess(s.remaining, cur) || s.remaining == cur
    {
      if s.remaining[0] == cur[0] && s.remaining[1] == cur[1] && s.remaining[2] == cur[2] {
        assert s.remaining == cur;
      }
    }
    CodeCarry(cur[0], cur[1], count + 1);
    CodeZero(cur, count + 1);
  }

  /** Through the last triple, every in-range non-terminal state is stored,
      and there are `StateCount(count)` of them. */
  lemma {:induction false} OdometerLast(m: map<State, Answer>, cur: Slots, count: nat)
    requires cur[0] == count && cur[1] == count && cur[2] == count
    requires StoredUpTo(m, cur, count, true)
    ensures forall s :: InSpace(s, count) && !Terminal(s) ==> s in m
    ensures StateCount(count) == StatesBelow(cur, count) + if cur == [0, 0, 0] then 0 else 6
  {
    forall s | InSpace(s, count) && !Terminal(s)
      ensures s in m
    {
      if s.remaining[0] == cur[0] && s.remaining[1] == cur[1] && s.remaining[2] == cur[2] {
        assert s.remaining == cur;
      }
    }
    assert cur == [count, count, count];
    CodeLast(count + 1);
    CodeZero(cur, count + 1);
  }

  /** The odometer step of `build_impl` on its `u8` digits: `wrapped`
      exactly when the last triple has been passed. */
  method Advance(cur: Slots, count: nat) returns (next: Slots, wrapped: bool)
    requires count < U8Max
    requires cur[0] <= count && cur[1] <= count && cur[2] <= count
    ensures wrapped <==> cur[0] == count && cur[1] == count && cur[2] == count
    ensures !wrapped ==> NextTriple(cur, next, count)
    ensures !wrapped ==> next[0] <= count && next[1] <= count && next[2] <= count
  {
    next := cur;
    wrapped := false;
    next := next[2 := IncU8(next[2])];
    if next[2] > count {
      next := next[2 := 0][1 := IncU8(next[1])];
      if next[1] > count {
        next := next[1 := 0][0 := IncU8(next[0])];
        if next[0] > count {
          wrapped := true;
        }
      }
    }
  }

  /** Relative to `m0`, the map `m` holds in addition exactly the
      non-terminal states at triple `remaining` of the first `j` levels. */
  ghost predicate StoredLevels(m: map<State, Answer>, m0: map<State, Answer>, remaining: Slots, j: nat)
  {
    forall s :: s in m <==> s in m0 || (s.remaining == remaining && !Terminal(s) && Level(s.chance) < j)
  }

  /** Before level `j` at triple `remaining` is scored, its state is not
      stored yet and every state it can reach is. */
  lemma {:induction false} LevelReady(m0: map<State, Answer>, m: map<State, Answer>, remaining: Slots, j: nat, count: nat)
    requires j < 6 && remaining[0] <= count && remaining[1] <= count && remaining[2] <= count
    requires StoredUpTo(m0, remaining, count, false) && StoredLevels(m, m0, remaining, j)
    ensures State(AllChances[j], remaining) !in m
    ensures forall s :: InSpace(s, count) && !Terminal(s) && LexLess(s.remaining, remaining) ==> s in m
  {
    AllChancesByLevel();
    assert !LexLess(remaining, remaining);
  }

  /** Scoring level `j` adds its state unless the triple is terminal. */
  lemma {:induction false} LevelStep(m0: map<State, Answer>, m: map<State, Answer>, m': map<State, Answer>,
                                     remaining: Slots, j: nat, count: nat)
    requires j < 6 && remaining[0] <= count && remaining[1] <= count && remaining[2] <= count
    requires StoredUpTo(m0, remaining, count, false) && StoredLevels(m, m0, remaining, j)
    requires |m| == |m0| + if remaining == [0, 0, 0] then 0 else j
    requires var st := State(AllChances[j], remaining);
             m'.Keys == if Terminal(st) then m.Keys else m.Keys + {st}
    ensures StoredLevels(m', m0, remaining, j + 1)
    ensures |m'| == |m0| + if remaining == [0, 0, 0] then 0 else j + 1
  {
    AllChancesByLevel();
    var st := State(AllChances[j], remaining);
    LevelReady(m0, m, remaining, j, count);
    assert Terminal(st) <==> remaining == [0, 0, 0];
    forall s
      ensures s in m' <==> s in m0 || (s.remaining == remaining && !Terminal(s) && Level(s.chance) < j + 1)
    {
      if s.remaining == remaining && Level(s.chance) == j {
        LevelInjective(s.chance, AllChances[j]);
        assert s == st;
      }
    }
    assert |m'.Keys| == |m'|;
    assert |m.Keys| == |m|;
  }

  /** After all six levels the triple `remaining` is stored too. */
  lemma {:induction false} LevelsDone(m0: map<State, Answer>, m: map<State, Answer>, remaining: Slots, count: nat)
    requires remaining[0] <= count && remaining[1] <= count && remaining[2] <= count
    requires StoredUpTo(m0, remaining, count, false) && StoredLevels(m, m0, remaining, 6)
    ensures StoredUpTo(m, remaining, count, true)
  {
  }

  /** The successors of a state lie below it, so once everything below its
      triple is stored, each successor is stored or terminal. */
  lemma SuccessorsStored(m: map<State, Answer>, state: State, count: nat)
    requires InSpace(state, count)
    requires forall s :: InSpace(s, count) && !Terminal(s) && LexLess(s.remaining, state.remaining) ==> s in m
    ensures forall c :: 0 <= c < 3 && state.remaining[c] > 0 ==>
              (Transition(state, c).0 in m || Terminal(Transition(state, c).0)) &&
              (Transition(state, c).1 in m || Terminal(Transition(state, c).1))
  {
    forall c | 0 <= c < 3 && state.remaining[c] > 0
      ensures Transition(state, c).0 in m || Terminal(Transition(state, c).0)
      ensures Transition(state, c).1 in m || Terminal(Transition(state, c).1)
    {
      var t := Transition(state, c);
      assert InSpace(t.0, count) && InSpace(t.1, count);
    }
  }

  /** Every stored answer is the reference answer of an in-range,
      non-terminal state. */
  ghost predicate SoundMap(m: map<State, Answer>, sc: Scoring, count: nat)
  {
    forall s :: s in m ==> InSpace(s, count) && !Terminal(s) && m[s] == Best(sc, s)
  }

  /** Storing the reference answer of a further state keeps the map sound. */
  lemma SoundInsert(m: map<State, Answer>, sc: Scoring, count: nat, s: State, a: Answer)
    requires SoundMap(m, sc, count)
    requires InSpace(s, count) && !Terminal(s) && a == Best(sc, s)
    ensures SoundMap(m[s := a], sc, count)
  {
  }

  /** `6 · ((count + 1)^3 − 1)`: every ladder level with every remaining
      triple in `[0, count]^3` except the all-zero one. */
  function StateCount(count: nat): nat
  {
    6 * ((count + 1) * (count + 1) * (count + 1) - 1)
  }

  /** A `u8` increment; the source panics on overflow. */
  function IncU8(x: nat): nat
    requires x < U8Max
  {
    x + 1
  }

  // ---------------------------------------------------------------------
  // The solver
  // ---------------------------------------------------------------------

  class Solution {
    /** The best answer of every reachable non-terminal state. */
    var optimal: map<State, Answer>
    /** Slots per row. */
    const count: nat
    /** The weights the solution was built for (not stored by the source). */
    ghost const scoring: Scoring

    /** Every stored answer is the reference answer of an in-range state. */
    ghost predicate Sound()
      reads this
    {
      SoundMap(optimal, scoring, count)
    }

    /** A finished solution: sound and complete. */
    ghost predicate Valid()
      reads this
    {
      && Sound()
      && (forall s :: InSpace(s, count) && !Terminal(s) ==> s in optimal)
      && |optimal| == StateCount(count)
    }

    /** `lookup` does not trip its assertion on `s`. */
    ghost predicate Resolved(s: State)
      reads this
    {
      s in optimal || Terminal(s)
    }

    /** `Solution::build`. */
    constructor Build(sc: Scoring, count: nat)
      requires count < U8Max
      ensures this.count == count && scoring == sc
      ensures Valid()
    {
      this.count := count;
      scoring := sc;
      optimal := map[];
      new;
      BuildImpl(sc);
    }

    /** `Solution::lookup`: the stored answer, or score 0 for a terminal
        state; a missing non-terminal state is an assertion failure in the
        source, so here it is excluded by the precondition. */
    function Lookup(s: State): (a: Answer)
      reads this
      requires Sound() && Resolved(s)
      ensures a.score == Value(scoring, s)
      ensures Terminal(s) ==> a.index == UsizeMax
      ensures !Terminal(s) ==> a == Best(scoring, s)
    {
      if s in optimal then optimal[s] else Answer(UsizeMax, 0.0)
    }

    /** Number of stored states. */
    function NumStates(): (n: nat)
      reads this
      requires Valid()
      ensures n == StateCount(count)
    {
      |optimal|
    }

    /** The score `build_impl` gives row `index` of `state`: the weighted
        sum of the row's reward plus the stored value of each successor. */
    method RowCandidate(sc: Scoring, state: State, index: nat) returns (score: real)
      requires sc == scoring && Sound()
      requires index < 3 && state.remaining[index] > 0
      requires Resolved(Transition(state, index).0) && Resolved(Transition(state, index).1)
      ensures score == Expected(scoring, state, index)
    {
      var probSuccess := AsReal(state.chance);
      var probFail := 1.0 - probSuccess;
      var t := Transition(state, index);
      var successAnswer := Lookup(t.0);
      var failAnswer := Lookup(t.1);
      score := Weigh(probSuccess, probFail, sc.success[index] + successAnswer.score,
                     sc.fail[index] + failAnswer.score);
      ExpectedFromValues(sc, state, index, successAnswer.score, failAnswer.score);
      MixIsWeighted(state.chance, sc.success[index] + successAnswer.score, sc.fail[index] + failAnswer.score);
    }

    /** The body of the per-level loop of `build_impl` for one non-terminal
        state: score every available row from its two successors' stored
        values, then sort and pop. */
    method BestAnswer(sc: Scoring, state: State, choices: seq<nat>) returns (best: Answer)
      requires sc == scoring && Sound()
      requires choices == Choices(state) && choices != []
      requires forall c :: 0 <= c < 3 && state.remaining[c] > 0 ==>
                 Resolved(Transition(state, c).0) && Resolved(Transition(state, c).1)
      ensures best == Best(scoring, state)
    {
      var scores: seq<Answer> := [];
      for n := 0 to |choices|
        invariant scores == Candidates(sc, state, choices[..n])
      {
        var index := choices[n];
        var score := RowCandidate(sc, state, index);
        CandidatesSnoc(sc, state, choices, n);
        scores := scores + [Answer(index, score)];
      }
      assert choices[..|choices|] == choices;
      best := PopGreatest(scores);
    }

    /** One pass of the per-level loop of `build_impl`: a state without an
        available row is skipped; any other gets its best answer, computed
        from its successors, which lie lexicographically below it. */
    method StoreState(sc: Scoring, state: State)
      requires sc == scoring && Sound() && InSpace(state, count) && state !in optimal
      requires forall s :: InSpace(s, count) && !Terminal(s) && LexLess(s.remaining, state.remaining) ==>
                 s in optimal
      modifies this
      ensures Sound()
      ensures optimal.Keys == if Terminal(state) then old(optimal).Keys else old(optimal).Keys + {state}
    {
      var choices := AvailableChoices(state);
      if |choices| == 0 {
        return;
      }
      SuccessorsStored(optimal, state, count);
      var best := BestAnswer(sc, state, choices);
      SoundInsert(optimal, sc, count, state, best);
      optimal := optimal[state := best];
    }

    /** One turn of the odometer in `build_impl`: store the answer of every
        ladder level at triple `remaining`, skipping the terminal triple. */
    method StoreTriple(sc: Scoring, remaining: Slots)
      requires sc == scoring && Sound()
      requires remaining[0] <= count && remaining[1] <= count && remaining[2] <= count
      requires StoredUpTo(optimal, remaining, count, false)
      modifies this
      ensures Sound() && StoredUpTo(optimal, remaining, count, true)
      ensures |optimal| == |old(optimal)| + if remaining == [0, 0, 0] then 0 else 6
    {
      for j := 0 to 6
        invariant Sound()
        invariant StoredLevels(optimal, old(optimal), remaining, j)
        invariant |optimal| == |old(optimal)| + if remaining == [0, 0, 0] then 0 else j
      {
        var state := State(AllChances[j], remaining);
        LevelReady(old(optimal), optimal, remaining, j, count);
        ghost var before := optimal;
        StoreState(sc, state);
        LevelStep(old(optimal), before, optimal, remaining, j, count);
      }
      LevelsDone(old(optimal), optimal, remaining, count);
    }

    /** `Solution::build_impl`: an odometer over `remaining` in `[0, count]^3`
        in lexicographic order; each state's successors are lexicographically
        smaller, so already stored when it is scored. */
    method BuildImpl(sc: Scoring)
      requires sc == scoring && count < U8Max && optimal == map[]
      modifies this
      ensures Valid()
    {
      var remaining: Slots := [0, 0, 0];
      while true
        invariant remaining[0] <= count && remaining[1] <= count && remaining[2] <= count
        invariant Sound() && StoredUpTo(optimal, remaining, count, false)
        invariant |optimal| == StatesBelow(remaining, count)
        decreases count + 1 - remaining[0], count + 1 - remaining[1], count + 1 - remaining[2]
      {
        StoreTriple(sc, remaining);
        var next, wrapped := Advance(remaining, count);
        if wrapped {
          OdometerLast(optimal, remaining, count);
          break;
        }
        OdometerStep(optimal, remaining, next, count);
        remaining := next;
      }
    }
  }

  /** The solver never recommends a row without a slot left, and what it
      recommends is optimal among the rows that have one. */
  lemma RecommendsAvailable(sol: Solution, s: State)
    requires sol.Valid() && s in sol.optimal
    ensures sol.optimal[s].index < 3 && s.remaining[sol.optimal[s].index] > 0
    ensures forall i: nat :: i < 3 && s.remaining[i] > 0 ==>
              Expected(sol.scoring, s, i) <= sol.optimal[s].score
  {
    BestIsOptimal(sol.scoring, s);
  }

  /** Building twice with the same weights and slot count gives the same
      table: a finished solution is determined by its inputs. */
  lemma BuildIsDeterministic(a: Solution, b: Solution)
    requires a.Valid() && b.Valid() && a.scoring == b.scoring && a.count == b.count
    ensures a.optimal == b.optimal
  {
    assert a.optimal.Keys == b.optimal.Keys;
  }
}
