/** The editable game state of the advisor (src/app/widgets/game_state.rs):
    the current success chance, the number of slots per row and, for each of
    the three rows, the outcomes recorded so far. The rendering of `show` is
    not modelled; its effects on the state are, one user action at a time. */
module GameStates {
  import opened Chances

  /** `Row`'s capacity: the largest entry of `ALL_NUM_SLOTS`. */
  const RowCapacity: nat := 16

  /** The slot counts the "Total Slots" combo box offers. */
  const AllNumSlots: seq<nat> := [2, 3, 4, 5, 6, 7, 8, 9, 10, 11, 12, 13, 14, 15, 16]

  /** The levels the "Success Chance" combo box offers, highest first. */
  const ComboChances: seq<Chance> :=
    [SeventyFive, SixtyFive, FiftyFive, FourtyFive, ThirtyFive, TwentyFive]

  /** The combo box offers every level, once, in strictly falling order of
      probability. */
  lemma ComboChancesDescending()
    ensures forall c :: c in ComboChances
    ensures forall a, b :: 0 <= a < b < |ComboChances| ==>
              AsReal(ComboChances[b]) < AsReal(ComboChances[a])
  {
    assert forall k :: 0 <= k < 6 ==> Level(ComboChances[k]) == 5 - k;
    forall c
      ensures c in ComboChances
    {
      LevelInjective(c, ComboChances[5 - Level(c)]);
    }
    forall a, b | 0 <= a < b < |ComboChances|
      ensures AsReal(ComboChances[b]) < AsReal(ComboChances[a])
    {
      AsRealMonotone(ComboChances[b], ComboChances[a]);
    }
  }

  /** The number of slots the default state starts with. */
  const DefaultNumSlots: nat := 8

  /** A copy of the game state, as `#[derive(Clone)]` produces it and as it
      is handed to the worker. */
  datatype Snapshot = Snapshot(chance: Chance, numSlots: nat, rows: seq<seq<bool>>)

  // ---------------------------------------------------------------------
  // One row, as pure steps
  // ---------------------------------------------------------------------

  /** Recording an outcome in `show_slots_row`: "+1" pushes `true` and steps
      the ladder down, "fail" pushes `false` and steps it up. */
  function RecordStep(chance: Chance, row: seq<bool>, success: bool): (r: (Chance, seq<bool>))
    ensures r.1 == row + [success]
    ensures r.0 == if success then Down(chance) else Up(chance)
  {
    if success then (Down(chance), row + [true]) else (Up(chance), row + [false])
  }

  /** The "X" button in `show_slots_row`: pop the last outcome and apply the
      opposite step; an empty row is left alone. */
  function UndoStep(chance: Chance, row: seq<bool>): (r: (Chance, seq<bool>))
    ensures row == [] ==> r == (chance, row)
    ensures row != [] ==> r.1 == row[..|row| - 1]
    ensures row != [] ==> r.0 == if row[|row| - 1] then Up(chance) else Down(chance)
  {
    if row == [] then (chance, row)
    else
      var last := row[|row| - 1];
      (if last then Up(chance) else Down(chance), row[..|row| - 1])
  }

  /** Undo after record gives the row back exactly; the chance comes back
      exactly when the recording step did not saturate. */
  lemma RecordThenUndo(chance: Chance, row: seq<bool>, success: bool)
    ensures UndoStep(RecordStep(chance, row, success).0, RecordStep(chance, row, success).1).1 == row
    ensures UndoStep(RecordStep(chance, row, success).0, RecordStep(chance, row, success).1).0 == chance
            <==> !(success && chance == TwentyFive) && !(!success && chance == SeventyFive)
  {
    var (c, r) := RecordStep(chance, row, success);
    assert r[..|r| - 1] == row;
    UpDownInverse(chance);
    Saturation(chance);
  }

  /** Undo followed by recording the popped outcome again restores a
      non-empty row exactly, and the chance unless the undo step saturated. */
  lemma UndoThenRecord(chance: Chance, row: seq<bool>)
    requires row != []
    ensures var (c, r) := UndoStep(chance, row);
            var last := row[|row| - 1];
            RecordStep(c, r, last).1 == row &&
            (RecordStep(c, r, last).0 == chance
             <==> !(last && chance == SeventyFive) && !(!last && chance == TwentyFive))
  {
    var (c, r) := UndoStep(chance, row);
    assert r + [row[|row| - 1]] == row;
    UpDownInverse(chance);
    Saturation(chance);
  }

  /** `ArrayVec::truncate`: keep at most the first `n` outcomes. */
  function Truncated(row: seq<bool>, n: nat): (r: seq<bool>)
    ensures |r| <= n && |r| <= |row|
    ensures |r| == if |row| <= n then |row| else n
    ensures r == row[..|r|]
    ensures |row| <= n ==> r == row
  {
    if |row| <= n then row else row[..n]
  }

  // ---------------------------------------------------------------------
  // The state, edited in place
  // ---------------------------------------------------------------------

  class GameState {
    var chance: Chance
    var numSlots: nat
    /** `rows: [Row; 3]`: one `ArrayVec<bool, 16>` per row. */
    const rows: array<seq<bool>>

    /** Three rows, each within the `ArrayVec` capacity, and a slot count
        the combo box offers. */
    ghost predicate Valid()
      reads this, rows
    {
      && rows.Length == 3
      && numSlots in AllNumSlots
      && (forall i :: 0 <= i < 3 ==> |rows[i]| <= RowCapacity)
    }

    /** No row holds more outcomes than there are slots. */
    ghost predicate Fits()
      reads this, rows
      requires rows.Length == 3
    {
      forall i :: 0 <= i < 3 ==> |rows[i]| <= numSlots
    }

    /** `GameState::default`: 75%, 8 slots and three empty rows. */
    constructor Default()
      ensures Valid() && Fits() && fresh(rows)
      ensures chance == SeventyFive && numSlots == DefaultNumSlots
      ensures rows[..] == [[], [], []]
    {
      chance := SeventyFive;
      numSlots := DefaultNumSlots;
      rows := new seq<bool>[3](_ => []);
    }

    /** `#[derive(Clone)]`. */
    function Clone(): (s: Snapshot)
      reads this, rows
      ensures s.chance == chance && s.numSlots == numSlots && s.rows == rows[..]
    {
      Snapshot(chance, numSlots, rows[..])
    }

    /** The "Success Chance" combo box: any offered level may be picked. */
    method SelectChance(c: Chance)
      requires Valid() && c in ComboChances
      modifies this
      ensures Valid() && chance == c && numSlots == old(numSlots)
    {
      chance := c;
    }

    /** The "Total Slots" combo box: only the offered counts can be picked.
        The rows are not cut here; `Truncate` does that right after. */
    method SelectNumSlots(n: nat)
      requires Valid() && n in AllNumSlots
      modifies this
      ensures Valid() && numSlots == n && chance == old(chance)
    {
      numSlots := n;
    }

    /** The loop in `show` that truncates each row to `num_slots`; the
        chance is not adjusted for the outcomes that are dropped. */
    method Truncate()
      requires Valid()
      modifies rows
      ensures Valid() && Fits()
      ensures forall i :: 0 <= i < 3 ==> rows[i] == Truncated(old(rows[i]), numSlots)
    {
      for r := 0 to 3
        invariant forall i :: 0 <= i < r ==> rows[i] == Truncated(old(rows[i]), numSlots)
        invariant forall i :: r <= i < 3 ==> rows[i] == old(rows[i])
      {
        rows[r] := Truncated(rows[r], numSlots);
      }
    }

    /** Clicking "+1" (`success`) or "fail" in row `i`: the radio buttons
        exist only at position `row.len()` of the `num_slots` shown, so
        nothing is recorded in a full row. */
    method Record(i: nat, success: bool) returns (recorded: bool)
      requires Valid() && i < 3
      modifies this, rows
      ensures Valid() && numSlots == old(numSlots)
      ensures recorded <==> |old(rows[i])| < numSlots
      ensures recorded ==> (chance, rows[i]) == RecordStep(old(chance), old(rows[i]), success)
      ensures !recorded ==> chance == old(chance) && rows[i] == old(rows[i])
      ensures forall j :: 0 <= j < 3 && j != i ==> rows[j] == old(rows[j])
      ensures old(Fits()) ==> Fits()
    {
      recorded := |rows[i]| < numSlots;
      if recorded {
        if success {
          rows[i] := rows[i] + [true];
          chance := Down(chance);
        } else {
          rows[i] := rows[i] + [false];
          chance := Up(chance);
        }
      }
    }

    /** Clicking "X" in row `i`. */
    method Undo(i: nat)
      requires Valid() && i < 3
      modifies this, rows
      ensures Valid() && numSlots == old(numSlots)
      ensures (chance, rows[i]) == UndoStep(old(chance), old(rows[i]))
      ensures forall j :: 0 <= j < 3 && j != i ==> rows[j] == old(rows[j])
      ensures old(Fits()) ==> Fits()
    {
      var row := rows[i];
      if |row| > 0 {
        var prevSuccess := row[|row| - 1];
        rows[i] := row[..|row| - 1];
        if prevSuccess {
          chance := Up(chance);
        } else {
          chance := Down(chance);
        }
      }
    }
  }
}
