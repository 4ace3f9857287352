/** The weights editor (src/app/widgets/weights.rs): six text fields, one
    success and one fail weight per row, turned into a `Scoring` when every
    field holds a finite number, and a presets combo box kept in step with
    the fields. Text parsing and number formatting are parameters. */
module Weights {
  import opened Options
  import opened Solver

  /** What `s.trim().parse::<f64>()` yields for one field. */
  datatype Parsed = Finite(x: real) | NonFinite | Unparseable

  datatype Preset = Preset(name: string, scoring: Scoring)

  /** `PRESETS`. */
  const Presets: seq<Preset> := [
    Preset("Balanced; slightly prefer skill 1",
           Scoring([1.1, 1.0, -1.0], [0.0, 0.0, 0.0])),
    Preset("Balanced; slightly prefer skill 2",
           Scoring([1.0, 1.1, -1.0], [0.0, 0.0, 0.0]))
  ]

  /** The index the presets combo box shows as "Custom". */
  const Custom: nat := |Presets|

  /** The text the default weights start from. */
  const DefaultSuccess: seq<string> := ["1.0", "1.5", "-1.0"]
  const DefaultFail: seq<string> := ["-1.0", "-1.0", "0.0"]

  // ---------------------------------------------------------------------
  // Fields to scoring
  // ---------------------------------------------------------------------

  /** `show_textedit`: a field counts only when it parses to a finite
      number; anything else is flagged and yields nothing. */
  function ParseField(parse: string -> Parsed, text: string): (v: Option<real>)
    ensures v.Some? <==> parse(text).Finite?
    ensures v.Some? ==> v.value == parse(text).x
  {
    match parse(text)
    case Finite(x) => Some(x)
    case _ => None
  }

  /** The three fields of one column, parsed in order. */
  function ParseColumn(parse: string -> Parsed, texts: seq<string>): (vs: seq<Option<real>>)
    requires |texts| == 3
    ensures |vs| == 3
    ensures forall i :: 0 <= i < 3 ==> vs[i] == ParseField(parse, texts[i])
  {
    [ParseField(parse, texts[0]), ParseField(parse, texts[1]), ParseField(parse, texts[2])]
  }

  /** `parsed_fields_to_scoring`: a scoring exists exactly when all six
      values do, and it holds them in place. */
  function ParsedFieldsToScoring(success: seq<Option<real>>, fail: seq<Option<real>>): (r: Option<Scoring>)
    requires |success| == 3 && |fail| == 3
    ensures r.Some? <==> (forall i :: 0 <= i < 3 ==> success[i].Some? && fail[i].Some?)
    ensures r.Some? ==> forall i :: 0 <= i < 3 ==>
      r.value.success[i] == success[i].value && r.value.fail[i] == fail[i].value
  {
    var s0 :- success[0];
    var s1 :- success[1];
    var s2 :- success[2];
    var f0 :- fail[0];
    var f1 :- fail[1];
    var f2 :- fail[2];
    Some(Scoring([s0, s1, s2], [f0, f1, f2]))
  }

  /** The six values of a scoring, wrapped as parsed fields. */
  function Fields(w: Weights3): (vs: seq<Option<real>>)
    ensures |vs| == 3
  {
    [Some(w[0]), Some(w[1]), Some(w[2])]
  }

  /** Every scoring is reached from its own six values. */
  lemma FieldsToScoringRoundTrip(sc: Scoring)
    ensures ParsedFieldsToScoring(Fields(sc.success), Fields(sc.fail)) == Some(sc)
  {
    var r := ParsedFieldsToScoring(Fields(sc.success), Fields(sc.fail));
    assert r.value.success == sc.success;
    assert r.value.fail == sc.fail;
  }

  // ---------------------------------------------------------------------
  // Presets
  // ---------------------------------------------------------------------

  /** The first preset from `k` on whose scoring is `sc`, or `Custom`. */
  function PresetIndexFrom(sc: Scoring, k: nat): (i: nat)
    requires k <= |Presets|
    ensures k <= i <= |Presets|
    ensures i < |Presets| ==> Presets[i].scoring == sc
    ensures forall j :: k <= j < i ==> Presets[j].scoring != sc
    decreases |Presets| - k
  {
    if k == |Presets| then k
    else if Presets[k].scoring == sc then k
    else PresetIndexFrom(sc, k + 1)
  }

  /** The combo box index that matches a scoring: the first preset equal
      to it, or `Custom` exactly when no preset is. */
  function PresetIndex(sc: Scoring): (i: nat)
    ensures i <= Custom
    ensures i < Custom ==> Presets[i].scoring == sc
    ensures forall j :: 0 <= j < i ==> Presets[j].scoring != sc
    ensures i == Custom <==> forall j :: 0 <= j < |Presets| ==> Presets[j].scoring != sc
  {
    PresetIndexFrom(sc, 0)
  }

  /** The presets differ pairwise, so matching a preset's own scoring
      finds that preset. */
  lemma PresetIndexOfPreset(k: nat)
    requires k < |Presets|
    ensures PresetIndex(Presets[k].scoring) == k
  {
    assert Presets[0].scoring.success[0] != Presets[1].scoring.success[0];
  }

  /** The loop in `show` that points the combo box at the matching preset. */
  method MatchPreset(sc: Scoring) returns (selected: nat)
    ensures selected == PresetIndex(sc)
  {
    var found := false;
    selected := 0;
    for i := 0 to |Presets|
      invariant !found ==> forall j :: 0 <= j < i ==> Presets[j].scoring != sc
      invariant found ==> selected < i && selected == PresetIndex(sc)
    {
      if Presets[i].scoring == sc {
        selected := i;
        found := true;
        break;
      }
    }
    if !found {
      selected := |Presets|;
    }
  }

  // ---------------------------------------------------------------------
  // The editor, updated in place
  // ---------------------------------------------------------------------

  class Weights {
    /** The text of the success and fail fields, one per row. */
    var success: seq<string>
    var fail: seq<string>

    ghost predicate Valid()
      reads this
    {
      |success| == 3 && |fail| == 3
    }

    /** `Weights::default`. */
    constructor Default()
      ensures Valid()
      ensures success == DefaultSuccess && fail == DefaultFail
    {
      success := DefaultSuccess;
      fail := DefaultFail;
    }

    /** What the six fields currently parse to. */
    function FieldsScoring(parse: string -> Parsed): (r: Option<Solver.Scoring>)
      requires Valid()
      reads this
      ensures r.Some? <==> forall i :: 0 <= i < 3 ==>
        parse(success[i]).Finite? && parse(fail[i]).Finite?
      ensures r.Some? ==> forall i :: 0 <= i < 3 ==>
        r.value.success[i] == parse(success[i]).x && r.value.fail[i] == parse(fail[i]).x
    {
      ParsedFieldsToScoring(ParseColumn(parse, success), ParseColumn(parse, fail))
    }

    /** The user typing `text` into one field. */
    method Edit(row: nat, isSuccess: bool, text: string)
      requires Valid() && row < 3
      modifies this
      ensures Valid()
      ensures success == if isSuccess then old(success)[row := text] else old(success)
      ensures fail == if isSuccess then old(fail) else old(fail)[row := text]
    {
      if isSuccess {
        success := success[row := text];
      } else {
        fail := fail[row := text];
      }
    }

    /** `assign_to_preset`: every field is rewritten from the preset's
        values through the one-decimal formatter. */
    method AssignToPreset(p: Preset, format: real -> string)
      requires Valid()
      modifies this
      ensures Valid()
      ensures forall i :: 0 <= i < 3 ==>
        success[i] == format(p.scoring.success[i]) && fail[i] == format(p.scoring.fail[i])
    {
      var s := success;
      var f := fail;
      for i := 0 to 3
        invariant |s| == 3 && |f| == 3
        invariant forall j :: 0 <= j < i ==>
          s[j] == format(p.scoring.success[j]) && f[j] == format(p.scoring.fail[j])
      {
        s := s[i := format(p.scoring.success[i])];
        f := f[i := format(p.scoring.fail[i])];
      }
      success := s;
      fail := f;
    }

    /** `Weights::show` for one frame. The fields are parsed as they stand
        when the frame starts; a parsed scoring moves the combo box to its
        preset, or to `Custom`; `picked` is the index the user chose in the
        combo box this frame, if any, and choosing a preset rewrites the
        fields and yields that preset's scoring. */
    method Show(parse: string -> Parsed, format: real -> string, selected: nat, picked: Option<nat>)
      returns (selectedOut: nat, scoring: Option<Solver.Scoring>)
      requires Valid()
      requires picked.Some? ==> picked.value <= Custom
      modifies this
      ensures Valid()
      ensures selectedOut ==
        if picked.Some? then picked.value
        else if old(FieldsScoring(parse)).Some? then PresetIndex(old(FieldsScoring(parse)).value)
        else selected
      ensures scoring ==
        if picked.Some? && picked.value < Custom then Some(Presets[picked.value].scoring)
        else old(FieldsScoring(parse))
      ensures if picked.Some? && picked.value < Custom
              then forall i :: 0 <= i < 3 ==>
                success[i] == format(Presets[picked.value].scoring.success[i]) &&
                fail[i] == format(Presets[picked.value].scoring.fail[i])
              else success == old(success) && fail == old(fail)
    {
      scoring := FieldsScoring(parse);
      selectedOut := selected;
      if scoring.Some? {
        selectedOut := MatchPreset(scoring.value);
      }
      if picked.Some? {
        selectedOut := picked.value;
        if selectedOut < |Presets| {
          var preset := Presets[selectedOut];
          AssignToPreset(preset, format);
          scoring := Some(preset.scoring);
        }
      }
    }
  }

  /** Once a preset has been chosen, the fields read back as that preset and
      the next frame keeps the combo box on it, provided the formatter's
      text parses back to each of the preset's six values. */
  lemma PickedPresetIsStable(k: nat, parse: string -> Parsed, format: real -> string,
                             success: seq<string>, fail: seq<string>)
    requires k < |Presets|
    requires |success| == 3 && |fail| == 3
    requires forall i :: 0 <= i < 3 ==>
      success[i] == format(Presets[k].scoring.success[i]) &&
      fail[i] == format(Presets[k].scoring.fail[i])
    requires forall i :: 0 <= i < 3 ==>
      parse(format(Presets[k].scoring.success[i])) == Finite(Presets[k].scoring.success[i]) &&
      parse(format(Presets[k].scoring.fail[i])) == Finite(Presets[k].scoring.fail[i])
    ensures ParsedFieldsToScoring(ParseColumn(parse, success), ParseColumn(parse, fail))
            == Some(Presets[k].scoring)
    ensures PresetIndex(Presets[k].scoring) == k
  {
    var sc := Presets[k].scoring;
    assert ParseColumn(parse, success) == Fields(sc.success);
    assert ParseColumn(parse, fail) == Fields(sc.fail);
    FieldsToScoringRoundTrip(sc);
    PresetIndexOfPreset(k);
  }
}
