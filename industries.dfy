/**
 * JS/industries.js: the Industry → Subindustry → Scale → Type page. The query keys
 * are the records' own capitalised field names.
 */
module Industries {
  import opened Wrappers
  import opened Frontend
  import opened Records
  import opened Cascade

  const IndustryFlow: Flow := Flow([
      Level(Fetched("Industry", "Failed to load industries."), "Industry", "Select an Industry"),
      Level(Fetched("Subindustry", "Failed to load subindustries."), "Subindustry", "Select a Subindustry"),
      Level(Fetched("Scale", "Failed to load scales."), "Scale", "Select Scale"),
      Level(Fetched("Type", "Failed to load types."), "Type", "Select Type")
    ], "Failed to load results.")

  /**
   * `loadIndustries`: one unfiltered query; the Industry dropdown offers every distinct
   * industry in ascending order under "Select an Industry", or, if the query fails,
   * "Failed to load industries." is shown and nothing is populated.
   */
  lemma LoadIndustries(p: Page, query: Filter -> Response)
    requires Fits(IndustryFlow, p)
    ensures match query([])
      case Returned(Some(rows)) =>
        LoadOptions(IndustryFlow, p, 0, query) ==
          p.(selects := p.selects[0 := Populated(FieldOptions(rows, "Industry"), Some("Select an Industry"))])
      case _ =>
        LoadOptions(IndustryFlow, p, 0, query) == p.(html := ErrorText("Failed to load industries."))
  {
  }

  /**
   * Any Industry change empties and disables Scale and Type and clears the results;
   * Subindustries are queried by `{Industry: v}` only when v is not the placeholder,
   * and a failed query shows "Failed to load subindustries." and populates nothing.
   */
  lemma IndustryChange(p: Page, v: string, query: Filter -> Response)
    requires Fits(IndustryFlow, p)
    ensures var r := Change(IndustryFlow, p, 0, v, query);
      && r.selects[0] == p.selects[0].(value := v)
      && r.selects[2] == Emptied && r.selects[3] == Emptied
      && (v == "" ==> r.selects[1] == Emptied && r.html == Blank)
      && (v != "" ==>
            match query([("Industry", v)])
            case Returned(Some(rows)) =>
              r.selects[1] == Populated(FieldOptions(rows, "Subindustry"), Some("Select a Subindustry")) && r.html == Blank
            case _ =>
              r.selects[1] == Emptied && r.html == ErrorText("Failed to load subindustries."))
  {
    ChangeKeepsUpstream(IndustryFlow, p, 0, v, query);
    ChangeClearsDownstream(IndustryFlow, p, 0, v, query);
    if v == "" {
      ChangeGate(IndustryFlow, p, 0, v, query);
    } else {
      ChangeLoadsNext(IndustryFlow, p, 0, v, query);
      assert FilterOf(IndustryFlow, p, 0) + [(IndustryFlow.levels[0].key, v)] == [("Industry", v)];
    }
  }

  /**
   * A Subindustry change leaves Industry untouched and resets Scale and Type; scales
   * are queried by `{Industry, Subindustry}` only when both are non-empty.
   */
  lemma SubindustryChange(p: Page, v: string, query: Filter -> Response)
    requires Fits(IndustryFlow, p)
    ensures var r := Change(IndustryFlow, p, 1, v, query);
      var industry := p.selects[0].value;
      && r.selects[0] == p.selects[0] && r.selects[1] == p.selects[1].(value := v)
      && r.selects[3] == Emptied
      && (!(industry != "" && v != "") ==> r.selects[2] == Emptied && r.html == Blank)
      && (industry != "" && v != "" ==>
            match query([("Industry", industry), ("Subindustry", v)])
            case Returned(Some(rows)) =>
              r.selects[2] == Populated(FieldOptions(rows, "Scale"), Some("Select Scale")) && r.html == Blank
            case _ =>
              r.selects[2] == Emptied && r.html == ErrorText("Failed to load scales."))
  {
    ChangeKeepsUpstream(IndustryFlow, p, 1, v, query);
    ChangeClearsDownstream(IndustryFlow, p, 1, v, query);
    FilterOfSpec(IndustryFlow, p, 1);
    assert FilterOf(IndustryFlow, p, 1) + [(IndustryFlow.levels[1].key, v)] ==
      [("Industry", p.selects[0].value), ("Subindustry", v)];
    if p.selects[0].value != "" && v != "" {
      ChangeLoadsNext(IndustryFlow, p, 1, v, query);
    } else {
      ChangeGate(IndustryFlow, p, 1, v, query);
    }
  }

  /**
   * A Scale change leaves Industry and Subindustry untouched and resets Type; Types
   * are queried by all three values only when all three are non-empty.
   */
  lemma ScaleChange(p: Page, v: string, query: Filter -> Response)
    requires Fits(IndustryFlow, p)
    ensures var r := Change(IndustryFlow, p, 2, v, query);
      var industry := p.selects[0].value;
      var subindustry := p.selects[1].value;
      && r.selects[0] == p.selects[0] && r.selects[1] == p.selects[1]
      && r.selects[2] == p.selects[2].(value := v)
      && (!(industry != "" && subindustry != "" && v != "") ==> r.selects[3] == Emptied && r.html == Blank)
      && (industry != "" && subindustry != "" && v != "" ==>
            match query([("Industry", industry), ("Subindustry", subindustry), ("Scale", v)])
            case Returned(Some(rows)) =>
              r.selects[3] == Populated(FieldOptions(rows, "Type"), Some("Select Type")) && r.html == Blank
            case _ =>
              r.selects[3] == Emptied && r.html == ErrorText("Failed to load types."))
  {
    ChangeKeepsUpstream(IndustryFlow, p, 2, v, query);
    FilterOfSpec(IndustryFlow, p, 2);
    assert FilterOf(IndustryFlow, p, 2) + [(IndustryFlow.levels[2].key, v)] ==
      [("Industry", p.selects[0].value), ("Subindustry", p.selects[1].value), ("Scale", v)];
    if p.selects[0].value != "" && p.selects[1].value != "" && v != "" {
      ChangeLoadsNext(IndustryFlow, p, 2, v, query);
    } else {
      ChangeGate(IndustryFlow, p, 2, v, query);
    }
  }

  /**
   * A Type change resets no dropdown and clears the results; the results are queried
   * by all four values only when all four are non-empty.
   */
  lemma TypeChange(p: Page, v: string, query: Filter -> Response)
    requires Fits(IndustryFlow, p)
    ensures var r := Change(IndustryFlow, p, 3, v, query);
      var f := [("Industry", p.selects[0].value), ("Subindustry", p.selects[1].value),
                ("Scale", p.selects[2].value), ("Type", v)];
      && r.selects == p.selects[3 := p.selects[3].(value := v)]
      && (!Filled(p, 3) || v == "" ==> r.html == Blank)
      && (Filled(p, 3) && v != "" ==>
            match query(f)
            case Failed => r.html == ErrorText("Failed to load results.")
            case Returned(data) => r.html == SelectResults(data))
  {
    ChangeLast(IndustryFlow, p, 3, v, query);
    FilterOfSpec(IndustryFlow, p, 3);
    assert FilterOf(IndustryFlow, p, 3) + [(IndustryFlow.levels[3].key, v)] ==
      [("Industry", p.selects[0].value), ("Subindustry", p.selects[1].value),
       ("Scale", p.selects[2].value), ("Type", v)];
  }
}
