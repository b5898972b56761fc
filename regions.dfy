/**
 * JS/regions.js: the State → City → Scale → Type page. The query keys are lower-case
 * (`state`, `city`, `scale`, `type`) and the city options come from the
 * `City_Town_Other` field.
 */
module Regions {
  import opened Wrappers
  import opened Frontend
  import opened Records
  import opened Cascade

  const RegionFlow: Flow := Flow([
      Level(Fetched("State", "Failed to load states."), "state", "Select a State"),
      Level(Fetched("City_Town_Other", "Failed to load cities."), "city", "Select a City"),
      Level(Fetched("Scale", "Failed to load scales."), "scale", "Select Scale"),
      Level(Fetched("Type", "Failed to load types."), "type", "Select Type")
    ], "Failed to load results.")

  /**
   * `loadStates`: the State dropdown offers every distinct State of all regions in
   * ascending order, or "Failed to load states." is shown and nothing is populated.
   */
  lemma LoadStates(p: Page, query: Filter -> Response)
    requires Fits(RegionFlow, p)
    ensures match query([])
      case Returned(Some(rows)) =>
        LoadOptions(RegionFlow, p, 0, query) ==
          p.(selects := p.selects[0 := Populated(FieldOptions(rows, "State"), Some("Select a State"))])
      case _ =>
        LoadOptions(RegionFlow, p, 0, query) == p.(html := ErrorText("Failed to load states."))
  {
  }

  /**
   * Any State change resets City, Scale and Type and clears the results; cities are
   * queried by `{state}` only for a non-empty state, from the City_Town_Other field.
   */
  lemma StateChange(p: Page, v: string, query: Filter -> Response)
    requires Fits(RegionFlow, p)
    ensures var r := Change(RegionFlow, p, 0, v, query);
      && r.selects[0] == p.selects[0].(value := v)
      && r.selects[2] == Emptied && r.selects[3] == Emptied
      && (v == "" ==> r.selects[1] == Emptied && r.html == Blank)
      && (v != "" ==>
            match query([("state", v)])
            case Returned(Some(rows)) =>
              r.selects[1] == Populated(FieldOptions(rows, "City_Town_Other"), Some("Select a City")) && r.html == Blank
            case _ =>
              r.selects[1] == Emptied && r.html == ErrorText("Failed to load cities."))
  {
    ChangeKeepsUpstream(RegionFlow, p, 0, v, query);
    ChangeClearsDownstream(RegionFlow, p, 0, v, query);
    if v == "" {
      ChangeGate(RegionFlow, p, 0, v, query);
    } else {
      ChangeLoadsNext(RegionFlow, p, 0, v, query);
      assert FilterOf(RegionFlow, p, 0) + [(RegionFlow.levels[0].key, v)] == [("state", v)];
    }
  }

  /**
   * A City change resets Scale and Type only; scales are queried by `{state, city}`
   * only when both are non-empty.
   */
  lemma CityChange(p: Page, v: string, query: Filter -> Response)
    requires Fits(RegionFlow, p)
    ensures var r := Change(RegionFlow, p, 1, v, query);
      var state := p.selects[0].value;
      && r.selects[0] == p.selects[0] && r.selects[1] == p.selects[1].(value := v)
      && r.selects[3] == Emptied
      && (!(state != "" && v != "") ==> r.selects[2] == Emptied && r.html == Blank)
      && (state != "" && v != "" ==>
            match query([("state", state), ("city", v)])
            case Returned(Some(rows)) =>
              r.selects[2] == Populated(FieldOptions(rows, "Scale"), Some("Select Scale")) && r.html == Blank
            case _ =>
              r.selects[2] == Emptied && r.html == ErrorText("Failed to load scales."))
  {
    ChangeKeepsUpstream(RegionFlow, p, 1, v, query);
    ChangeClearsDownstream(RegionFlow, p, 1, v, query);
    FilterOfSpec(RegionFlow, p, 1);
    assert FilterOf(RegionFlow, p, 1) + [(RegionFlow.levels[1].key, v)] ==
      [("state", p.selects[0].value), ("city", v)];
    if p.selects[0].value != "" && v != "" {
      ChangeLoadsNext(RegionFlow, p, 1, v, query);
    } else {
      ChangeGate(RegionFlow, p, 1, v, query);
    }
  }

  /**
   * A Scale change leaves State and City untouched and resets Type; types are queried
   * by `{state, city, scale}` only when all three are non-empty.
   */
  lemma ScaleChange(p: Page, v: string, query: Filter -> Response)
    requires Fits(RegionFlow, p)
    ensures var r := Change(RegionFlow, p, 2, v, query);
      var state := p.selects[0].value;
      var city := p.selects[1].value;
      && r.selects[0] == p.selects[0] && r.selects[1] == p.selects[1]
      && r.selects[2] == p.selects[2].(value := v)
      && (!(state != "" && city != "" && v != "") ==> r.selects[3] == Emptied && r.html == Blank)
      && (state != "" && city != "" && v != "" ==>
            match query([("state", state), ("city", city), ("scale", v)])
            case Returned(Some(rows)) =>
              r.selects[3] == Populated(FieldOptions(rows, "Type"), Some("Select Type")) && r.html == Blank
            case _ =>
              r.selects[3] == Emptied && r.html == ErrorText("Failed to load types."))
  {
    ChangeKeepsUpstream(RegionFlow, p, 2, v, query);
    FilterOfSpec(RegionFlow, p, 2);
    assert FilterOf(RegionFlow, p, 2) + [(RegionFlow.levels[2].key, v)] ==
      [("state", p.selects[0].value), ("city", p.selects[1].value), ("scale", v)];
    if p.selects[0].value != "" && p.selects[1].value != "" && v != "" {
      ChangeLoadsNext(RegionFlow, p, 2, v, query);
    } else {
      ChangeGate(RegionFlow, p, 2, v, query);
    }
  }

  /**
   * A Type change resets no dropdown and clears the results; the results are queried
   * by `{state, city, scale, type}` only when all four are non-empty.
   */
  lemma TypeChange(p: Page, v: string, query: Filter -> Response)
    requires Fits(RegionFlow, p)
    ensures var r := Change(RegionFlow, p, 3, v, query);
      var f := [("state", p.selects[0].value), ("city", p.selects[1].value),
                ("scale", p.selects[2].value), ("type", v)];
      && r.selects == p.selects[3 := p.selects[3].(value := v)]
      && (!Filled(p, 3) || v == "" ==> r.html == Blank)
      && (Filled(p, 3) && v != "" ==>
            match query(f)
            case Failed => r.html == ErrorText("Failed to load results.")
            case Returned(data) => r.html == SelectResults(data))
  {
    ChangeLast(RegionFlow, p, 3, v, query);
    FilterOfSpec(RegionFlow, p, 3);
    assert FilterOf(RegionFlow, p, 3) + [(RegionFlow.levels[3].key, v)] ==
      [("state", p.selects[0].value), ("city", p.selects[1].value),
       ("scale", p.selects[2].value), ("type", v)];
  }
}
