/**
 * JS/date-posted.js: the DatePosted → Scale → Type page. Its first dropdown is a
 * constant list of date ranges; only the later ones are fetched.
 */
module DatePosted {
  import opened Wrappers
  import opened Frontend
  import opened Records
  import opened Cascade

  /** The date ranges offered, in this order and unsorted. */
  const DateRanges: seq<string> := ["Last 3 Days", "Last 7 Days", "Last 14 Days"]

  const DateFlow: Flow := Flow([
      Level(Fixed(DateRanges), "DatePosted", "Select Date Range"),
      Level(Fetched("Scale", "Failed to load scales."), "Scale", "Select Scale"),
      Level(Fetched("Type", "Failed to load types."), "Type", "Select Type")
    ], "Failed to load results.")

  /**
   * `loadDateOptions`: whatever the data would say, the first dropdown offers exactly
   * the three date ranges in their written order under "Select Date Range", and the
   * results container is left alone (no query is made).
   */
  lemma LoadDateOptions(p: Page, query: Filter -> Response)
    requires Fits(DateFlow, p)
    ensures var r := LoadOptions(DateFlow, p, 0, query);
      && Values(r.selects[0].options) == ["", "Last 3 Days", "Last 7 Days", "Last 14 Days"]
      && r.selects[0].options[0].text == "Select Date Range"
      && !r.selects[0].disabled
      && r.html == p.html
      && r.selects[1..] == p.selects[1..]
  {
    PopulatedSpec(DateRanges, Some("Select Date Range"));
  }

  /**
   * Any date-range change resets Scale and Type and clears the results; scales are
   * queried by `{DatePosted}` only for a non-empty range.
   */
  lemma DateChange(p: Page, v: string, query: Filter -> Response)
    requires Fits(DateFlow, p)
    ensures var r := Change(DateFlow, p, 0, v, query);
      && r.selects[0] == p.selects[0].(value := v)
      && r.selects[2] == Emptied
      && (v == "" ==> r.selects[1] == Emptied && r.html == Blank)
      && (v != "" ==>
            match query([("DatePosted", v)])
            case Returned(Some(rows)) =>
              r.selects[1] == Populated(FieldOptions(rows, "Scale"), Some("Select Scale")) && r.html == Blank
            case _ =>
              r.selects[1] == Emptied && r.html == ErrorText("Failed to load scales."))
  {
    ChangeKeepsUpstream(DateFlow, p, 0, v, query);
    ChangeClearsDownstream(DateFlow, p, 0, v, query);
    if v == "" {
      ChangeGate(DateFlow, p, 0, v, query);
    } else {
      ChangeLoadsNext(DateFlow, p, 0, v, query);
      assert FilterOf(DateFlow, p, 0) + [(DateFlow.levels[0].key, v)] == [("DatePosted", v)];
    }
  }

  /**
   * A Scale change resets only Type and leaves the date range untouched; types are
   * queried by `{DatePosted, Scale}` only when both are non-empty.
   */
  lemma ScaleChange(p: Page, v: string, query: Filter -> Response)
    requires Fits(DateFlow, p)
    ensures var r := Change(DateFlow, p, 1, v, query);
      var range := p.selects[0].value;
      && r.selects[0] == p.selects[0] && r.selects[1] == p.selects[1].(value := v)
      && (!(range != "" && v != "") ==> r.selects[2] == Emptied && r.html == Blank)
      && (range != "" && v != "" ==>
            match query([("DatePosted", range), ("Scale", v)])
            case Returned(Some(rows)) =>
              r.selects[2] == Populated(FieldOptions(rows, "Type"), Some("Select Type")) && r.html == Blank
            case _ =>
              r.selects[2] == Emptied && r.html == ErrorText("Failed to load types."))
  {
    ChangeKeepsUpstream(DateFlow, p, 1, v, query);
    FilterOfSpec(DateFlow, p, 1);
    assert FilterOf(DateFlow, p, 1) + [(DateFlow.levels[1].key, v)] ==
      [("DatePosted", p.selects[0].value), ("Scale", v)];
    if p.selects[0].value != "" && v != "" {
      ChangeLoadsNext(DateFlow, p, 1, v, query);
    } else {
      ChangeGate(DateFlow, p, 1, v, query);
    }
  }

  /**
   * A Type change resets no dropdown and clears the results; the results are queried
   * by all three values only when all three are non-empty.
   */
  lemma TypeChange(p: Page, v: string, query: Filter -> Response)
    requires Fits(DateFlow, p)
    ensures var r := Change(DateFlow, p, 2, v, query);
      var f := [("DatePosted", p.selects[0].value), ("Scale", p.selects[1].value), ("Type", v)];
      && r.selects == p.selects[2 := p.selects[2].(value := v)]
      && (!Filled(p, 2) || v == "" ==> r.html == Blank)
      && (Filled(p, 2) && v != "" ==>
            match query(f)
            case Failed => r.html == ErrorText("Failed to load results.")
            case Returned(data) => r.html == SelectResults(data))
  {
    ChangeLast(DateFlow, p, 2, v, query);
    FilterOfSpec(DateFlow, p, 2);
    assert FilterOf(DateFlow, p, 2) + [(DateFlow.levels[2].key, v)] ==
      [("DatePosted", p.selects[0].value), ("Scale", p.selects[1].value), ("Type", v)];
  }
}
