/**
 * The cascading filter shared by the three pages: an ordered list of dropdowns,
 * each loaded from the values chosen in all the dropdowns before it, and a results
 * container loaded once every dropdown holds a value. A `Flow` gives what differs
 * between the pages (fields, query keys, placeholders, error messages); `Change`
 * is the effect of one change event, and `Controller` performs it on the elements.
 */
module Cascade {
  import opened Wrappers
  import opened Frontend
  import opened Records

  /** Where a dropdown's options come from. */
  datatype Source =
    | Fixed(items: seq<string>)                // a constant list, shown as written
    | Fetched(field: string, failure: string)  // distinct sorted values of `field`; `failure` if the load throws

  /**
   * One dropdown of a flow: its option source, the key under which its selected value
   * is passed to the data query, and its placeholder text.
   */
  datatype Level = Level(source: Source, key: string, placeholder: string)

  datatype Flow = Flow(levels: seq<Level>, resultsFailure: string)

  /** The argument of the data query: key/value pairs in cascade order. */
  type Filter = seq<(string, string)>

  /** A snapshot of one page: its dropdowns in cascade order and its results container. */
  datatype Page = Page(selects: seq<DropdownState>, html: Content)

  predicate Fits(flow: Flow, p: Page)
  {
    |flow.levels| >= 1 && |p.selects| == |flow.levels|
  }

  /** Dropdowns 0 .. k-1 all hold a non-empty (truthy) value. */
  predicate Filled(p: Page, k: nat)
    requires k <= |p.selects|
  {
    forall j :: 0 <= j < k ==> p.selects[j].value != ""
  }

  /** The filter built from the values of dropdowns 0 .. k-1. */
  function FilterOf(flow: Flow, p: Page, k: nat): Filter
    requires Fits(flow, p) && k <= |p.selects|
  {
    if k == 0 then [] else FilterOf(flow, p, k - 1) + [(flow.levels[k - 1].key, p.selects[k - 1].value)]
  }

  /**
   * The page invariant: a dropdown selects one of its own options; a dropdown after
   * the first holds options, or is enabled, only while every dropdown before it holds
   * a value; and employer results are shown only while every dropdown holds a value.
   */
  predicate Consistent(flow: Flow, p: Page)
  {
    && Fits(flow, p)
    && (forall j :: 0 <= j < |p.selects| ==>
          p.selects[j].value == "" || p.selects[j].value in Values(p.selects[j].options))
    && (forall j :: 0 < j < |p.selects| && p.selects[j].options != [] ==> Filled(p, j))
    && (forall j :: 0 < j < |p.selects| && !p.selects[j].disabled ==> Filled(p, j))
    && (p.html.Cards? || p.html.NoEmployers? ==> Filled(p, |p.selects|))
  }

  /** The browser records the chosen value before it fires the change event. */
  function SetValue(p: Page, i: nat, v: string): Page
    requires i < |p.selects|
  {
    p.(selects := p.selects[i := p.selects[i].(value := v)])
  }

  /** `resetDependentDropdowns` on every dropdown from `k` on. */
  function ResetFrom(p: Page, k: nat): Page
    requires k <= |p.selects|
  {
    p.(selects := p.selects[..k] + seq(|p.selects| - k, _ => Emptied))
  }

  /**
   * `loadSubindustries`, `loadCities`, `loadScales`, ... and the first-level loaders:
   * populate dropdown k from its source, or show the level's error and populate
   * nothing when the query fails or answers with no data.
   */
  function LoadOptions(flow: Flow, p: Page, k: nat, query: Filter -> Response): Page
    requires Fits(flow, p) && k < |p.selects|
  {
    var level := flow.levels[k];
    match level.source
    case Fixed(items) =>
      p.(selects := p.selects[k := Populated(items, Some(level.placeholder))])
    case Fetched(field, failure) =>
      match query(FilterOf(flow, p, k))
      case Returned(Some(rows)) =>
        p.(selects := p.selects[k := Populated(FieldOptions(rows, field), Some(level.placeholder))])
      case _ => p.(html := ErrorText(failure))
  }

  /** `loadResults`: query with every dropdown's value and show what it answered. */
  function ShowResults(flow: Flow, p: Page, query: Filter -> Response): Page
    requires Fits(flow, p)
  {
    match query(FilterOf(flow, p, |p.selects|))
    case Failed => p.(html := ErrorText(flow.resultsFailure))
    case Returned(data) => p.(html := SelectResults(data))
  }

  /**
   * The part of a change event that needs no data: dropdown i takes the value v,
   * every later dropdown is reset and the results are cleared.
   */
  function Cleared(p: Page, i: nat, v: string): Page
    requires i < |p.selects|
  {
    var chosen := SetValue(p, i, v);
    (if i + 1 < |p.selects| then ResetFrom(chosen, i + 1) else chosen).(html := Blank)
  }

  /**
   * The change listener of dropdown i: reset every later dropdown, clear the
   * results, and, only if dropdowns 0 .. i all hold a value, load dropdown i+1 (or
   * the results, after the last dropdown).
   */
  function Change(flow: Flow, p: Page, i: nat, v: string, query: Filter -> Response): Page
    requires Fits(flow, p) && i < |p.selects|
  {
    var cleared := Cleared(p, i, v);
    if !Filled(cleared, i + 1) then cleared
    else if i + 1 < |p.selects| then LoadOptions(flow, cleared, i + 1, query)
    else ShowResults(flow, cleared, query)
  }

  lemma {:induction false} FilterOfSpec(flow: Flow, p: Page, k: nat)
    requires Fits(flow, p) && k <= |p.selects|
    ensures |FilterOf(flow, p, k)| == k
    ensures forall j :: 0 <= j < k ==> FilterOf(flow, p, k)[j] == (flow.levels[j].key, p.selects[j].value)
  {
    if k > 0 {
      FilterOfSpec(flow, p, k - 1);
    }
  }

  /** The filter depends only on the values of the dropdowns it covers. */
  lemma {:induction false} FilterOfAgrees(flow: Flow, p: Page, q: Page, k: nat)
    requires Fits(flow, p) && Fits(flow, q) && k <= |p.selects|
    requires forall j :: 0 <= j < k ==> p.selects[j].value == q.selects[j].value
    ensures FilterOf(flow, p, k) == FilterOf(flow, q, k)
  {
    if k > 0 {
      FilterOfAgrees(flow, p, q, k - 1);
    }
  }

  /** Loading a level whose predecessors hold values keeps the invariant. */
  lemma LoadOptionsConsistent(flow: Flow, p: Page, k: nat, query: Filter -> Response)
    requires Consistent(flow, p) && k < |p.selects| && Filled(p, k)
    requires forall j :: k < j < |p.selects| ==> p.selects[j].options == [] && p.selects[j].disabled
    requires !p.html.Cards? && !p.html.NoEmployers?
    ensures Consistent(flow, LoadOptions(flow, p, k, query))
  {
  }

  /**
   * Choosing one of a dropdown's own options and resetting what follows keeps the
   * invariant: every later dropdown is left empty, disabled and without a value.
   */
  lemma ClearedConsistent(flow: Flow, p: Page, i: nat, v: string)
    requires Consistent(flow, p) && i < |p.selects|
    requires v in Values(p.selects[i].options)
    ensures Consistent(flow, Cleared(p, i, v))
    ensures forall j :: i < j < |p.selects| ==> Cleared(p, i, v).selects[j] == Emptied
  {
  }

  /** The invariant holds after every change event the browser can deliver. */
  lemma ChangeConsistent(flow: Flow, p: Page, i: nat, v: string, query: Filter -> Response)
    requires Consistent(flow, p) && i < |p.selects|
    requires v in Values(p.selects[i].options)
    ensures Consistent(flow, Change(flow, p, i, v, query))
  {
    var cleared := Cleared(p, i, v);
    ClearedConsistent(flow, p, i, v);
    if Filled(cleared, i + 1) && i + 1 < |p.selects| {
      LoadOptionsConsistent(flow, cleared, i + 1, query);
    }
  }

  /** The dropdowns before the changed one are untouched; the changed one holds the new value. */
  lemma ChangeKeepsUpstream(flow: Flow, p: Page, i: nat, v: string, query: Filter -> Response)
    requires Fits(flow, p) && i < |p.selects|
    ensures |Change(flow, p, i, v, query).selects| == |p.selects|
    ensures forall j :: 0 <= j < i ==> Change(flow, p, i, v, query).selects[j] == p.selects[j]
    ensures Change(flow, p, i, v, query).selects[i] == p.selects[i].(value := v)
  {
  }

  /**
   * No stale selection survives a change: every dropdown after the changed one is
   * left without a value, every one after the next is empty and disabled, and
   * anything shown in the results container comes from a load that was allowed.
   */
  lemma ChangeClearsDownstream(flow: Flow, p: Page, i: nat, v: string, query: Filter -> Response)
    requires Fits(flow, p) && i < |p.selects|
    ensures |Change(flow, p, i, v, query).selects| == |p.selects|
    ensures forall j :: i + 1 < j < |p.selects| ==> Change(flow, p, i, v, query).selects[j] == Emptied
    ensures forall j :: i < j < |p.selects| ==> Change(flow, p, i, v, query).selects[j].value == ""
    ensures Change(flow, p, i, v, query).html != Blank ==> Filled(p, i) && v != ""
  {
    var cleared := Cleared(p, i, v);
    assert forall j :: 0 <= j < i ==> cleared.selects[j].value == p.selects[j].value;
    assert cleared.selects[i].value == v;
  }

  /**
   * The next level is loaded only if the new value and every value before it are
   * non-empty: choosing the placeholder, or changing a dropdown whose predecessors
   * are not all chosen, loads nothing and leaves the results cleared.
   */
  lemma ChangeGate(flow: Flow, p: Page, i: nat, v: string, query: Filter -> Response)
    requires Fits(flow, p) && i < |p.selects|
    requires !(Filled(p, i) && v != "")
    ensures Change(flow, p, i, v, query).html == Blank
    ensures i + 1 < |p.selects| ==> Change(flow, p, i, v, query).selects[i + 1] == Emptied
  {
    var cleared := Cleared(p, i, v);
    if v != "" {
      var j :| 0 <= j < i && p.selects[j].value == "";
      assert cleared.selects[j].value == "";
    } else {
      assert cleared.selects[i].value == "";
    }
    assert !Filled(cleared, i + 1);
    assert Change(flow, p, i, v, query) == cleared;
    if i + 1 < |p.selects| {
      assert cleared.selects[i + 1] == Emptied;
    }
  }

  /**
   * When dropdowns 0 .. i all hold values, dropdown i+1 is loaded: the query gets
   * the upstream values and the new one, and on success the dropdown offers the
   * distinct sorted values of its field under its placeholder; on failure the
   * level's error is shown and the dropdown stays empty and disabled.
   */
  lemma ChangeLoadsNext(flow: Flow, p: Page, i: nat, v: string, query: Filter -> Response)
    requires Fits(flow, p) && i + 1 < |p.selects|
    requires Filled(p, i) && v != ""
    ensures var r := Change(flow, p, i, v, query);
      var next := flow.levels[i + 1];
      match next.source
      case Fixed(items) =>
        r.selects[i + 1] == Populated(items, Some(next.placeholder)) && r.html == Blank
      case Fetched(field, failure) =>
        match query(FilterOf(flow, p, i) + [(flow.levels[i].key, v)])
        case Returned(Some(rows)) =>
          r.selects[i + 1] == Populated(FieldOptions(rows, field), Some(next.placeholder)) && r.html == Blank
        case _ =>
          r.selects[i + 1] == Emptied && r.html == ErrorText(failure)
  {
    var cleared := Cleared(p, i, v);
    FilterOfAgrees(flow, p, cleared, i);
  }

  /**
   * A change of the last dropdown resets no dropdown; the results are loaded only
   * when every dropdown holds a value, with all of them as the filter.
   */
  lemma ChangeLast(flow: Flow, p: Page, i: nat, v: string, query: Filter -> Response)
    requires Fits(flow, p) && i + 1 == |p.selects|
    ensures Change(flow, p, i, v, query).selects == p.selects[i := p.selects[i].(value := v)]
    ensures !(Filled(p, i) && v != "") ==> Change(flow, p, i, v, query).html == Blank
    ensures Filled(p, i) && v != "" ==>
      match query(FilterOf(flow, p, i) + [(flow.levels[i].key, v)])
      case Failed => Change(flow, p, i, v, query).html == ErrorText(flow.resultsFailure)
      case Returned(data) => Change(flow, p, i, v, query).html == SelectResults(data)
  {
    var cleared := Cleared(p, i, v);
    FilterOfAgrees(flow, p, cleared, i);
    if v != "" && !Filled(p, i) {
      var j :| 0 <= j < i && p.selects[j].value == "";
      assert cleared.selects[j].value == "";
    }
  }

  /** The states of a list of dropdowns, in order. */
  function StatesOf(ds: seq<Dropdown>): (r: seq<DropdownState>)
    reads ds
    ensures |r| == |ds| && forall k :: 0 <= k < |ds| ==> r[k] == ds[k].State()
  {
    if ds == [] then [] else StatesOf(ds[..|ds| - 1]) + [ds[|ds| - 1].State()]
  }

  /** One page's cascade: its dropdown elements in order and its results container. */
  class Controller {
    const flow: Flow
    const selects: seq<Dropdown>
    const results: Container

    /** The elements are distinct and there is one per level of the flow. */
    ghost predicate Wired()
      reads this
    {
      && |flow.levels| >= 1 && |selects| == |flow.levels|
      && forall a, b :: 0 <= a < b < |selects| ==> selects[a] != selects[b]
    }

    function Snapshot(): Page
      reads this, selects, results
    {
      Page(StatesOf(selects), results.html)
    }

    ghost predicate Valid()
      reads this, selects, results
    {
      Wired() && Consistent(flow, Snapshot())
    }

    /**
     * Binds the page's elements as the markup leaves them: dropdowns without options,
     * every one after the first declared disabled, and an empty results container.
     */
    constructor (flow: Flow, selects: seq<Dropdown>, results: Container)
      requires |flow.levels| >= 1 && |selects| == |flow.levels|
      requires forall a, b :: 0 <= a < b < |selects| ==> selects[a] != selects[b]
      requires forall k :: 0 <= k < |selects| ==> selects[k].options == [] && selects[k].value == ""
      requires forall k :: 1 <= k < |selects| ==> selects[k].disabled
      requires results.html == Blank
      ensures Valid()
      ensures this.flow == flow && this.selects == selects && this.results == results
    {
      this.flow := flow;
      this.selects := selects;
      this.results := results;
    }

    /** `clearResults`: empties the results container and touches no dropdown. */
    method ClearResults()
      modifies results
      ensures Snapshot() == old(Snapshot()).(html := Blank)
      ensures old(Valid()) ==> Valid()
    {
      results.html := Blank;
    }

    /**
     * Loads dropdown k from its source (a page's `loadX` step). A step of `Start` and
     * `OnChange`, which establish the conditions under which it keeps `Valid()`.
     */
    method LoadLevel(k: nat, query: Filter -> Response)
      requires Wired() && k < |selects|
      modifies selects[k], results
      ensures Snapshot() == LoadOptions(flow, old(Snapshot()), k, query)
    {
      ghost var before := Snapshot();
      var level := flow.levels[k];
      match level.source {
        case Fixed(items) =>
          PopulateDropdown(selects[k], items, Some(level.placeholder));
        case Fetched(field, failure) =>
          var response := query(FilterOf(flow, Snapshot(), k));
          match response {
            case Returned(Some(rows)) =>
              PopulateDropdown(selects[k], FieldOptions(rows, field), Some(level.placeholder));
            case _ =>
              RenderError(results, Some(failure));
          }
      }
      assert forall j :: 0 <= j < |selects| && j != k ==> selects[j].State() == before.selects[j];
    }

    /** `loadResults`; a step of `OnChange`, which keeps `Valid()` around it. */
    method LoadResults(query: Filter -> Response)
      requires Wired()
      modifies results
      ensures Snapshot() == ShowResults(flow, old(Snapshot()), query)
    {
      var response := query(FilterOf(flow, Snapshot(), |selects|));
      match response {
        case Failed => RenderError(results, Some(flow.resultsFailure));
        case Returned(data) => results.html := SelectResults(data);
      }
    }

    /**
     * The browser's part of a change event: the picked option becomes the selected
     * one. A step of `OnChange`; the later dropdowns may be stale until `ResetAfter`.
     */
    method Choose(i: nat, v: string)
      requires Wired() && i < |selects|
      modifies selects[i]
      ensures Snapshot() == SetValue(old(Snapshot()), i, v)
    {
      ghost var before := Snapshot();
      selects[i].value := v;
      assert forall j :: 0 <= j < |selects| && j != i ==> selects[j].State() == before.selects[j];
    }

    /** `resetDependentDropdowns` on the dropdowns after the changed one; a step of `OnChange`. */
    method ResetAfter(k: nat)
      requires Wired() && k <= |selects|
      modifies selects
      ensures Snapshot() == ResetFrom(old(Snapshot()), k)
    {
      ghost var before := Snapshot();
      ResetDependentDropdowns(selects[k..]);
      forall j | 0 <= j < k ensures selects[j].State() == before.selects[j] {
        assert selects[j] !in selects[k..];
      }
      forall j | k <= j < |selects| ensures selects[j].State() == Emptied {
        assert selects[j] == selects[k..][j - k];
      }
    }

    /** The data-free part of `OnChange`: choose, reset the later dropdowns, clear the results. */
    method Prepare(i: nat, v: string)
      requires Wired() && i < |selects|
      modifies selects, results
      ensures Snapshot() == Cleared(old(Snapshot()), i, v)
    {
      ghost var before := Snapshot();
      Choose(i, v);
      if i + 1 < |selects| {
        ResetAfter(i + 1);
      }
      ClearResults();
    }

    /** The DOMContentLoaded handler: load the first dropdown, before any other holds options. */
    method Start(query: Filter -> Response)
      requires Valid()
      requires forall k :: 0 <= k < |selects| ==> selects[k].value == ""
      requires forall k :: 1 <= k < |selects| ==> selects[k].options == []
      modifies selects, results
      ensures Valid()
      ensures Snapshot() == LoadOptions(flow, old(Snapshot()), 0, query)
    {
      ghost var before := Snapshot();
      assert before.selects[0].value == "";
      LoadLevel(0, query);
      LoadOptionsConsistent(flow, before, 0, query);
    }

    /**
     * The change event of dropdown i, the user having picked the option with value v:
     * the listener that `setupListeners` attaches to that dropdown.
     */
    method OnChange(i: nat, v: string, query: Filter -> Response)
      requires Valid() && i < |selects|
      requires v in Values(selects[i].options)
      modifies selects, results
      ensures Valid()
      ensures Snapshot() == Change(flow, old(Snapshot()), i, v, query)
    {
      ghost var before := Snapshot();
      Prepare(i, v);
      if Filled(Snapshot(), i + 1) {
        if i + 1 < |selects| {
          LoadLevel(i + 1, query);
        } else {
          LoadResults(query);
        }
      }
      ChangeConsistent(flow, before, i, v, query);
    }
  }
}
