/**
 * Fetched records and the two pure steps the pages apply to them: deriving a
 * dropdown's options from one field, and choosing what the results container shows.
 */
module Records {
  import opened Wrappers
  import opened Ordering
  import opened Frontend

  /** A flat record: field name to string value; a field may be absent. */
  type Record = map<string, string>

  /**
   * What awaiting the data query gives: a failure (the promise rejects) or a value,
   * which may be missing (`null`/`undefined`) or a list of records.
   */
  datatype Response = Failed | Returned(data: Option<seq<Record>>)

  const EmployerName: string := "EmployerName"
  const EmployerLink: string := "EmployerLink"

  /** JavaScript truthiness of a string field: present and non-empty. */
  predicate Truthy(r: Record, field: string)
  {
    field in r && r[field] != ""
  }

  /** `data.map(item => item[field])`, over the records that carry the field. */
  function FieldValues(rows: seq<Record>, field: string): seq<string>
  {
    if rows == [] then []
    else (if field in rows[0] then [rows[0][field]] else []) + FieldValues(rows[1..], field)
  }

  /** `[...new Set(data.map(item => item[field]))].sort()` */
  function FieldOptions(rows: seq<Record>, field: string): seq<string>
  {
    DistinctSorted(FieldValues(rows, field))
  }

  lemma {:induction false} FieldValuesMembers(rows: seq<Record>, field: string, x: string)
    ensures x in FieldValues(rows, field) <==>
      exists k :: 0 <= k < |rows| && field in rows[k] && rows[k][field] == x
  {
    if rows != [] {
      FieldValuesMembers(rows[1..], field, x);
      if exists k :: 0 <= k < |rows| && field in rows[k] && rows[k][field] == x {
        var k :| 0 <= k < |rows| && field in rows[k] && rows[k][field] == x;
        if k > 0 {
          assert rows[1..][k - 1] == rows[k];
        }
      }
      if exists k :: 0 <= k < |rows[1..]| && field in rows[1..][k] && rows[1..][k][field] == x {
        var k :| 0 <= k < |rows[1..]| && field in rows[1..][k] && rows[1..][k][field] == x;
        assert rows[k + 1] == rows[1..][k];
      }
    }
  }

  /**
   * A fetched dropdown's options: strictly ascending (so no duplicates), every value
   * the field takes in the data appears, and nothing else does.
   */
  lemma FieldOptionsSpec(rows: seq<Record>, field: string)
    ensures StrictlySorted(FieldOptions(rows, field))
    ensures forall k :: 0 <= k < |rows| && field in rows[k] ==> rows[k][field] in FieldOptions(rows, field)
    ensures forall x :: x in FieldOptions(rows, field) ==>
      exists k :: 0 <= k < |rows| && field in rows[k] && rows[k][field] == x
  {
    DistinctSortedSpec(FieldValues(rows, field));
    forall x ensures x in FieldOptions(rows, field) <==>
      exists k :: 0 <= k < |rows| && field in rows[k] && rows[k][field] == x
    {
      FieldValuesMembers(rows, field, x);
    }
  }

  /** `a` is `b` with some elements deleted, the rest kept in order. */
  predicate Subsequence(a: seq<Record>, b: seq<Record>)
  {
    if a == [] then true
    else if b == [] then false
    else (a[0] == b[0] && Subsequence(a[1..], b[1..])) || Subsequence(a, b[1..])
  }

  /** `data.filter(item => item.EmployerName)` */
  function Employers(rows: seq<Record>): seq<Record>
  {
    if rows == [] then []
    else (if Truthy(rows[0], EmployerName) then [rows[0]] else []) + Employers(rows[1..])
  }

  /**
   * The kept records are exactly the records with a truthy EmployerName, each as
   * often as it occurs in the data, in data order.
   */
  lemma {:induction false} EmployersSpec(rows: seq<Record>)
    ensures forall k :: 0 <= k < |Employers(rows)| ==> Truthy(Employers(rows)[k], EmployerName)
    ensures forall r :: Truthy(r, EmployerName) ==> multiset(Employers(rows))[r] == multiset(rows)[r]
    ensures forall r :: !Truthy(r, EmployerName) ==> multiset(Employers(rows))[r] == 0
    ensures Subsequence(Employers(rows), rows)
  {
    if rows != [] {
      EmployersSpec(rows[1..]);
      assert rows == [rows[0]] + rows[1..];
      var e := Employers(rows);
      var tail := Employers(rows[1..]);
      if Truthy(rows[0], EmployerName) {
        assert e == [rows[0]] + tail;
        assert e[1..] == tail;
      } else {
        assert e == tail;
        if e != [] {
          assert Subsequence(e, rows[1..]);
        }
      }
    }
  }

  /** The card of one named record: linked exactly when EmployerLink is truthy. */
  function CardOf(r: Record): Card
    requires Truthy(r, EmployerName)
  {
    Card(r[EmployerName], if Truthy(r, EmployerLink) then Some(r[EmployerLink]) else None)
  }

  /** `employers.map(item => ...card markup...)` */
  function CardsOf(employers: seq<Record>): (cards: seq<Card>)
    requires forall k :: 0 <= k < |employers| ==> Truthy(employers[k], EmployerName)
    ensures |cards| == |employers|
    ensures forall k :: 0 <= k < |employers| ==>
      && EmployerName in employers[k] && cards[k].name == employers[k][EmployerName] && cards[k].name != ""
      && (cards[k].link.Some? <==> Truthy(employers[k], EmployerLink))
      && (cards[k].link.Some? ==> cards[k].link.value == employers[k][EmployerLink])
  {
    if employers == [] then [] else [CardOf(employers[0])] + CardsOf(employers[1..])
  }

  /**
   * The body of `loadResults` after the query answered: missing or empty data, or
   * data without a named employer, give the "No Employers Shown At This Time"
   * placeholder; otherwise one card per named employer, in data order.
   */
  function SelectResults(data: Option<seq<Record>>): (c: Content)
    ensures c.NoEmployers? || c.Cards?
    ensures c.NoEmployers? <==>
      (data.None? || forall k :: 0 <= k < |data.value| ==> !Truthy(data.value[k], EmployerName))
  {
    match data
    case None => NoEmployers
    case Some(rows) =>
      if |rows| == 0 then NoEmployers
      else
        var employers := Employers(rows);
        EmployersSpec(rows);
        if |employers| == 0 then
          assert forall k :: 0 <= k < |rows| ==> !Truthy(rows[k], EmployerName) by {
            forall k | 0 <= k < |rows| ensures !Truthy(rows[k], EmployerName) {
              assert rows[k] in multiset(rows);
            }
          }
          NoEmployers
        else
          assert Truthy(employers[0], EmployerName) && employers[0] in multiset(rows);
          Cards(CardsOf(employers))
  }

  /** The positions, from `i` on, of the records with a truthy EmployerName, ascending. */
  function NamedFrom(rows: seq<Record>, i: nat): seq<nat>
    decreases |rows| - i
  {
    if i >= |rows| then []
    else (if Truthy(rows[i], EmployerName) then [i] else []) + NamedFrom(rows, i + 1)
  }

  /** The positions `NamedFrom` lists ascend and are exactly those of the named records from `i` on. */
  lemma {:induction false} NamedFromSpec(rows: seq<Record>, i: nat)
    ensures forall j :: 0 <= j < |NamedFrom(rows, i)| ==> i <= NamedFrom(rows, i)[j] < |rows|
    ensures forall a, b :: 0 <= a < b < |NamedFrom(rows, i)| ==> NamedFrom(rows, i)[a] < NamedFrom(rows, i)[b]
    ensures forall k :: k in NamedFrom(rows, i) <==> i <= k < |rows| && Truthy(rows[k], EmployerName)
    decreases |rows| - i
  {
    if i < |rows| {
      NamedFromSpec(rows, i + 1);
      var tail := NamedFrom(rows, i + 1);
      var head: seq<nat> := if Truthy(rows[i], EmployerName) then [i] else [];
      var m := NamedFrom(rows, i);
      assert m == head + tail;
      forall j | 0 <= j < |m| ensures i <= m[j] < |rows| {
        if j >= |head| {
          assert m[j] == tail[j - |head|];
        }
      }
      forall a, b | 0 <= a < b < |m| ensures m[a] < m[b] {
        assert m[b] == tail[b - |head|];
        if a >= |head| {
          assert m[a] == tail[a - |head|];
        }
      }
      forall k ensures k in m <==> i <= k < |rows| && Truthy(rows[k], EmployerName) {
        assert k in m <==> k in head || k in tail;
      }
    }
  }

  /** `Employers` keeps exactly the records at the positions `NamedFrom` lists. */
  lemma {:induction false} NamedFromEmployers(rows: seq<Record>, i: nat)
    requires i <= |rows|
    ensures |NamedFrom(rows, i)| == |Employers(rows[i..])|
    ensures forall j :: 0 <= j < |NamedFrom(rows, i)| ==>
      NamedFrom(rows, i)[j] < |rows| && Employers(rows[i..])[j] == rows[NamedFrom(rows, i)[j]]
    decreases |rows| - i
  {
    NamedFromSpec(rows, i);
    if i < |rows| {
      NamedFromEmployers(rows, i + 1);
      var m := NamedFrom(rows, i);
      var e := Employers(rows[i..]);
      var mt := NamedFrom(rows, i + 1);
      var et := Employers(rows[i + 1..]);
      assert rows[i..][0] == rows[i] && rows[i..][1..] == rows[i + 1..];
      var n := if Truthy(rows[i], EmployerName) then 1 else 0;
      assert m == (if n == 1 then [i] else []) + mt;
      assert e == (if n == 1 then [rows[i]] else []) + et;
      forall j | 0 <= j < |m| ensures m[j] < |rows| && e[j] == rows[m[j]] {
        if j >= n {
          assert m[j] == mt[j - n] && e[j] == et[j - n];
        }
      }
    }
  }

  /**
   * The cards shown, stated against the data itself: card j is the card of the record
   * at the j-th position holding a truthy EmployerName, so there is one card per
   * named record, in data order, and no card for any other record.
   */
  lemma SelectResultsCards(rows: seq<Record>)
    requires SelectResults(Some(rows)).Cards?
    ensures var cards := SelectResults(Some(rows)).cards;
      var m := NamedFrom(rows, 0);
      && |cards| == |m|
      && (forall a, b :: 0 <= a < b < |m| ==> m[a] < m[b])
      && (forall k :: k in m <==> 0 <= k < |rows| && Truthy(rows[k], EmployerName))
      && (forall j :: 0 <= j < |m| ==>
            0 <= m[j] < |rows| && Truthy(rows[m[j]], EmployerName) && cards[j] == CardOf(rows[m[j]]))
  {
    NamedFromSpec(rows, 0);
    NamedFromEmployers(rows, 0);
    assert rows[0..] == rows;
    var m := NamedFrom(rows, 0);
    var es := Employers(rows);
    var cards := SelectResults(Some(rows)).cards;
    assert cards == CardsOf(es);
    forall j | 0 <= j < |m| ensures Truthy(rows[m[j]], EmployerName) && cards[j] == CardOf(rows[m[j]]) {
      assert m[j] in m;
      assert es[j] == rows[m[j]];
    }
  }

  /**
   * Two records matching the same four filter values, the second without an employer
   * name: one card, for Acme, linked to its page.
   */
  lemma OneNamedEmployer()
    ensures SelectResults(Some([
        map["State" := "NY", "City_Town_Other" := "Albany", "Scale" := "Small", "Type" := "Retail",
            EmployerName := "Acme", EmployerLink := "http://a"],
        map["State" := "NY", "City_Town_Other" := "Albany", "Scale" := "Small", "Type" := "Retail",
            EmployerName := "", EmployerLink := ""]]))
      == Cards([Card("Acme", Some("http://a"))])
  {
    var acme: Record := map["State" := "NY", "City_Town_Other" := "Albany", "Scale" := "Small", "Type" := "Retail",
                            EmployerName := "Acme", EmployerLink := "http://a"];
    var unnamed: Record := map["State" := "NY", "City_Town_Other" := "Albany", "Scale" := "Small", "Type" := "Retail",
                               EmployerName := "", EmployerLink := ""];
    assert [acme, unnamed][1..] == [unnamed];
    assert [unnamed][1..] == [];
    assert Truthy(acme, EmployerName) && Truthy(acme, EmployerLink);
    assert !Truthy(unnamed, EmployerName);
    assert Employers([unnamed]) == [];
    assert Employers([acme, unnamed]) == [acme];
  }
}
