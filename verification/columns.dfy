/** Column projection: `SimProObject._columns_to_params`.

    The caller's column list (or none) gets "ID" appended, is turned into a
    set to drop duplicates, and the set is joined with commas. Python leaves
    the iteration order of a set unspecified, so the method picks the order
    nondeterministically and returns it alongside the joined string.
 */
module Columns {

  import opened Values
  import opened Text

  /** The column names a caller asked for; none when it passed no list. */
  function Requested(columns: Option<seq<string>>): set<string> {
    if columns.None? then {} else Elements(columns.value)
  }

  /** `params` splits on commas into distinct names that are exactly the
      `wanted` names together with "ID". */
  predicate NamesExactly(params: string, wanted: set<string>) {
    var names := Split(params, ',');
    NoDuplicates(names) && Elements(names) == wanted + {"ID"}
  }

  /** Lists the elements of a finite set once each, in an unspecified order
      (Python's iteration over a set). */
  method Enumerate(names: set<string>) returns (order: seq<string>)
    ensures NoDuplicates(order)
    ensures Elements(order) == names
  {
    var remaining := names;
    order := [];
    while remaining != {}
      invariant NoDuplicates(order)
      invariant Elements(order) !! remaining
      invariant Elements(order) + remaining == names
      decreases |remaining|
    {
      var name :| name in remaining;
      order := order + [name];
      remaining := remaining - {name};
    }
  }

  lemma OnlyId(order: seq<string>)
    requires NoDuplicates(order)
    requires Elements(order) == {"ID"}
    ensures order == ["ID"]
  {
    DistinctCardinality(order);
    assert order[0] in Elements(order);
  }

  lemma JoinedNamesSplitBack(order: seq<string>, wanted: set<string>)
    requires NoDuplicates(order)
    requires Elements(order) == wanted + {"ID"}
    requires forall name :: name in wanted ==> ',' !in name
    ensures NamesExactly(Join(order, ','), wanted)
  {
    assert order[0] in Elements(order) by { assert "ID" in Elements(order); }
    forall i | 0 <= i < |order|
      ensures ',' !in order[i]
    {
      assert order[i] in Elements(order);
    }
    SplitJoin(order, ',');
  }

  /** `_columns_to_params`. `order` is the order the set was joined in;
      `callerColumns` is the caller's list after the call, which gains a
      trailing "ID" (a missing list stays missing). */
  method ColumnsToParams(columns: Option<seq<string>>)
    returns (params: string, order: seq<string>, callerColumns: Option<seq<string>>)
    ensures params == Join(order, ',')
    ensures NoDuplicates(order)
    ensures Elements(order) == Requested(columns) + {"ID"}
    ensures columns.None? ==> params == "ID" && callerColumns.None?
    ensures columns.Some? ==> callerColumns == Some(columns.value + ["ID"])
    ensures columns.None? || FreeOf(columns.value, ',') ==> NamesExactly(params, Requested(columns))
  {
    var list := if columns.None? then [] else columns.value;
    list := list + ["ID"];
    callerColumns := if columns.None? then None else Some(list);
    assert Elements(list) == Requested(columns) + {"ID"};
    order := Enumerate(Elements(list));
    params := Join(order, ',');
    if columns.None? {
      OnlyId(order);
    }
    if columns.None? || FreeOf(columns.value, ',') {
      JoinedNamesSplitBack(order, Requested(columns));
    }
  }
}
