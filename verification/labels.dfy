/**
 * The label list of the node details panel: at most five rows are shown
 * unless the list is expanded, or a hidden row matches the search.
 */
module Labels {

  /** DEFAULT_LIMIT */
  const DefaultLimit: nat := 5

  datatype Row = Row(id: string, labelText: string, value: string)

  /** What the list renders: the shown rows, the "not shown" count and whether it is expanded. */
  datatype Shown = Shown(rows: seq<Row>, notShown: int, expanded: bool)

  /** Some row at index limit or beyond has its id among the search matches. */
  function HasNotShownMatch(rows: seq<Row>, matches: set<string>, limit: nat): (b: bool)
    ensures b <==> exists i :: limit <= i < |rows| && rows[i].id in matches
    decreases |rows|
  {
    if |rows| <= limit then false
    else rows[|rows| - 1].id in matches || HasNotShownMatch(rows[..|rows| - 1], matches, limit)
  }

  /**
   * The row limiting of render: a list longer than a nonzero limit is cut to
   * its first `limit` rows, unless a row beyond the cut matches the search.
   */
  function LimitRows(rows: seq<Row>, matches: set<string>, limit: nat): (r: Shown)
    ensures r.expanded <==> limit == 0
    ensures |r.rows| <= |rows| && r.rows == rows[..|r.rows|]
    ensures limit == 0 || |rows| <= limit ==> r.rows == rows && r.notShown == 0
    ensures 0 < limit < |rows| && (forall i :: limit <= i < |rows| ==> rows[i].id !in matches) ==>
      r.rows == rows[..limit] && r.notShown == |rows| - DefaultLimit
    ensures 0 < limit < |rows| && (exists i :: limit <= i < |rows| && rows[i].id in matches) ==>
      r.rows == rows && r.notShown == 0
  {
    var limited := limit > 0 && |rows| > limit;
    if limited && !HasNotShownMatch(rows, matches, limit) then
      Shown(rows[..limit], |rows| - DefaultLimit, limit == 0)
    else
      Shown(rows, 0, limit == 0)
  }

  /** With the limit the toggle produces, the "not shown" count is exactly the number of hidden rows. */
  lemma NotShownCountsHiddenRows(rows: seq<Row>, matches: set<string>, limit: nat)
    requires limit == 0 || limit == DefaultLimit
    ensures LimitRows(rows, matches, limit).notShown == |rows| - |LimitRows(rows, matches, limit).rows|
  {
  }

  class NodeDetailsLabels {
    var limit: nat

    ghost predicate Valid()
      reads this
    {
      limit == 0 || limit == DefaultLimit
    }

    constructor ()
      ensures Valid() && limit == DefaultLimit
    {
      limit := DefaultLimit;
    }

    /** handleLimitClick: toggles between the default limit and no limit. */
    method HandleLimitClick()
      requires Valid()
      modifies this
      ensures Valid()
      ensures limit == if old(limit) != 0 then 0 else DefaultLimit
    {
      limit := if limit != 0 then 0 else DefaultLimit;
    }

    /**
     * The rows render shows for the current limit: all of them when expanded,
     * otherwise at most five unless a hidden row matches; "not shown" counts
     * exactly the rows left out.
     */
    function Render(rows: seq<Row>, matches: set<string>): (r: Shown)
      reads this
      requires Valid()
      ensures r.expanded ==> r.rows == rows
      ensures |r.rows| <= DefaultLimit || r.rows == rows
      ensures r.notShown == |rows| - |r.rows|
      ensures limit == DefaultLimit && |rows| > DefaultLimit && !HasNotShownMatch(rows, matches, limit) ==>
        r.rows == rows[..DefaultLimit]
      ensures r == LimitRows(rows, matches, limit)
    {
      NotShownCountsHiddenRows(rows, matches, limit);
      LimitRows(rows, matches, limit)
    }
  }

  /** Clicking "show more" twice restores the list as it was. */
  method ToggleTwice(labels: NodeDetailsLabels)
    requires labels.Valid()
    modifies labels
    ensures labels.Valid() && labels.limit == old(labels.limit)
  {
    labels.HandleLimitClick();
    labels.HandleLimitClick();
  }
}
