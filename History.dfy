/** `HistoryService`: an in-memory list of analysis results. The list is one
    object for the service's whole life: `get_history` hands out that object, and
    `clear_history` empties it in place. */
module History {
  import opened Json

  /** The Python list `self._history`. */
  class HistoryList {
    var items: seq<Json>

    constructor ()
      ensures items == []
    {
      items := [];
    }

    /** `list.append(x)`. */
    method Append(x: Json)
      modifies this
      ensures items == old(items) + [x]
    {
      items := items + [x];
    }

    /** `list.clear()`. */
    method Clear()
      modifies this
      ensures items == []
    {
      items := [];
    }
  }

  class HistoryService {
    const history: HistoryList

    /** A new service starts with an empty history of its own. */
    constructor ()
      ensures fresh(history) && history.items == []
    {
      history := new HistoryList();
    }

    /** `add_to_history`: appends at the end; earlier items stay as they were. */
    method AddToHistory(analysisResult: Json)
      modifies history
      ensures history.items == old(history.items) + [analysisResult]
      ensures |history.items| == |old(history.items)| + 1
      ensures history.items[..|old(history.items)|] == old(history.items)
    {
      history.Append(analysisResult);
      assert history.items[..|old(history.items)|] == old(history.items);
    }

    /** `get_history`: the list object itself, so later additions are visible
        through it; nothing changes. */
    method GetHistory() returns (r: HistoryList)
      ensures r == history
      ensures r.items == history.items
    {
      r := history;
    }

    /** `clear_history`: empties the list. The Python method returns nothing; `count`
        is the number of removed items it logs, the list's former length. */
    method ClearHistory() returns (count: nat)
      modifies history
      ensures count == |old(history.items)|
      ensures history.items == []
    {
      count := |history.items|;
      history.Clear();
    }
  }

  /** Items added after `get_history` appear in the list it returned, and a
      clear empties it too; clearing twice removes nothing the second time, and
      an addition after a clear leaves exactly that one item. */
  method HistoryLifecycle(a: Json, b: Json)
    returns (seen: seq<Json>, removed: nat, removedAgain: nat, afterClear: seq<Json>)
    ensures seen == [a, b]
    ensures removed == 2 && removedAgain == 0
    ensures afterClear == [b]
  {
    var service := new HistoryService();
    var view := service.GetHistory();
    service.AddToHistory(a);
    service.AddToHistory(b);
    seen := view.items;
    removed := service.ClearHistory();
    assert view.items == [];
    removedAgain := service.ClearHistory();
    service.AddToHistory(b);
    afterClear := view.items;
  }
}
