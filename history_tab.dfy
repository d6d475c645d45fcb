/** The history tab: loads the logged queries once on mount and lists
    them; "Clear History" deletes the history and then loads it again. */
module HistoryTab {
  import opened Common

  datatype HistoryItem = HistoryItem(timestamp: string, input: string, model: string, intent: string, confidence: real)

  /** What the tab shows. */
  datatype View = LoadingView | EmptyView | ItemsView(items: seq<HistoryItem>)

  class HistoryTab {
    var history: seq<HistoryItem>
    var loading: bool

    /** Mounting: no items yet, and the loading indicator is on until the
        first load settles. */
    constructor ()
      ensures history == [] && loading
    {
      history := [];
      loading := true;
    }

    /** `loadHistory` once `/history` settled: a successful load replaces
        the list; a failed one is only logged to the console and keeps the
        old list; either way loading ends. */
    method CompleteLoad(outcome: Settled<seq<HistoryItem>>)
      modifies this
      ensures outcome.Resolved? ==> history == outcome.value
      ensures outcome.Rejected? ==> history == old(history)
      ensures !loading
    {
      if outcome.Resolved? {
        history := outcome.value;
      }
      loading := false;
    }

    /** `handleClear`: when the delete fails, its exception escapes the
        handler and nothing changes, not even a reload; otherwise the
        history is loaded again. Loading is never switched back on, so the
        old list stays visible while the reload is in flight. */
    method HandleClear(clearOutcome: Settled<()>, loadOutcome: Settled<seq<HistoryItem>>) returns (escaped: Option<Thrown>)
      modifies this
      ensures clearOutcome.Rejected? ==>
                escaped == Some(clearOutcome.thrown) && history == old(history) && loading == old(loading)
      ensures clearOutcome.Resolved? ==> escaped == None && !loading
      ensures clearOutcome.Resolved? && loadOutcome.Resolved? ==> history == loadOutcome.value
      ensures clearOutcome.Resolved? && loadOutcome.Rejected? ==> history == old(history)
    {
      if clearOutcome.Rejected? {
        return Some(clearOutcome.thrown);
      }
      CompleteLoad(loadOutcome);
      escaped := None;
    }

    /** The loading text, "No history yet", or one card per item in order. */
    function Shown(): (v: View)
      reads this
      ensures v.LoadingView? <==> loading
      ensures v.EmptyView? <==> !loading && history == []
      ensures v.ItemsView? ==> v.items == history && |v.items| > 0
    {
      if loading then LoadingView
      else if |history| == 0 then EmptyView
      else ItemsView(history)
    }
  }

  /** A clear whose reload fails leaves the old entries on screen: the
      deleted history still shows. */
  method StaleAfterFailedReload(items: seq<HistoryItem>, t: Thrown) returns (tab: HistoryTab)
    requires items != []
    ensures tab.Shown() == ItemsView(items)
  {
    tab := new HistoryTab();
    tab.CompleteLoad(Resolved(items));
    var _ := tab.HandleClear(Resolved(()), Rejected(t));
  }

  /** A failed first load shows "No history yet", not an error. */
  method FailedFirstLoadLooksEmpty(t: Thrown) returns (tab: HistoryTab)
    ensures tab.Shown() == EmptyView
  {
    tab := new HistoryTab();
    tab.CompleteLoad(Rejected(t));
  }
}
