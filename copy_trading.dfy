/** The copy-trading page: followed traders, their totals, and the per-trader subscription form. */
module CopyTrading {
  import opened Js
  import opened Http
  import opened Records

  /** The three traders offered; only their ids matter to the page's logic. */
  const TopTraderIds: seq<string> := ["trader1", "trader2", "trader3"]

  /** GET /api/copy/subscriptions, and POST /api/copy/subscribe with the raw allocation text. */
  datatype Call = GetFollowedTraders | Subscribe(traderId: string, allocation: string)

  datatype SubscriptionsBody = SubscriptionsBody(subscriptions: Option<seq<Subscription>>)

  datatype CopyState = CopyState(
    subscriptions: seq<Subscription>, loading: bool, selectedTrader: Option<string>,
    allocation: string, calls: seq<Call>)

  const Initial: CopyState := CopyState([], false, None, "", [])

  /** `fetchData` up to its request. */
  function BeginFetch(s: CopyState): CopyState
  {
    s.(calls := s.calls + [GetFollowedTraders])
  }

  /** `fetchData` resolved: only an OK, readable body replaces the list. */
  function CompleteFetch(s: CopyState, o: Outcome<SubscriptionsBody>): (r: CopyState)
    ensures r.(subscriptions := s.subscriptions) == s
    ensures o.Ok? ==> r.subscriptions == o.payload.subscriptions.GetOr([])
    ensures !o.Ok? ==> r == s
  {
    if o.Ok? then s.(subscriptions := o.payload.subscriptions.GetOr([])) else s
  }

  /** `onClick={() => setSelectedTrader(trader.id)}`: the form moves to that card; the typed allocation stays. */
  function SelectStep(s: CopyState, traderId: string): (r: CopyState)
    ensures FormShown(r, traderId) && forall other :: other != traderId ==> !FormShown(r, other)
    ensures r.allocation == s.allocation && r.subscriptions == s.subscriptions && r.calls == s.calls
  {
    s.(selectedTrader := Some(traderId))
  }

  /** The Cancel button. */
  function CancelStep(s: CopyState): (r: CopyState)
    ensures forall t :: !FormShown(r, t)
    ensures r.allocation == "" && r.calls == s.calls && r.subscriptions == s.subscriptions
  {
    s.(selectedTrader := None, allocation := "")
  }

  /**
   * `handleSubscribe(traderId)` with outcome `o` of the POST. An empty
   * allocation stops it before anything happens; an OK response closes the
   * form and starts a reload that is not awaited.
   */
  function SubscribeStep(s: CopyState, traderId: string, o: Outcome<()>): (r: CopyState)
    ensures !Truthy(s.allocation) ==> r == s
    ensures Truthy(s.allocation) ==> !r.loading && r.subscriptions == s.subscriptions
    ensures Truthy(s.allocation) && o.IsOk() ==>
              r.selectedTrader == None && r.allocation == ""
              && r.calls == s.calls + [Subscribe(traderId, s.allocation), GetFollowedTraders]
    ensures Truthy(s.allocation) && !o.IsOk() ==>
              r == s.(loading := false, calls := s.calls + [Subscribe(traderId, s.allocation)])
  {
    if !Truthy(s.allocation) then s
    else
      var posted := s.(loading := true, calls := s.calls + [Subscribe(traderId, s.allocation)]);
      var answered := if o.IsOk() then BeginFetch(posted.(selectedTrader := None, allocation := "")) else posted;
      answered.(loading := false)
  }

  /** `selectedTrader === trader.id`: the card shows the allocation form instead of its Copy button. */
  predicate FormShown(s: CopyState, traderId: string)
  {
    s.selectedTrader == Some(traderId)
  }

  /** Whatever the state, at most one of the offered cards shows the form. */
  lemma {:induction false} OneFormAtATime(s: CopyState)
    ensures forall i, j :: 0 <= i < j < |TopTraderIds| ==>
              !(FormShown(s, TopTraderIds[i]) && FormShown(s, TopTraderIds[j]))
  {
  }

  /** `disabled={loading || !allocation}` */
  predicate ConfirmDisabled(s: CopyState)
  {
    s.loading || !Truthy(s.allocation)
  }

  /**
   * A request goes out exactly when an allocation was typed, so an enabled
   * Confirm button always sends one, and the handler's early return is only
   * reached when the button was disabled.
   */
  lemma {:induction false} GuardMatchesButton(s: CopyState, traderId: string, o: Outcome<()>)
    ensures SubscribeStep(s, traderId, o).calls == s.calls <==> !Truthy(s.allocation)
    ensures !ConfirmDisabled(s) ==> SubscribeStep(s, traderId, o).calls[|s.calls|] == Subscribe(traderId, s.allocation)
    ensures SubscribeStep(s, traderId, o) == s ==> ConfirmDisabled(s)
  {
  }

  /** A subscription that went through closes every card's form and leaves no button usable until new input. */
  lemma {:induction false} SubscribeClosesForm(s: CopyState, traderId: string, o: Outcome<()>)
    requires Truthy(s.allocation) && o.IsOk()
    ensures var r := SubscribeStep(s, traderId, o);
            (forall t :: !FormShown(r, t)) && ConfirmDisabled(r)
  {
  }

  /** A refused subscription keeps the form open with the same allocation, ready for another attempt. */
  lemma {:induction false} FailedSubscribeKeepsForm(s: CopyState, traderId: string, o: Outcome<()>)
    requires Truthy(s.allocation) && !o.IsOk()
    ensures var r := SubscribeStep(s, traderId, o);
            r.selectedTrader == s.selectedTrader && r.allocation == s.allocation && !ConfirmDisabled(r)
  {
  }

  /** `sub.allocation || 0` */
  function AllocationOf(sub: Subscription): int
  {
    sub.allocation.GetOr(0)
  }

  /** The plain sum of the allocations, recursing on the last element. */
  function SumAllocations(subs: seq<Subscription>): int
  {
    if subs == [] then 0 else SumAllocations(subs[..|subs| - 1]) + AllocationOf(subs[|subs| - 1])
  }

  /** `subscriptions.reduce((sum, sub) => sum + (sub.allocation || 0), acc)`, left to right. */
  function Reduce(acc: int, subs: seq<Subscription>): int
    decreases |subs|
  {
    if subs == [] then acc else Reduce(acc + AllocationOf(subs[0]), subs[1..])
  }

  lemma {:induction false} SumAppend(a: seq<Subscription>, b: seq<Subscription>)
    ensures SumAllocations(a + b) == SumAllocations(a) + SumAllocations(b)
    decreases |b|
  {
    if b == [] {
      assert a + b == a;
    } else {
      assert (a + b)[..|a + b| - 1] == a + b[..|b| - 1];
      SumAppend(a, b[..|b| - 1]);
    }
  }

  /** The left fold from `acc` is `acc` plus the sum. */
  lemma {:induction false} ReduceIsSum(acc: int, subs: seq<Subscription>)
    ensures Reduce(acc, subs) == acc + SumAllocations(subs)
    decreases |subs|
  {
    if subs != [] {
      ReduceIsSum(acc + AllocationOf(subs[0]), subs[1..]);
      assert subs == [subs[0]] + subs[1..];
      SumAppend([subs[0]], subs[1..]);
      assert [subs[0]][..0] == [];
    }
  }

  /** The "Total Allocated" figure. */
  function TotalAllocated(subs: seq<Subscription>): (total: int)
    ensures total == SumAllocations(subs)
  {
    ReduceIsSum(0, subs);
    Reduce(0, subs)
  }

  /** With no negative allocation the total never goes below zero and grows with each subscription added. */
  lemma {:induction false} TotalAllocatedMonotone(subs: seq<Subscription>, sub: Subscription)
    requires forall k :: 0 <= k < |subs| ==> AllocationOf(subs[k]) >= 0
    ensures TotalAllocated(subs) >= 0
    ensures TotalAllocated(subs + [sub]) == TotalAllocated(subs) + AllocationOf(sub)
    decreases |subs|
  {
    SumAppend(subs, [sub]);
    assert [sub][..0] == [];
    if subs != [] {
      var init := subs[..|subs| - 1];
      assert forall k :: 0 <= k < |init| ==> init[k] == subs[k];
      TotalAllocatedMonotone(init, subs[|subs| - 1]);
    }
  }

  /** The "Active Subscriptions" figure. */
  function ActiveSubscriptions(subs: seq<Subscription>): nat
  {
    |subs|
  }

  class CopyTradingPage {
    var subscriptions: seq<Subscription>
    var loading: bool
    var selectedTrader: Option<string>
    var allocation: string
    var calls: seq<Call>

    function State(): CopyState
      reads this
    {
      CopyState(subscriptions, loading, selectedTrader, allocation, calls)
    }

    constructor ()
      ensures State() == Initial
    {
      subscriptions, loading, selectedTrader, allocation, calls := [], false, None, "", [];
    }

    method StartFetch()
      modifies this
      ensures State() == BeginFetch(old(State()))
    {
      calls := calls + [GetFollowedTraders];
    }

    method FinishFetch(o: Outcome<SubscriptionsBody>)
      modifies this
      ensures State() == CompleteFetch(old(State()), o)
    {
      if o.Ok? {
        subscriptions := o.payload.subscriptions.GetOr([]);
      }
    }

    method SelectTrader(traderId: string)
      modifies this
      ensures State() == SelectStep(old(State()), traderId)
    {
      selectedTrader := Some(traderId);
    }

    method Cancel()
      modifies this
      ensures State() == CancelStep(old(State()))
    {
      selectedTrader := None;
      allocation := "";
    }

    method SetAllocation(value: string)
      modifies this
      ensures State() == old(State()).(allocation := value)
    {
      allocation := value;
    }

    method HandleSubscribe(traderId: string, o: Outcome<()>)
      modifies this
      ensures State() == SubscribeStep(old(State()), traderId, o)
    {
      if !Truthy(allocation) {
        return;
      }
      loading := true;
      calls := calls + [Subscribe(traderId, allocation)];
      if o.IsOk() {
        selectedTrader := None;
        allocation := "";
        StartFetch();  // not awaited
      }
      loading := false;  // finally
    }
  }
}
