/** The dashboard: balance, trades and subscriptions loaded together, and the counts shown from them. */
module Dashboard {
  import opened Js
  import opened Http
  import opened Records

  /** The three GETs of one load: /api/wallet, /api/trades, /api/copy/subscriptions. */
  datatype Call = GetBalance | GetTrades | GetFollowedTraders

  datatype WalletBody = WalletBody(balance: Option<int>)
  datatype TradesBody = TradesBody(trades: Option<seq<Trade>>)
  datatype SubscriptionsBody = SubscriptionsBody(subscriptions: Option<seq<Subscription>>)

  const LoadFailed: string := "Failed to load dashboard data. Please try again."
  const NetworkFailed: string := "Network error. Please check your connection and try again."

  datatype DashboardState = DashboardState(
    balance: int, trades: seq<Trade>, subscriptions: seq<Subscription>,
    loading: bool, error: Option<string>, calls: seq<Call>)

  const Initial: DashboardState := DashboardState(0, [], [], true, None, [])

  /** What each settled response puts in its slot: the field or its default on OK, the reset value otherwise. */
  function BalanceOf(o: Outcome<WalletBody>): int
  {
    if o.Ok? then o.payload.balance.GetOr(0) else 0
  }

  function TradesOf(o: Outcome<TradesBody>): seq<Trade>
  {
    if o.Ok? then o.payload.trades.GetOr([]) else []
  }

  function SubscriptionsOf(o: Outcome<SubscriptionsBody>): seq<Subscription>
  {
    if o.Ok? then o.payload.subscriptions.GetOr([]) else []
  }

  /** The part of `fetchDashboardData` before its first `await`. */
  function BeginFetch(s: DashboardState): (r: DashboardState)
    ensures r.loading && r.error == None
    ensures r.calls == s.calls + [GetBalance, GetTrades, GetFollowedTraders]
    ensures r.balance == s.balance && r.trades == s.trades && r.subscriptions == s.subscriptions
  {
    s.(loading := true, error := None, calls := s.calls + [GetBalance, GetTrades, GetFollowedTraders])
  }

  /** No call was rejected and no OK body failed to parse. */
  predicate Clean(w: Outcome<WalletBody>, t: Outcome<TradesBody>, u: Outcome<SubscriptionsBody>)
  {
    AllResponded(w, t, u) && !w.Malformed? && !t.Malformed? && !u.Malformed?
  }

  /**
   * `fetchDashboardData`, with `Promise.all` settling on `w`, `t` and `u`. A
   * body that fails to parse throws at its `await`, after the slots before it
   * were set.
   */
  function FetchStep(s: DashboardState, w: Outcome<WalletBody>, t: Outcome<TradesBody>,
                     u: Outcome<SubscriptionsBody>): (r: DashboardState)
    ensures !r.loading && r.calls == BeginFetch(s).calls
    ensures Clean(w, t, u) ==>
              r.balance == BalanceOf(w) && r.trades == TradesOf(t) && r.subscriptions == SubscriptionsOf(u)
    // a rejected call, or an unreadable wallet body, leaves every slot as it was
    ensures !AllResponded(w, t, u) || w.Malformed? ==>
              r.balance == s.balance && r.trades == s.trades && r.subscriptions == s.subscriptions
    // the load error appears only when all three responses are not OK
    ensures r.error == Some(LoadFailed) <==> AllResponded(w, t, u) && !w.IsOk() && !t.IsOk() && !u.IsOk()
    ensures r.error == Some(NetworkFailed) <==> !Clean(w, t, u)
    ensures r.error == None <==> Clean(w, t, u) && (w.IsOk() || t.IsOk() || u.IsOk())
  {
    var b := BeginFetch(s);
    if !AllResponded(w, t, u) || w.Malformed? then
      b.(error := Some(NetworkFailed), loading := false)
    else
      var s1 := b.(balance := BalanceOf(w));
      if t.Malformed? then s1.(error := Some(NetworkFailed), loading := false)
      else
        var s2 := s1.(trades := TradesOf(t));
        if u.Malformed? then s2.(error := Some(NetworkFailed), loading := false)
        else
          var s3 := s2.(subscriptions := SubscriptionsOf(u));
          var s4 := if !w.IsOk() && !t.IsOk() && !u.IsOk() then s3.(error := Some(LoadFailed)) else s3;
          s4.(loading := false)
  }

  /** An unreadable trades body keeps the balance just read and the old subscriptions. */
  lemma {:induction false} PartialLoad(s: DashboardState, w: Outcome<WalletBody>, u: Outcome<SubscriptionsBody>)
    requires w.Responded() && !w.Malformed? && u.Responded()
    ensures var r := FetchStep(s, w, Malformed, u);
            r.balance == BalanceOf(w) && r.trades == s.trades && r.subscriptions == s.subscriptions
  {
  }

  /** `status === 'open' || status === 'pending' || !status` */
  predicate IsActive(t: Trade)
  {
    t.status.None? || t.status.value in {"", "open", "pending"}
  }

  /** `getActiveTradesCount`: the length of the filtered list. */
  function ActiveTradesCount(trades: seq<Trade>): (n: nat)
    ensures n <= |trades|
    ensures n == |trades| <==> forall k :: 0 <= k < |trades| ==> IsActive(trades[k])
    ensures n == 0 <==> forall k :: 0 <= k < |trades| ==> !IsActive(trades[k])
  {
    if trades == [] then 0
    else
      var rest := trades[..|trades| - 1];
      var n := ActiveTradesCount(rest) + (if IsActive(trades[|trades| - 1]) then 1 else 0);
      assert forall k :: 0 <= k < |rest| ==> rest[k] == trades[k];
      n
  }

  /** The count of active trades over two lists is the sum of the counts. */
  lemma {:induction false} ActiveTradesCountAppend(a: seq<Trade>, b: seq<Trade>)
    ensures ActiveTradesCount(a + b) == ActiveTradesCount(a) + ActiveTradesCount(b)
    decreases |b|
  {
    if b == [] {
      assert a + b == a;
    } else {
      var b' := b[..|b| - 1];
      assert (a + b)[..|a + b| - 1] == a + b';
      ActiveTradesCountAppend(a, b');
    }
  }

  /** The copy-trading card's count. */
  function CopyTradingCount(subscriptions: seq<Subscription>): nat
  {
    |subscriptions|
  }

  /** After a clean load the card counts exactly the subscriptions the server returned. */
  lemma {:induction false} CopyTradingCountAfterLoad(s: DashboardState, w: Outcome<WalletBody>,
                                                     t: Outcome<TradesBody>, subs: seq<Subscription>)
    requires Clean(w, t, Ok(SubscriptionsBody(Some(subs))))
    ensures CopyTradingCount(FetchStep(s, w, t, Ok(SubscriptionsBody(Some(subs)))).subscriptions) == |subs|
  {
  }

  class DashboardPage {
    var balance: int
    var trades: seq<Trade>
    var subscriptions: seq<Subscription>
    var loading: bool
    var error: Option<string>
    var calls: seq<Call>

    function State(): DashboardState
      reads this
    {
      DashboardState(balance, trades, subscriptions, loading, error, calls)
    }

    constructor ()
      ensures State() == Initial
    {
      balance, trades, subscriptions := 0, [], [];
      loading, error, calls := true, None, [];
    }

    /** `fetchDashboardData`, run on mount and by the Retry button. */
    method FetchDashboardData(w: Outcome<WalletBody>, t: Outcome<TradesBody>, u: Outcome<SubscriptionsBody>)
      modifies this
      ensures State() == FetchStep(old(State()), w, t, u)
    {
      loading := true;
      error := None;
      calls := calls + [GetBalance, GetTrades, GetFollowedTraders];
      if !AllResponded(w, t, u) {
        error := Some(NetworkFailed);  // Promise.all rejected
      } else if w.Malformed? {
        error := Some(NetworkFailed);
      } else {
        balance := BalanceOf(w);
        if t.Malformed? {
          error := Some(NetworkFailed);
        } else {
          trades := TradesOf(t);
          if u.Malformed? {
            error := Some(NetworkFailed);
          } else {
            subscriptions := SubscriptionsOf(u);
            if !w.IsOk() && !t.IsOk() && !u.IsOk() {
              error := Some(LoadFailed);
            }
          }
        }
      }
      loading := false;  // finally
    }
  }
}
