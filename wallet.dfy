/** The wallet page: balance and histories, withdrawal and transfer requests, the deposit dialog. */
module Wallet {
  import opened Js
  import opened Http
  import opened Records

  /** The requests the page sends. Amounts are the raw input text the page parses before posting. */
  datatype Call =
    | GetBalance | GetWithdrawals | GetDeposits
    | PostWithdraw(amount: string)
    | PostTransfer(recipient: string, amount: string)

  datatype BalanceBody = BalanceBody(balance: Option<int>)
  datatype WithdrawalsBody = WithdrawalsBody(withdrawals: Option<seq<Withdrawal>>)
  datatype DepositsBody = DepositsBody(deposits: Option<seq<Deposit>>)

  const LoadFailed: string := "Failed to load wallet data. Please try again."
  const NetworkFailed: string := "Network error. Please check your connection and try again."

  const Loads: seq<Call> := [GetBalance, GetWithdrawals, GetDeposits]

  datatype WalletState = WalletState(
    balance: int, withdrawals: seq<Withdrawal>, deposits: seq<Deposit>,
    loading: bool, initialLoading: bool, error: Option<string>,
    withdrawAmount: string, transferRecipient: string, transferAmount: string,
    depositModalOpen: bool, calls: seq<Call>)

  const Initial: WalletState := WalletState(0, [], [], false, true, None, "", "", "", false, [])

  function BalanceOf(o: Outcome<BalanceBody>): int
  {
    if o.Ok? then o.payload.balance.GetOr(0) else 0
  }

  function WithdrawalsOf(o: Outcome<WithdrawalsBody>): seq<Withdrawal>
  {
    if o.Ok? then o.payload.withdrawals.GetOr([]) else []
  }

  function DepositsOf(o: Outcome<DepositsBody>): seq<Deposit>
  {
    if o.Ok? then o.payload.deposits.GetOr([]) else []
  }

  /** The data slots and the error are all a load may touch; the inputs, dialog and `loading` stay. */
  predicate SameForm(a: WalletState, b: WalletState)
  {
    a.loading == b.loading && a.withdrawAmount == b.withdrawAmount
    && a.transferRecipient == b.transferRecipient && a.transferAmount == b.transferAmount
    && a.depositModalOpen == b.depositModalOpen
  }

  predicate SameData(a: WalletState, b: WalletState)
  {
    a.balance == b.balance && a.withdrawals == b.withdrawals && a.deposits == b.deposits
  }

  /** The part of `fetchWalletData` before its first `await`. */
  function BeginFetch(s: WalletState): (r: WalletState)
    ensures r.initialLoading && r.error == None && r.calls == s.calls + Loads
    ensures SameData(r, s) && SameForm(r, s)
  {
    s.(initialLoading := true, error := None, calls := s.calls + Loads)
  }

  /** No call was rejected and no OK body failed to parse. */
  predicate Clean(b: Outcome<BalanceBody>, w: Outcome<WithdrawalsBody>, d: Outcome<DepositsBody>)
  {
    AllResponded(b, w, d) && !b.Malformed? && !w.Malformed? && !d.Malformed?
  }

  /**
   * The rest of `fetchWalletData`, once `Promise.all` settled on `b`, `w` and
   * `d`. Bodies are read in order and one that fails to parse throws after the
   * slots before it were set.
   */
  function CompleteFetch(s: WalletState, b: Outcome<BalanceBody>, w: Outcome<WithdrawalsBody>,
                         d: Outcome<DepositsBody>): (r: WalletState)
    ensures !r.initialLoading && r.calls == s.calls && SameForm(r, s)
    ensures Clean(b, w, d) ==>
              r.balance == BalanceOf(b) && r.withdrawals == WithdrawalsOf(w) && r.deposits == DepositsOf(d)
    ensures !AllResponded(b, w, d) || b.Malformed? ==> SameData(r, s)
    ensures !Clean(b, w, d) ==> r.error == Some(NetworkFailed)
    ensures AllResponded(b, w, d) && !b.IsOk() && !w.IsOk() && !d.IsOk() ==> r.error == Some(LoadFailed)
    // an accepted load with at least one OK response keeps the error the load began with
    ensures Clean(b, w, d) && (b.IsOk() || w.IsOk() || d.IsOk()) ==> r.error == s.error
  {
    if !AllResponded(b, w, d) || b.Malformed? then
      s.(error := Some(NetworkFailed), initialLoading := false)
    else
      var s1 := s.(balance := BalanceOf(b));
      if w.Malformed? then s1.(error := Some(NetworkFailed), initialLoading := false)
      else
        var s2 := s1.(withdrawals := WithdrawalsOf(w));
        if d.Malformed? then s2.(error := Some(NetworkFailed), initialLoading := false)
        else
          var s3 := s2.(deposits := DepositsOf(d));
          var s4 := if !b.IsOk() && !w.IsOk() && !d.IsOk() then s3.(error := Some(LoadFailed)) else s3;
          s4.(initialLoading := false)
  }

  /** A whole load: the banner's message is decided by the outcomes alone. */
  lemma {:induction false} FetchError(s: WalletState, b: Outcome<BalanceBody>, w: Outcome<WithdrawalsBody>,
                                      d: Outcome<DepositsBody>)
    ensures var r := CompleteFetch(BeginFetch(s), b, w, d);
            (r.error == Some(LoadFailed) <==> AllResponded(b, w, d) && !b.IsOk() && !w.IsOk() && !d.IsOk())
            && (r.error == Some(NetworkFailed) <==> !Clean(b, w, d))
            && (r.error == None <==> Clean(b, w, d) && (b.IsOk() || w.IsOk() || d.IsOk()))
  {
    var r := CompleteFetch(BeginFetch(s), b, w, d);
    if AllResponded(b, w, d) && !b.IsOk() && !w.IsOk() && !d.IsOk() {
      assert Clean(b, w, d);
    }
  }

  /** What the balance card shows: `...` while loading, the figure otherwise. */
  function BalanceShown(s: WalletState): (r: Option<int>)
    ensures r.None? <==> s.initialLoading
    ensures r.Some? ==> r.value == s.balance
  {
    if s.initialLoading then None else Some(s.balance)
  }

  /** `handleDeposit`: the deposit dialog opens; nothing is sent. */
  function DepositStep(s: WalletState): (r: WalletState)
    ensures r.depositModalOpen && r.calls == s.calls
    ensures r.(depositModalOpen := s.depositModalOpen) == s
  {
    s.(depositModalOpen := true)
  }

  /**
   * `handleWithdraw` with outcome `o` of POST /api/withdraw. On an OK response
   * the input is cleared and a reload is started without being awaited, so
   * only its first part has run when the handler ends.
   */
  function WithdrawStep(s: WalletState, o: Outcome<()>): (r: WalletState)
    ensures !r.loading
    ensures SameData(r, s) && r.depositModalOpen == s.depositModalOpen
    ensures r.transferRecipient == s.transferRecipient && r.transferAmount == s.transferAmount
    ensures o.IsOk() ==>
              r.withdrawAmount == "" && r.initialLoading && r.error == None
              && r.calls == s.calls + [PostWithdraw(s.withdrawAmount)] + Loads
    // a refused or failed request leaves everything but the log as it was
    ensures !o.IsOk() ==> r == s.(loading := false, calls := s.calls + [PostWithdraw(s.withdrawAmount)])
  {
    var posted := s.(loading := true, calls := s.calls + [PostWithdraw(s.withdrawAmount)]);
    var answered := if o.IsOk() then BeginFetch(posted.(withdrawAmount := "")) else posted;
    answered.(loading := false)
  }

  /** `handleTransfer` with outcome `o` of POST /api/transfer. */
  function TransferStep(s: WalletState, o: Outcome<()>): (r: WalletState)
    ensures !r.loading
    ensures SameData(r, s) && r.depositModalOpen == s.depositModalOpen && r.withdrawAmount == s.withdrawAmount
    ensures o.IsOk() ==>
              r.transferRecipient == "" && r.transferAmount == "" && r.initialLoading && r.error == None
              && r.calls == s.calls + [PostTransfer(s.transferRecipient, s.transferAmount)] + Loads
    ensures !o.IsOk() ==>
              r == s.(loading := false, calls := s.calls + [PostTransfer(s.transferRecipient, s.transferAmount)])
  {
    var posted := s.(loading := true, calls := s.calls + [PostTransfer(s.transferRecipient, s.transferAmount)]);
    var answered :=
      if o.IsOk() then BeginFetch(posted.(transferRecipient := "", transferAmount := "")) else posted;
    answered.(loading := false)
  }

  /** `disabled={loading || !withdrawAmount}` */
  predicate WithdrawDisabled(s: WalletState)
  {
    s.loading || !Truthy(s.withdrawAmount)
  }

  /** `disabled={loading || !transferRecipient || !transferAmount}` */
  predicate TransferDisabled(s: WalletState)
  {
    s.loading || !Truthy(s.transferRecipient) || !Truthy(s.transferAmount)
  }

  /**
   * A withdrawal that went through disables its button until a new amount is
   * typed; one that did not leaves the button usable for a retry of the same
   * amount. The transfer button is not affected either way.
   */
  lemma {:induction false} WithdrawButtonAfter(s: WalletState, o: Outcome<()>)
    requires Truthy(s.withdrawAmount)
    ensures WithdrawDisabled(WithdrawStep(s, o)) <==> o.IsOk()
    ensures TransferDisabled(WithdrawStep(s, o)) <==> !Truthy(s.transferRecipient) || !Truthy(s.transferAmount)
  {
  }

  lemma {:induction false} TransferButtonAfter(s: WalletState, o: Outcome<()>)
    requires Truthy(s.transferRecipient) && Truthy(s.transferAmount)
    ensures TransferDisabled(TransferStep(s, o)) <==> o.IsOk()
    ensures WithdrawDisabled(TransferStep(s, o)) <==> !Truthy(s.withdrawAmount)
  {
  }

  /** The reload a withdrawal starts, once answered cleanly, shows the server's new balance. */
  lemma {:induction false} WithdrawThenReload(s: WalletState, o: Outcome<()>, b: Outcome<BalanceBody>,
                                              w: Outcome<WithdrawalsBody>, d: Outcome<DepositsBody>)
    requires o.IsOk() && Clean(b, w, d)
    ensures var r := CompleteFetch(WithdrawStep(s, o), b, w, d);
            BalanceShown(r) == Some(BalanceOf(b)) && r.withdrawAmount == ""
            && r.calls == s.calls + [PostWithdraw(s.withdrawAmount)] + Loads
            && (r.error == None <==> b.IsOk() || w.IsOk() || d.IsOk())
  {
    var m := WithdrawStep(s, o);
    assert m.error == None;
    var r := CompleteFetch(m, b, w, d);
    if !b.IsOk() && !w.IsOk() && !d.IsOk() {
      assert r.error == Some(LoadFailed);
    }
  }

  datatype Icon = CheckCircle | Clock | XCircle

  /** `getStatusIcon`: an icon for the three known statuses, none for any other. */
  function StatusIcon(status: string): (r: Option<Icon>)
    ensures r == Some(CheckCircle) <==> status == "approved"
    ensures r == Some(Clock) <==> status == "pending"
    ensures r == Some(XCircle) <==> status == "rejected"
    ensures r.None? <==> status !in {"approved", "pending", "rejected"}
  {
    match status
    case "approved" => Some(CheckCircle)
    case "pending" => Some(Clock)
    case "rejected" => Some(XCircle)
    case _ => None
  }

  class WalletPage {
    var balance: int
    var withdrawals: seq<Withdrawal>
    var deposits: seq<Deposit>
    var loading: bool
    var initialLoading: bool
    var error: Option<string>
    var withdrawAmount: string
    var transferRecipient: string
    var transferAmount: string
    var depositModalOpen: bool
    var calls: seq<Call>

    function State(): WalletState
      reads this
    {
      WalletState(balance, withdrawals, deposits, loading, initialLoading, error,
                  withdrawAmount, transferRecipient, transferAmount, depositModalOpen, calls)
    }

    constructor ()
      ensures State() == Initial
    {
      balance, withdrawals, deposits := 0, [], [];
      loading, initialLoading, error := false, true, None;
      withdrawAmount, transferRecipient, transferAmount := "", "", "";
      depositModalOpen, calls := false, [];
    }

    /** `fetchWalletData` up to `Promise.all`. */
    method StartFetch()
      modifies this
      ensures State() == BeginFetch(old(State()))
    {
      initialLoading := true;
      error := None;
      calls := calls + Loads;
    }

    /** `fetchWalletData` after `Promise.all` settled. */
    method FinishFetch(b: Outcome<BalanceBody>, w: Outcome<WithdrawalsBody>, d: Outcome<DepositsBody>)
      modifies this
      ensures State() == CompleteFetch(old(State()), b, w, d)
    {
      if !AllResponded(b, w, d) || b.Malformed? {
        error := Some(NetworkFailed);
      } else {
        balance := BalanceOf(b);
        if w.Malformed? {
          error := Some(NetworkFailed);
        } else {
          withdrawals := WithdrawalsOf(w);
          if d.Malformed? {
            error := Some(NetworkFailed);
          } else {
            deposits := DepositsOf(d);
            if !b.IsOk() && !w.IsOk() && !d.IsOk() {
              error := Some(LoadFailed);
            }
          }
        }
      }
      initialLoading := false;  // finally
    }

    /** `fetchWalletData` awaited as a whole: on mount and by the Retry button. */
    method FetchWalletData(b: Outcome<BalanceBody>, w: Outcome<WithdrawalsBody>, d: Outcome<DepositsBody>)
      modifies this
      ensures State() == CompleteFetch(BeginFetch(old(State())), b, w, d)
    {
      StartFetch();
      FinishFetch(b, w, d);
    }

    method HandleDeposit()
      modifies this
      ensures State() == DepositStep(old(State()))
    {
      depositModalOpen := true;
    }

    /** The dialog's Close button. */
    method CloseDepositModal()
      modifies this
      ensures State() == old(State()).(depositModalOpen := false)
    {
      depositModalOpen := false;
    }

    method HandleWithdraw(o: Outcome<()>)
      modifies this
      ensures State() == WithdrawStep(old(State()), o)
    {
      loading := true;
      calls := calls + [PostWithdraw(withdrawAmount)];
      if o.IsOk() {
        withdrawAmount := "";
        StartFetch();  // not awaited
      }
      loading := false;  // finally
    }

    method HandleTransfer(o: Outcome<()>)
      modifies this
      ensures State() == TransferStep(old(State()), o)
    {
      loading := true;
      calls := calls + [PostTransfer(transferRecipient, transferAmount)];
      if o.IsOk() {
        transferRecipient := "";
        transferAmount := "";
        StartFetch();  // not awaited
      }
      loading := false;  // finally
    }

    method SetWithdrawAmount(value: string)
      modifies this
      ensures State() == old(State()).(withdrawAmount := value)
    {
      withdrawAmount := value;
    }

    method SetTransferRecipient(value: string)
      modifies this
      ensures State() == old(State()).(transferRecipient := value)
    {
      transferRecipient := value;
    }

    method SetTransferAmount(value: string)
      modifies this
      ensures State() == old(State()).(transferAmount := value)
    {
      transferAmount := value;
    }
  }
}
