/**
 * The admin dashboard: the user table with per-user figures, pending
 * withdrawals, blocking, approval, and the balance and PNL dialogs.
 * The client's admin API has no `getUserProfit` and no `updateUserProfit`;
 * calling either throws a `TypeError`, and the model follows what the page
 * then does.
 */
module Admin {
  import opened Js
  import opened Http
  import opened Records

  /** A user as GET /api/admin/users lists it. */
  datatype AdminUser = AdminUser(id: string, email: string, role: string, blocked: bool)

  /** A row of the user table: the listed user with the figures the page attached. */
  datatype UserRow = UserRow(id: string, email: string, role: string, blocked: bool, balance: int, profit: int)

  datatype Call =
    | GetUsers | GetAllWithdrawals
    | GetUserBalance(userId: string)
    | BlockUser(userId: string, block: bool)
    | ApproveWithdrawal(withdrawalId: string)
    | UpdateUserBalance(userId: string, balance: string)

  datatype UsersBody = UsersBody(users: Option<seq<AdminUser>>)
  datatype WithdrawalsBody = WithdrawalsBody(withdrawals: Option<seq<Withdrawal>>)

  datatype AdminState = AdminState(
    users: seq<UserRow>, withdrawals: seq<Withdrawal>, loading: bool,
    balanceModalOpen: bool, profitModalOpen: bool, selectedUser: Option<UserRow>,
    newBalance: string, newProfit: string, calls: seq<Call>)

  const Initial: AdminState := AdminState([], [], false, false, false, None, "", "", [])

  /**
   * The row built for one user: the balance request is issued, then the
   * missing profit call throws inside the `try`, so the `catch` gives the row
   * zero balance and zero profit.
   */
  function RowOf(u: AdminUser): (r: UserRow)
    ensures r.id == u.id && r.email == u.email && r.role == u.role && r.blocked == u.blocked
    ensures r.balance == 0 && r.profit == 0
  {
    UserRow(u.id, u.email, u.role, u.blocked, 0, 0)
  }

  function Rows(users: seq<AdminUser>): (r: seq<UserRow>)
    ensures |r| == |users| && forall k :: 0 <= k < |users| ==> r[k] == RowOf(users[k])
  {
    seq(|users|, k requires 0 <= k < |users| => RowOf(users[k]))
  }

  /** The balance requests the row builders issue, one per listed user, in list order. */
  function BalanceCalls(users: seq<AdminUser>): (r: seq<Call>)
    ensures |r| == |users| && forall k :: 0 <= k < |users| ==> r[k] == GetUserBalance(users[k].id)
  {
    seq(|users|, k requires 0 <= k < |users| => GetUserBalance(users[k].id))
  }

  /** `fetchAdminData` up to `Promise.all`. */
  function BeginFetch(s: AdminState): AdminState
  {
    s.(calls := s.calls + [GetUsers, GetAllWithdrawals])
  }

  /**
   * `fetchAdminData` once `Promise.all` settled on `u` and `w`. A rejection,
   * an unreadable users body or one without a `users` list ends in the outer
   * `catch` before anything is stored; an unreadable withdrawals body ends
   * there after the users were stored.
   */
  function CompleteFetch(s: AdminState, u: Outcome<UsersBody>, w: Outcome<WithdrawalsBody>): (r: AdminState)
    ensures r.loading == s.loading && r.selectedUser == s.selectedUser
    ensures r.balanceModalOpen == s.balanceModalOpen && r.profitModalOpen == s.profitModalOpen
    ensures r.newBalance == s.newBalance && r.newProfit == s.newProfit
    ensures !(u.Responded() && w.Responded()) ==> r == s
    ensures u.IsOk() && (u.Malformed? || u.payload.users.None?) ==> r == s
    // an OK users list replaces the table with zero-figure rows and issues one balance request per user
    ensures u.Responded() && w.Responded() && u.Ok? && u.payload.users.Some? ==>
              r.users == Rows(u.payload.users.value)
              && r.calls == s.calls + BalanceCalls(u.payload.users.value)
    ensures u.Responded() && w.Responded() && !u.IsOk() ==> r.users == s.users && r.calls == s.calls
    ensures u.Responded() && w.Responded() && !(u.IsOk() && (u.Malformed? || u.payload.users.None?)) ==>
              r.withdrawals == (if w.Ok? then w.payload.withdrawals.GetOr([]) else s.withdrawals)
  {
    if !(u.Responded() && w.Responded()) then s
    else if u.IsOk() && (u.Malformed? || u.payload.users.None?) then s
    else
      var s1 := if u.Ok? then
                  s.(users := Rows(u.payload.users.value),
                     calls := s.calls + BalanceCalls(u.payload.users.value))
                else s;
      if w.Ok? then s1.(withdrawals := w.payload.withdrawals.GetOr([])) else s1
  }

  /** Every row the table can show carries zero balance and zero PNL. */
  lemma {:induction false} RowsHaveZeroFigures(s: AdminState, u: Outcome<UsersBody>, w: Outcome<WithdrawalsBody>)
    requires forall k :: 0 <= k < |s.users| ==> s.users[k].balance == 0 && s.users[k].profit == 0
    ensures var r := CompleteFetch(s, u, w);
            forall k :: 0 <= k < |r.users| ==> r.users[k].balance == 0 && r.users[k].profit == 0
  {
    var r := CompleteFetch(s, u, w);
    if u.Responded() && w.Responded() && u.Ok? && u.payload.users.Some? {
      assert r.users == Rows(u.payload.users.value);
    } else {
      assert r.users == s.users;
    }
  }

  /**
   * `handleBlockUser` and `handleApproveWithdrawal` share this shape: the
   * request `call`, a reload started on an OK response, and no change at all
   * otherwise.
   */
  function ActionStep(s: AdminState, call: Call, o: Outcome<()>): (r: AdminState)
    ensures !r.loading && r.users == s.users && r.withdrawals == s.withdrawals
    ensures o.IsOk() ==> r == s.(loading := false, calls := s.calls + [call, GetUsers, GetAllWithdrawals])
    ensures !o.IsOk() ==> r == s.(loading := false, calls := s.calls + [call])
  {
    var posted := s.(loading := true, calls := s.calls + [call]);
    var answered := if o.IsOk() then BeginFetch(posted) else posted;
    answered.(loading := false)
  }

  /** The row's Block/Unblock button. */
  function BlockCaption(row: UserRow): (c: string)
    ensures c == "Unblock" <==> row.blocked
  {
    if row.blocked then "Unblock" else "Block"
  }

  /** The button asks for the opposite of the row's flag, and its caption names that request. */
  lemma {:induction false} BlockButtonInverts(s: AdminState, row: UserRow, o: Outcome<()>)
    ensures var r := ActionStep(s, BlockUser(row.id, !row.blocked), o);
            r.calls[|s.calls|] == BlockUser(row.id, !row.blocked)
            && (r.calls[|s.calls|].block <==> BlockCaption(row) == "Block")
  {
  }

  /** `!selectedUser || !newBalance` */
  predicate BalanceGuardStops(s: AdminState)
  {
    s.selectedUser.None? || !Truthy(s.newBalance)
  }

  /**
   * `handleUpdateBalance` with outcome `o` of the POST: the dialog closes and
   * a reload starts only when the response is OK and its body is read.
   */
  function UpdateBalanceStep(s: AdminState, o: Outcome<()>): (r: AdminState)
    ensures BalanceGuardStops(s) ==> r == s
    ensures !BalanceGuardStops(s) ==> !r.loading && r.users == s.users && r.profitModalOpen == s.profitModalOpen
    ensures !BalanceGuardStops(s) && o.Ok? ==>
              !r.balanceModalOpen && r.newBalance == "" && r.selectedUser == None
              && r.calls == s.calls + [UpdateUserBalance(s.selectedUser.value.id, s.newBalance), GetUsers, GetAllWithdrawals]
    ensures !BalanceGuardStops(s) && !o.Ok? ==>
              r == s.(loading := false, calls := s.calls + [UpdateUserBalance(s.selectedUser.value.id, s.newBalance)])
  {
    if BalanceGuardStops(s) then s
    else
      var posted := s.(loading := true, calls := s.calls + [UpdateUserBalance(s.selectedUser.value.id, s.newBalance)]);
      var answered :=
        if o.Ok? then BeginFetch(posted.(balanceModalOpen := false, newBalance := "", selectedUser := None))
        else posted;
      answered.(loading := false)
  }

  /** `!selectedUser || !newProfit` */
  predicate ProfitGuardStops(s: AdminState)
  {
    s.selectedUser.None? || !Truthy(s.newProfit)
  }

  /** `handleUpdateProfit`: past its guard the missing API call throws, so nothing is sent and the dialog stays. */
  function UpdateProfitStep(s: AdminState): (r: AdminState)
    ensures ProfitGuardStops(s) ==> r == s
    ensures !ProfitGuardStops(s) ==> r == s.(loading := false)
  {
    if ProfitGuardStops(s) then s else s.(loading := true).(loading := false)
  }

  /** `openBalanceModal(user)` */
  function OpenBalanceStep(s: AdminState, row: UserRow): (r: AdminState)
    ensures r.balanceModalOpen && r.selectedUser == Some(row) && r.calls == s.calls
    ensures r.newBalance == NumberToString(row.balance) && Truthy(r.newBalance)
  {
    s.(selectedUser := Some(row), newBalance := NumberToString(row.balance), balanceModalOpen := true)
  }

  /** `openProfitModal(user)` */
  function OpenProfitStep(s: AdminState, row: UserRow): (r: AdminState)
    ensures r.profitModalOpen && r.selectedUser == Some(row) && r.calls == s.calls
    ensures r.newProfit == NumberToString(row.profit) && Truthy(r.newProfit)
  {
    s.(selectedUser := Some(row), newProfit := NumberToString(row.profit), profitModalOpen := true)
  }

  /** The balance dialog's Cancel button. */
  function CancelBalanceStep(s: AdminState): (r: AdminState)
    ensures !r.balanceModalOpen && r.selectedUser == None && r.newBalance == "" && r.calls == s.calls
  {
    s.(balanceModalOpen := false, selectedUser := None, newBalance := "")
  }

  /** The PNL dialog's Cancel button. */
  function CancelProfitStep(s: AdminState): (r: AdminState)
    ensures !r.profitModalOpen && r.selectedUser == None && r.newProfit == "" && r.calls == s.calls
  {
    s.(profitModalOpen := false, selectedUser := None, newProfit := "")
  }

  /** Opening the balance dialog pre-fills a value, so Update sends the request at once, for that row. */
  lemma {:induction false} OpenThenUpdateSends(s: AdminState, row: UserRow, o: Outcome<()>)
    ensures var r := UpdateBalanceStep(OpenBalanceStep(s, row), o);
            r.calls[|s.calls|] == UpdateUserBalance(row.id, NumberToString(row.balance))
  {
  }

  /** Opening the PNL dialog and saving sends no request and leaves the dialog open on that row. */
  lemma {:induction false} ProfitNeverSent(s: AdminState, row: UserRow)
    ensures var r := UpdateProfitStep(OpenProfitStep(s, row));
            r.calls == s.calls && r.profitModalOpen && r.selectedUser == Some(row)
  {
  }

  /** `withdrawals.filter(w => w.status === 'pending')` */
  function Pending(ws: seq<Withdrawal>): (r: seq<Withdrawal>)
    ensures |r| <= |ws|
    ensures forall k :: 0 <= k < |r| ==> r[k].status == "pending"
    ensures forall x :: x in r <==> x in ws && x.status == "pending"
  {
    if ws == [] then []
    else
      var rest := Pending(ws[1..]);
      assert forall x :: x in ws <==> x == ws[0] || x in ws[1..];
      if ws[0].status == "pending" then [ws[0]] + rest else rest
  }

  /** The filter keeps the server's order: filtering two lists is filtering each in turn. */
  lemma {:induction false} PendingAppend(a: seq<Withdrawal>, b: seq<Withdrawal>)
    ensures Pending(a + b) == Pending(a) + Pending(b)
    decreases |a|
  {
    if a == [] {
      assert a + b == b;
    } else {
      assert (a + b)[1..] == a[1..] + b;
      assert (a + b)[0] == a[0];
      PendingAppend(a[1..], b);
    }
  }

  /**
   * Approving removes nothing by itself; the list shown changes only with the
   * reload it starts. Once that reload is answered by a server that no longer
   * reports the withdrawal as pending, the withdrawal leaves the pending list.
   */
  lemma {:induction false} ApproveThenReload(s: AdminState, id: string, o: Outcome<()>,
                                             u: Outcome<UsersBody>, ws: seq<Withdrawal>)
    requires o.IsOk() && u.Responded() && !(u.IsOk() && (u.Malformed? || u.payload.users.None?))
    requires forall x :: x in ws && x.id == id ==> x.status != "pending"
    ensures Pending(ActionStep(s, ApproveWithdrawal(id), o).withdrawals) == Pending(s.withdrawals)
    ensures var r := CompleteFetch(ActionStep(s, ApproveWithdrawal(id), o), u, Ok(WithdrawalsBody(Some(ws))));
            Pending(r.withdrawals) == Pending(ws)
            && forall x :: x in Pending(r.withdrawals) ==> x.id != id
  {
  }

  /** The rows the table shows all carry balance 0, so opening the balance dialog pre-fills "0". */
  lemma {:induction false} PrefillIsZero(s: AdminState, k: nat)
    requires k < |s.users| && s.users[k].balance == 0 && s.users[k].profit == 0
    ensures OpenBalanceStep(s, s.users[k]).newBalance == "0"
    ensures OpenProfitStep(s, s.users[k]).newProfit == "0"
  {
    NumberToStringInjective(0, 0);
  }

  class AdminPage {
    var users: seq<UserRow>
    var withdrawals: seq<Withdrawal>
    var loading: bool
    var balanceModalOpen: bool
    var profitModalOpen: bool
    var selectedUser: Option<UserRow>
    var newBalance: string
    var newProfit: string
    var calls: seq<Call>

    function State(): AdminState
      reads this
    {
      AdminState(users, withdrawals, loading, balanceModalOpen, profitModalOpen, selectedUser,
                 newBalance, newProfit, calls)
    }

    constructor ()
      ensures State() == Initial
    {
      users, withdrawals, loading := [], [], false;
      balanceModalOpen, profitModalOpen, selectedUser := false, false, None;
      newBalance, newProfit, calls := "", "", [];
    }

    method StartFetch()
      modifies this
      ensures State() == BeginFetch(old(State()))
    {
      calls := calls + [GetUsers, GetAllWithdrawals];
    }

    /** The users list is mapped one user at a time, each issuing its balance request. */
    method FinishFetch(u: Outcome<UsersBody>, w: Outcome<WithdrawalsBody>)
      modifies this
      ensures State() == CompleteFetch(old(State()), u, w)
    {
      if !(u.Responded() && w.Responded()) {
        return;  // Promise.all rejected
      }
      if u.IsOk() {
        if u.Malformed? || u.payload.users.None? {
          return;  // json() or map threw
        }
        var listed := u.payload.users.value;
        var rows: seq<UserRow> := [];
        var issued: seq<Call> := [];
        var i := 0;
        while i < |listed|
          invariant 0 <= i <= |listed|
          invariant rows == Rows(listed[..i])
          invariant issued == BalanceCalls(listed[..i])
        {
          assert listed[..i + 1] == listed[..i] + [listed[i]];
          issued := issued + [GetUserBalance(listed[i].id)];
          rows := rows + [RowOf(listed[i])];
          i := i + 1;
        }
        assert listed[..i] == listed;
        calls := calls + issued;
        users := rows;
      }
      if w.Ok? {
        withdrawals := w.payload.withdrawals.GetOr([]);
      }
    }

    method HandleBlockUser(userId: string, block: bool, o: Outcome<()>)
      modifies this
      ensures State() == ActionStep(old(State()), BlockUser(userId, block), o)
    {
      loading := true;
      calls := calls + [BlockUser(userId, block)];
      if o.IsOk() {
        StartFetch();  // not awaited
      }
      loading := false;  // finally
    }

    method HandleApproveWithdrawal(withdrawalId: string, o: Outcome<()>)
      modifies this
      ensures State() == ActionStep(old(State()), ApproveWithdrawal(withdrawalId), o)
    {
      loading := true;
      calls := calls + [ApproveWithdrawal(withdrawalId)];
      if o.IsOk() {
        StartFetch();  // not awaited
      }
      loading := false;  // finally
    }

    method HandleUpdateBalance(o: Outcome<()>)
      modifies this
      ensures State() == UpdateBalanceStep(old(State()), o)
    {
      if selectedUser.None? || !Truthy(newBalance) {
        return;
      }
      loading := true;
      calls := calls + [UpdateUserBalance(selectedUser.value.id, newBalance)];
      if o.Ok? {
        balanceModalOpen := false;
        newBalance := "";
        selectedUser := None;
        StartFetch();  // not awaited
      }
      loading := false;  // finally
    }

    method HandleUpdateProfit()
      modifies this
      ensures State() == UpdateProfitStep(old(State()))
    {
      if selectedUser.None? || !Truthy(newProfit) {
        return;
      }
      loading := true;
      // `adminAPI.updateUserProfit` is not a function: the call throws before any request
      loading := false;  // finally
    }

    method OpenBalanceModal(row: UserRow)
      modifies this
      ensures State() == OpenBalanceStep(old(State()), row)
    {
      selectedUser := Some(row);
      newBalance := NumberToString(row.balance);
      balanceModalOpen := true;
    }

    method OpenProfitModal(row: UserRow)
      modifies this
      ensures State() == OpenProfitStep(old(State()), row)
    {
      selectedUser := Some(row);
      newProfit := NumberToString(row.profit);
      profitModalOpen := true;
    }

    method CancelBalance()
      modifies this
      ensures State() == CancelBalanceStep(old(State()))
    {
      balanceModalOpen := false;
      selectedUser := None;
      newBalance := "";
    }

    method CancelProfit()
      modifies this
      ensures State() == CancelProfitStep(old(State()))
    {
      profitModalOpen := false;
      selectedUser := None;
      newProfit := "";
    }

    /** The dialogs' `onOpenChange`: the overlay or Escape closes a dialog and keeps the selection. */
    method SetBalanceModalOpen(open: bool)
      modifies this
      ensures State() == old(State()).(balanceModalOpen := open)
    {
      balanceModalOpen := open;
    }

    method SetProfitModalOpen(open: bool)
      modifies this
      ensures State() == old(State()).(profitModalOpen := open)
    {
      profitModalOpen := open;
    }

    method SetNewBalance(value: string)
      modifies this
      ensures State() == old(State()).(newBalance := value)
    {
      newBalance := value;
    }

    method SetNewProfit(value: string)
      modifies this
      ensures State() == old(State()).(newProfit := value)
    {
      newProfit := value;
    }
  }
}
