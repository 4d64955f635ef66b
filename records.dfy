/** Records the backend returns and several pages display. */
module Records {
  import opened Js

  /** A placed trade; only its status is inspected by the client. */
  datatype Trade = Trade(id: string, asset: string, side: string, status: Option<string>)

  /** A copy-trading subscription; `allocation` is the percentage of the portfolio, when present. */
  datatype Subscription = Subscription(traderId: string, allocation: Option<int>)

  /** A withdrawal request, as listed on the wallet and admin pages. */
  datatype Withdrawal = Withdrawal(id: string, amount: int, status: string, userEmail: string)

  datatype Deposit = Deposit(id: string, amount: int, status: string)
}
