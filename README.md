# Trading client: session, routing and page state machines

This project models the browser client of a small trading platform. The client is a React single-page application that talks to a backend over HTTP. The model covers:

- **the session store** (`AuthProvider`): its startup check against `GET /api/user`, login, signup, logout and retry, and the bearer token kept in the browser's storage;
- **access control**: the `ProtectedRoute` guard, the application's route table with its `*` fallback, and the navigation list of the layout shell;
- **the state machines of the signed-in pages**: dashboard, wallet, trading, copy trading, admin, plus the password-reset form and the KYC form;
- **pure derivations**: the strategy-subscription toggle, the KYC steps and badges, the totals and counts the pages show;
- **the typing animation hook**, modelled as a sequence of discrete interval ticks.

Each backend call is replaced by its observed outcome, `Http.Outcome<T>`:

- `Ok(payload)`: the response is OK and its body parses;
- `Malformed`: the response is OK but `json()` rejects;
- `Status(code)`: a non-2xx response;
- `Aborted`;
- `NetworkError`.

Every class logs the requests it sends in a `calls` field, so "makes no request" is a provable statement.

A page whose fields the source updates in place is a `class` with those fields. Its methods say `ensures State() == Step(old(State()), ...)`, where `Step` is a pure function on a state datatype. The properties are then proved about `Step`, either as its own `ensures` or as lemmas beside it.

A reload that a handler starts without awaiting it (`fetchWalletData();` after a successful withdrawal, for instance) is split in two:

- the part before its first `await` runs inside the handler (flags set, requests logged);
- its resolution is a separate `Complete...` step.

JavaScript truthiness is written out where the source branches on it:

- an empty string is falsy;
- `setItem(undefined)` stores the text `"undefined"`;
- `setUser(data.user)` with no `user` field stores `undefined`. That is the one state in which the guard's redirect to `/login` is reachable.

Where the code and its comments disagree, the model follows the code:

- **Retry.** `retryAuth` calls the `checkAuth` closure of the same render. That closure still sees the old `hasCheckedAuth`, so after a completed check the first retry sends no request and only clears the flag; the second retry is the one that fetches. `RetryAuthStep` models this snapshot explicitly, and `SecondRetryFetches` proves it.
- **Inconclusive check.** A non-401 error status, a timeout or a network error during the check sets the user to `null`, although the comments say the user is assumed to be still authenticated. The token is kept.
- **Profit calls.** The admin API object has no `getUserProfit` and no `updateUserProfit`. Each row is therefore built in the `catch` branch with balance 0 and profit 0, although the balance request has already been sent. Saving a PNL value never sends a request.

## Model

| member | source | states |
|---|---|---|
| `Js.NumberToString` | src/pages/Admin.tsx:142-148 | the text reads back as the number under `SignedValue`; it is never empty and starts with `-` exactly for negative numbers |
| `Js.NumberToStringInjective` | src/pages/Admin.tsx:142-148 | distinct numbers have distinct texts, and zero is written `0` |
| `Js.Digits` | src/pages/Admin.tsx:142 | the digits of a natural number are one or more decimal digits, a single one exactly below 10, and they read back as the number |
| `Js.DigitChar` | src/pages/Admin.tsx:142 | the digit character of `d` reads back as `d` |
| `Js.DigitValue` | src/pages/Admin.tsx:142 | the value of a digit character, as written |
| `Js.DecimalValue` | src/pages/Admin.tsx:142 | an independent reading of a digit string, most significant digit first, as written |
| `Js.SignedValue` | src/pages/Admin.tsx:142 | the reading of an optionally signed numeral, as written |
| `Js.Truthy` | src/pages/Wallet.tsx:358 | a string is falsy exactly when empty, as the `!field` guards test it |
| `Js.GetOr` | src/pages/Wallet.tsx:58 | `x || d` on a field that may be missing, as written |
| `Http.IsOk` | src/pages/Wallet.tsx:56 | `response.ok`: true for an OK response whether or not its body parses |
| `Http.Responded` | src/pages/Wallet.tsx:49-87 | the call produced a response, so the `await` did not throw into the `catch` |
| `Http.AllResponded` | src/pages/Wallet.tsx:49-53 | `Promise.all` over three calls fulfils exactly when each one responded |
| `AuthContext.StoredToken` | src/contexts/AuthContext.tsx:118 | storing the body's token keeps it as given; a missing token is stored as the text "undefined" |
| `AuthContext.UserFromBody` | src/contexts/AuthContext.tsx:120 | a successful sign-in never leaves the user `null`; the user is present exactly when the body carries one |
| `AuthContext.Initial` | src/contexts/AuthContext.tsx:25-27 | the provider starts with no user, the spinner on, the check not done and the stored token as found |
| `AuthContext.CheckRequests` | src/contexts/AuthContext.tsx:38-61 | a check sends at most one request, `GET /api/user` with the stored token, and only when the flag was clear, storage was readable and a non-empty token was stored |
| `AuthContext.HasToken` | src/contexts/AuthContext.tsx:38-40 | `!token` negated: a token was stored and is not empty, as written |
| `AuthContext.CheckAuthStep` | src/contexts/AuthContext.tsx:30-105 | every path ends with the spinner off; a seen flag changes only the spinner; every other path marks the check done; only a 401 deletes the token; the user is present exactly on an OK response, and is otherwise `null` |
| `AuthContext.SignInStep` | src/contexts/AuthContext.tsx:111-155 | an OK response stores the token, installs the body's user and marks the check done; any other outcome changes nothing but the request log |
| `AuthContext.LogoutStep` | src/contexts/AuthContext.tsx:157-176 | logout always ends with no token, no user and the flag clear, and sends one request |
| `AuthContext.RetryAuthStep` | src/contexts/AuthContext.tsx:179-183 | a retry always ends with the spinner off |
| `AuthContext.RetryAfterCompletedCheck` | src/contexts/AuthContext.tsx:179-183 | after a completed check, a retry sends nothing and only clears the flag and the spinner |
| `AuthContext.SecondRetryFetches` | src/contexts/AuthContext.tsx:179-183 | from a completed check with a token, the first retry sends nothing and the second sends exactly one `GET /api/user` |
| `AuthContext.CheckNeverLeavesUndefined` | src/contexts/AuthContext.tsx:37-101 | a check that runs always replaces an `undefined` user |
| `AuthContext.NoUndefinedUser` | src/contexts/AuthContext.tsx:30-183 | while every sign-in body carries a user, no operation turns a defined user slot into `undefined` |
| `AuthContext.RunKeepsUser` | src/contexts/AuthContext.tsx:30-183 | the same holds for any sequence of checks, retries, sign-ins and logouts |
| `AuthContext.OpCarriesUser` | src/contexts/AuthContext.tsx:120 | a sign-in whose OK body carries a `user` field, as written |
| `AuthContext.Apply` | src/contexts/AuthContext.tsx:30-183 | one operation of the store applied to the session, as written |
| `AuthContext.Run` | src/contexts/AuthContext.tsx:30-183 | a sequence of operations applied in order, as written |
| `AuthContext.AuthProvider.constructor` | src/contexts/AuthContext.tsx:25-27 | the mounted provider's state is `Initial` |
| `AuthContext.AuthProvider.CheckAuth` | src/contexts/AuthContext.tsx:30-105 | the branch-by-branch updates give exactly `CheckAuthStep` |
| `AuthContext.AuthProvider.Mount` | src/contexts/AuthContext.tsx:107-109 | the effect on mount runs the check with the initial flag |
| `AuthContext.AuthProvider.Login` | src/contexts/AuthContext.tsx:111-132 | login is `SignInStep` with `POST /api/login` |
| `AuthContext.AuthProvider.Signup` | src/contexts/AuthContext.tsx:134-155 | signup is `SignInStep` with `POST /api/signup` |
| `AuthContext.AuthProvider.Logout` | src/contexts/AuthContext.tsx:157-176 | both the `try` and the `catch` path give `LogoutStep` |
| `AuthContext.AuthProvider.RetryAuth` | src/contexts/AuthContext.tsx:179-183 | clearing the flags and then calling the same render's check gives `RetryAuthStep` |
| `ProtectedRoute.Decide` | src/components/ProtectedRoute.tsx:16-69 | spinner while loading; retry screen exactly for a finished check with a `null` user; login redirect exactly for an `undefined` user; dashboard redirect exactly for a non-admin on an admin route; the page exactly for a present user who meets the admin requirement |
| `ProtectedRoute.IsAdmin` | src/components/ProtectedRoute.tsx:65 | a present user whose role is `admin`, as written |
| `ProtectedRoute.DecideFor` | src/components/ProtectedRoute.tsx:16-69 | `Decide` on the store's `isLoading` and `user`, as written |
| `ProtectedRoute.NoLoginRedirect` | src/components/ProtectedRoute.tsx:28-62 | with the user typed as `User` or `null`, the login redirect is unreachable and a finished check without a user shows the retry screen |
| `ProtectedRoute.NoLoginRedirectAfter` | src/components/ProtectedRoute.tsx:60-62 | from the mounted provider, no sequence of operations whose sign-in bodies carry a user reaches the login redirect |
| `AppRoutes.MatchIn` | src/App.tsx:88-131 | route matching returns the first entry with the path when one exists, and the `*` fallback otherwise |
| `AppRoutes.Render` | src/App.tsx:88-131 | a path outside the table renders NotFound |
| `AppRoutes.Match` | src/App.tsx:88-131 | `MatchIn` on the route table, as written |
| `AppRoutes.InTable` | src/App.tsx:88-130 | some entry of the route table has the path, as written |
| `AppRoutes.PathsDistinct` | src/App.tsx:88-130 | the paths of the route table `Table` are pairwise distinct |
| `AppRoutes.MatchInFindsEntry` | src/App.tsx:88-131 | in any route list with distinct paths, each entry is the match for its own path |
| `AppRoutes.MatchFindsEntry` | src/App.tsx:88-130 | every path in the table resolves to its own entry |
| `AppRoutes.PublicPathsAreBare` | src/App.tsx:88-95 | the eight public paths render their page with no guard, whatever the session |
| `AppRoutes.UserPathsAreGuarded` | src/App.tsx:96-125 | the six user pages are guarded without an admin requirement |
| `AppRoutes.OnlyAdminRequiresAdmin` | src/App.tsx:126-130 | a path requires the admin role exactly when it is `/admin` |
| `AppRoutes.AdminPageOnlyForAdmins` | src/App.tsx:126-130 | the Admin page shows exactly for a finished check with an admin user; any other present user is sent to `/dashboard` |
| `AppRoutes.OneAdminTest` | src/components/Layout.tsx:38-97 | the badge shows and the Admin link is listed for exactly the users for whom a finished check renders the Admin page |
| `AppRoutes.NavLinksAreGuarded` | src/App.tsx:96-130 | every link of the navigation list is a guarded route of the table |
| `Layout.NavItems` | src/components/Layout.tsx:28-42 | the list starts with the six items of `BaseItems` in order, and has a seventh item, `AdminItem`, exactly for an admin |
| `Layout.NavPathsDistinct` | src/components/Layout.tsx:29-40 | the navigation paths are pairwise distinct for every user |
| `Layout.AtMostOneActive` | src/components/Layout.tsx:60-62 | for any pathname at most one item is highlighted |
| `Layout.AdminBadgeShown` | src/components/Layout.tsx:93-97 | the badge shows exactly for the users who get the Admin link, and only for a present user |
| `Layout.IsAdmin` | src/components/Layout.tsx:38 | `user?.role === 'admin'`, the guard's test, as written |
| `Layout.IsActive` | src/components/Layout.tsx:62 | `location.pathname === item.path`, as written |
| `Layout.ActiveIndices` | src/components/Layout.tsx:60-62 | the indices of the items whose `isActive` holds, as written |
| `Layout.MobileMenu.constructor` | src/components/Layout.tsx:26 | the mobile menu starts closed |
| `Layout.MobileMenu.Toggle` | src/components/Layout.tsx:113 | the menu button flips the open flag |
| `Layout.MobileMenu.FollowLink` | src/components/Layout.tsx:157 | choosing a mobile link closes the menu |
| `Layout.MobileMenu.Logout` | src/components/Layout.tsx:193-196 | the mobile logout logs the store out and closes the menu |
| `Strategies.RiskBadgeVariant` | src/pages/Strategies.tsx:177-188 | low maps to secondary, high to destructive, and every other risk to default |
| `Strategies.Toggle` | src/pages/Strategies.tsx:157-175 | the id's membership flips, every other id keeps its membership, and the size moves by one |
| `Strategies.ToggleTwice` | src/pages/Strategies.tsx:157-175 | toggling the same id twice restores the set |
| `Strategies.ButtonCaption` | src/pages/Strategies.tsx:264 | the caption is "Unsubscribe" exactly when the id is followed |
| `Strategies.ActiveStrategies` | src/pages/Strategies.tsx:288 | the figure is zero exactly when nothing is followed |
| `Strategies.ToggleMovesCount` | src/pages/Strategies.tsx:157-175 | a click on "Subscribe" raises the figure by one, and a click on "Unsubscribe" lowers it by one |
| `Strategies.StrategyIdsDistinct` | src/pages/Strategies.tsx:55-155 | the eight ids of `CryptoStrategies` and `QuantStrategies` are pairwise distinct |
| `Strategies.StrategiesPage.constructor` | src/pages/Strategies.tsx:53 | nothing is followed at first |
| `Strategies.StrategiesPage.HandleSubscribe` | src/pages/Strategies.tsx:157-175 | copying the set, then deleting or adding in place, gives `Toggle` |
| `Kyc.Edit` | src/pages/KYC.tsx:191-327 | editing a field sets that field and leaves the other eight unchanged |
| `Kyc.Get` | src/pages/KYC.tsx:191-327 | the value an input displays, one field per input, as written |
| `Kyc.Steps` | src/pages/KYC.tsx:48-73 | four steps; the first three are complete exactly when full name, ID number and address are non-empty; the selfie step is never complete |
| `Kyc.StatusIf` | src/pages/KYC.tsx:48-73 | a step is complete when its field is non-empty, as written |
| `Kyc.EditTouchesOneStep` | src/pages/KYC.tsx:48-73 | a step changes only when the field it reads is edited |
| `Kyc.StatusBadge` | src/pages/KYC.tsx:75-106 | each of the four statuses has its own badge text |
| `Kyc.SubmitCaption` | src/pages/KYC.tsx:381 | the caption reads "Documents Under Review" exactly while submitted |
| `Kyc.SubmittedLocksButton` | src/pages/KYC.tsx:379-381 | after a submission the button is disabled and reads "Documents Under Review", so no later press changes the status whatever the form holds; an enabled button reads "Submit KYC Documents" |
| `Kyc.SubmitDisabled` | src/pages/KYC.tsx:379 | the button is disabled while submitted or verified, as written |
| `Kyc.RequiredFilled` | src/pages/KYC.tsx:176-319 | the six inputs marked `required` are all non-empty, as written |
| `Kyc.SubmitAttempt` | src/pages/KYC.tsx:176-381 | a press submits exactly when the button is enabled and every required input is filled; otherwise the status stays |
| `Kyc.SubmittedFormHasStepsComplete` | src/pages/KYC.tsx:48-319 | a form that gets submitted shows its first three steps complete |
| `Kyc.KycPage.constructor` | src/pages/KYC.tsx:24-35 | the status starts pending and the form empty |
| `Kyc.KycPage.HandleSubmit` | src/pages/KYC.tsx:37-46 | submitting sets the status to submitted, keeps the form and sends nothing |
| `Kyc.KycPage.SubmitForm` | src/pages/KYC.tsx:176 | the form's `submit` event gives `SubmitAttempt` and keeps the form |
| `Kyc.KycPage.EditField` | src/pages/KYC.tsx:191-327 | an input's handler applies `Edit` and keeps the status |
| `Dashboard.BeginFetch` | src/pages/Dashboard.tsx:36-43 | a load turns loading on, clears the error and sends three requests |
| `Dashboard.BalanceOf` | src/pages/Dashboard.tsx:48 | the body's balance, or 0 when it is missing or the response is not OK, as written |
| `Dashboard.TradesOf` | src/pages/Dashboard.tsx:57 | the body's trades, or none when they are missing or the response is not OK, as written |
| `Dashboard.SubscriptionsOf` | src/pages/Dashboard.tsx:66 | the body's subscriptions, or none when they are missing or the response is not OK, as written |
| `Dashboard.Clean` | src/pages/Dashboard.tsx:41-69 | no call rejected and no OK body failed to parse, as written |
| `Dashboard.FetchStep` | src/pages/Dashboard.tsx:34-84 | loading ends off; a clean load stores each response's value or its reset value; a rejection keeps every slot; the load error is set exactly when all three responses are not OK; the network error is set exactly on a rejection or an unreadable body |
| `Dashboard.PartialLoad` | src/pages/Dashboard.tsx:46-61 | an unreadable trades body keeps the balance just read and the old subscriptions |
| `Dashboard.ActiveTradesCount` | src/pages/Dashboard.tsx:116-122 | the count never exceeds the list; it equals the length exactly when every trade is open, pending or without a status, and is zero exactly when none is |
| `Dashboard.ActiveTradesCountAppend` | src/pages/Dashboard.tsx:116-122 | the count over two lists is the sum of their counts |
| `Dashboard.IsActive` | src/pages/Dashboard.tsx:119-120 | a trade is open, pending or without a status, as written |
| `Dashboard.CopyTradingCount` | src/pages/Dashboard.tsx:137 | `subscriptions.length`, as written |
| `Dashboard.CopyTradingCountAfterLoad` | src/pages/Dashboard.tsx:134-137 | after a clean load the copy-trading count is the number of subscriptions returned |
| `Dashboard.DashboardPage.constructor` | src/pages/Dashboard.tsx:24-28 | the page starts at zero balance, empty lists, loading and no error |
| `Dashboard.DashboardPage.FetchDashboardData` | src/pages/Dashboard.tsx:34-84 | the statement-by-statement load gives `FetchStep` |
| `Wallet.BeginFetch` | src/pages/Wallet.tsx:44-53 | a load turns the balance placeholder on, clears the error and sends three requests, touching nothing else |
| `Wallet.BalanceOf` | src/pages/Wallet.tsx:58 | the body's balance, or 0 when it is missing or the response is not OK, as written |
| `Wallet.WithdrawalsOf` | src/pages/Wallet.tsx:67 | the body's withdrawals, or none when they are missing or the response is not OK, as written |
| `Wallet.DepositsOf` | src/pages/Wallet.tsx:76 | the body's deposits, or none when they are missing or the response is not OK, as written |
| `Wallet.CompleteFetch` | src/pages/Wallet.tsx:49-93 | the placeholder ends off; a clean load stores each value or its reset value; a rejection keeps the data; any rejection or unreadable body sets the network error; all three not OK sets the load error; the inputs and the dialog never change |
| `Wallet.FetchError` | src/pages/Wallet.tsx:44-94 | over a whole load, the load error, the network error and no error each occur exactly under their own condition |
| `Wallet.BalanceShown` | src/pages/Wallet.tsx:184 | the card shows `...` exactly while loading, and the balance otherwise |
| `Wallet.DepositStep` | src/pages/Wallet.tsx:96-99 | deposit only opens the dialog and sends nothing |
| `Wallet.WithdrawStep` | src/pages/Wallet.tsx:101-117 | loading ends off; an OK response clears the amount and starts a reload; any other outcome keeps everything but the request log; the data is untouched |
| `Wallet.TransferStep` | src/pages/Wallet.tsx:119-136 | loading ends off; an OK response clears recipient and amount and starts a reload; any other outcome keeps both |
| `Wallet.WithdrawButtonAfter` | src/pages/Wallet.tsx:358 | after a withdrawal with an amount, its button is disabled exactly when the request succeeded; the transfer button depends only on its own fields |
| `Wallet.TransferButtonAfter` | src/pages/Wallet.tsx:410 | after a transfer with both fields, its button is disabled exactly when the request succeeded |
| `Wallet.WithdrawDisabled` | src/pages/Wallet.tsx:358 | the button is disabled while loading or while the amount is empty, as written |
| `Wallet.TransferDisabled` | src/pages/Wallet.tsx:410 | the button is disabled while loading or while the recipient or the amount is empty, as written |
| `Wallet.WithdrawThenReload` | src/pages/Wallet.tsx:101-117 | the reload a withdrawal starts, once answered cleanly, shows the server's balance, and its error is clear exactly when some response was OK |
| `Wallet.StatusIcon` | src/pages/Wallet.tsx:138-149 | approved, pending and rejected each get their own icon, and any other status gets none |
| `Wallet.WalletPage.constructor` | src/pages/Wallet.tsx:28-38 | the page starts at zero balance, empty lists and inputs, the placeholder on and the dialog closed |
| `Wallet.WalletPage.StartFetch` | src/pages/Wallet.tsx:44-53 | the synchronous start of the load is `BeginFetch` |
| `Wallet.WalletPage.FinishFetch` | src/pages/Wallet.tsx:49-93 | the load's resolution is `CompleteFetch` |
| `Wallet.WalletPage.FetchWalletData` | src/pages/Wallet.tsx:44-94 | an awaited load is `BeginFetch` followed by `CompleteFetch` |
| `Wallet.WalletPage.HandleDeposit` | src/pages/Wallet.tsx:96-99 | the handler gives `DepositStep` |
| `Wallet.WalletPage.CloseDepositModal` | src/pages/Wallet.tsx:275 | Close shuts the dialog and changes nothing else |
| `Wallet.WalletPage.HandleWithdraw` | src/pages/Wallet.tsx:101-117 | the handler gives `WithdrawStep` |
| `Wallet.WalletPage.HandleTransfer` | src/pages/Wallet.tsx:119-136 | the handler gives `TransferStep` |
| `Wallet.WalletPage.SetWithdrawAmount` | src/pages/Wallet.tsx:352 | typing sets the amount only |
| `Wallet.WalletPage.SetTransferRecipient` | src/pages/Wallet.tsx:393 | typing sets the recipient only |
| `Wallet.WalletPage.SetTransferAmount` | src/pages/Wallet.tsx:404 | typing sets the amount only |
| `Trading.FindBySymbol` | src/pages/Trading.tsx:43 | `find` returns the first asset with the symbol, and nothing exactly when no asset has it |
| `Trading.SyncStep` | src/pages/Trading.tsx:41-47 | the price field takes the first matching asset's price, is unchanged when none matches, and nothing else changes |
| `Trading.SyncIdempotent` | src/pages/Trading.tsx:41-47 | running the price effect twice is the same as running it once |
| `Trading.SelectSetsPrice` | src/pages/Trading.tsx:117 | choosing a listed symbol always fills the price field with the price of an entry with that symbol at or before the chosen one |
| `Trading.CompleteTrades` | src/pages/Trading.tsx:49-59 | an OK body replaces the trades, and any other outcome changes nothing |
| `Trading.CompletePrices` | src/pages/Trading.tsx:61-74 | the price spinner ends off; an OK body with a list replaces the assets, and anything else keeps them; the price field is in step with the list |
| `Trading.MountStep` | src/pages/Trading.tsx:36-47 | mounting starts both loads with the price spinner on |
| `Trading.TradeStep` | src/pages/Trading.tsx:76-97 | loading ends off; an OK response clears the quantity and requests the trades; any other outcome keeps everything but the request log |
| `Trading.NoOrderAtInitialPrices` | src/pages/Trading.tsx:28-33 | with the initial zero-priced list `InitialAssets`, the order button is disabled |
| `Trading.FailedPricesBlockOrders` | src/pages/Trading.tsx:230 | if the first price load fails, the order button stays disabled however the form is filled |
| `Trading.LoadedPricesEnableOrders` | src/pages/Trading.tsx:230 | a list pricing the selected asset above zero, with a quantity typed, enables the order button |
| `Trading.OrderDisabled` | src/pages/Trading.tsx:230 | the button is disabled while an order or the prices are loading, while the quantity is empty, or while the price reads as 0, as written, on integer prices |
| `Trading.PriceValue` | src/pages/Trading.tsx:230 | the price field read as a number, 0 when it is empty, as written |
| `Trading.BeginTrades` | src/pages/Trading.tsx:49-51 | `fetchTrades` up to its request: only the request is logged, as written |
| `Trading.BeginPrices` | src/pages/Trading.tsx:61-64 | `fetchPrices` up to its request: the spinner turns on and the request is logged, as written |
| `Trading.TradingPage.constructor` | src/pages/Trading.tsx:22-34 | the page starts with buy, BTC/USD, empty quantity and price, the four zero-priced assets and the price spinner on |
| `Trading.TradingPage.SyncPrice` | src/pages/Trading.tsx:41-47 | the effect gives `SyncStep` |
| `Trading.TradingPage.StartFetchTrades` | src/pages/Trading.tsx:49-51 | starting the trades load only logs its request |
| `Trading.TradingPage.FinishFetchTrades` | src/pages/Trading.tsx:49-59 | the resolution gives `CompleteTrades` |
| `Trading.TradingPage.StartFetchPrices` | src/pages/Trading.tsx:61-64 | starting the price load turns its spinner on and logs its request |
| `Trading.TradingPage.FinishFetchPrices` | src/pages/Trading.tsx:61-74 | the resolution and the effect it triggers give `CompletePrices` |
| `Trading.TradingPage.Mount` | src/pages/Trading.tsx:36-47 | both effects after the first render give `MountStep` |
| `Trading.TradingPage.SetAsset` | src/pages/Trading.tsx:117 | a new selection followed by the effect gives `SyncStep` of the new selection |
| `Trading.TradingPage.SetOrderType` | src/pages/Trading.tsx:160 | the tabs set the side only |
| `Trading.TradingPage.SetSize` | src/pages/Trading.tsx:195 | typing sets the quantity only |
| `Trading.TradingPage.HandleTrade` | src/pages/Trading.tsx:76-97 | the handler gives `TradeStep` |
| `CopyTrading.CompleteFetch` | src/pages/CopyTrading.tsx:33-43 | an OK body replaces the subscriptions, and any other outcome changes nothing |
| `CopyTrading.BeginFetch` | src/pages/CopyTrading.tsx:33-35 | `fetchData` up to its request: only the request is logged, as written |
| `CopyTrading.SelectStep` | src/pages/CopyTrading.tsx:251 | the form opens on that trader's card only and keeps the typed allocation |
| `CopyTrading.CancelStep` | src/pages/CopyTrading.tsx:229-232 | cancel closes every form and clears the allocation |
| `CopyTrading.SubscribeStep` | src/pages/CopyTrading.tsx:45-67 | with no allocation nothing changes at all; otherwise loading ends off; an OK response clears the selection and the allocation and requests the list again; any other outcome keeps everything but the request log |
| `CopyTrading.OneFormAtATime` | src/pages/CopyTrading.tsx:211 | at most one offered trader's card shows the form |
| `CopyTrading.FormShown` | src/pages/CopyTrading.tsx:211 | `selectedTrader === trader.id`, as written |
| `CopyTrading.ConfirmDisabled` | src/pages/CopyTrading.tsx:238 | Confirm is disabled while loading or while the allocation is empty, as written |
| `CopyTrading.GuardMatchesButton` | src/pages/CopyTrading.tsx:45-49 | a request is sent exactly when an allocation was typed, so an enabled Confirm always sends one |
| `CopyTrading.SubscribeClosesForm` | src/pages/CopyTrading.tsx:53-58 | a successful subscription closes every form and disables Confirm |
| `CopyTrading.FailedSubscribeKeepsForm` | src/pages/CopyTrading.tsx:59-66 | a failed subscription keeps the selection and the allocation, and Confirm stays enabled |
| `CopyTrading.SumAppend` | src/pages/CopyTrading.tsx:136 | the allocation sum over two lists is the sum of their sums |
| `CopyTrading.ReduceIsSum` | src/pages/CopyTrading.tsx:136 | the left-to-right `reduce` from a start value is that value plus the sum |
| `CopyTrading.TotalAllocated` | src/pages/CopyTrading.tsx:136 | Total Allocated is the sum of the allocations, with a missing allocation counted as 0 |
| `CopyTrading.TotalAllocatedMonotone` | src/pages/CopyTrading.tsx:136 | with no negative allocation the total is non-negative, and a new subscription adds its own allocation |
| `CopyTrading.AllocationOf` | src/pages/CopyTrading.tsx:136 | a subscription's allocation, 0 when it is missing, as written |
| `CopyTrading.SumAllocations` | src/pages/CopyTrading.tsx:136 | the reference sum of the allocations, taken from the last element, against which `reduce` is proved |
| `CopyTrading.Reduce` | src/pages/CopyTrading.tsx:136 | the left-to-right `reduce` from a start value, as written |
| `CopyTrading.ActiveSubscriptions` | src/pages/CopyTrading.tsx:124 | `subscriptions.length`, as written |
| `CopyTrading.CopyTradingPage.constructor` | src/pages/CopyTrading.tsx:23-27 | the page starts with no subscriptions, no selection and no allocation |
| `CopyTrading.CopyTradingPage.StartFetch` | src/pages/CopyTrading.tsx:33-35 | starting the load only logs its request |
| `CopyTrading.CopyTradingPage.FinishFetch` | src/pages/CopyTrading.tsx:33-43 | the resolution gives `CompleteFetch` |
| `CopyTrading.CopyTradingPage.SelectTrader` | src/pages/CopyTrading.tsx:251 | Copy Trader gives `SelectStep` |
| `CopyTrading.CopyTradingPage.Cancel` | src/pages/CopyTrading.tsx:229-232 | Cancel gives `CancelStep` |
| `CopyTrading.CopyTradingPage.SetAllocation` | src/pages/CopyTrading.tsx:222 | typing sets the allocation only |
| `CopyTrading.CopyTradingPage.HandleSubscribe` | src/pages/CopyTrading.tsx:45-67 | the handler, with its early return, gives `SubscribeStep` |
| `Admin.RowOf` | src/pages/Admin.tsx:38-50 | a row keeps the user's id, e-mail, role and block flag, with balance 0 and profit 0 |
| `Admin.Rows` | src/pages/Admin.tsx:37-51 | the table has one row per listed user, in list order |
| `Admin.BalanceCalls` | src/pages/Admin.tsx:37-51 | building the rows sends one balance request per listed user, in list order |
| `Admin.CompleteFetch` | src/pages/Admin.tsx:28-62 | a rejection, an unreadable users body or a missing users list changes nothing; an OK list replaces the table and sends the balance requests; an OK withdrawals body replaces the withdrawals; dialogs and inputs never change |
| `Admin.BeginFetch` | src/pages/Admin.tsx:28-33 | `fetchAdminData` up to its request: the two requests are logged, as written |
| `Admin.RowsHaveZeroFigures` | src/pages/Admin.tsx:37-51 | every row the table ever shows has zero balance and zero PNL |
| `Admin.ActionStep` | src/pages/Admin.tsx:64-92 | block and approve end with loading off; an OK response starts a reload, and anything else changes nothing but the request log |
| `Admin.BlockCaption` | src/pages/Admin.tsx:261 | the button reads "Unblock" exactly for a blocked user |
| `Admin.BlockButtonInverts` | src/pages/Admin.tsx:258-261 | the block request asks for the opposite of the row's flag, as its caption says |
| `Admin.UpdateBalanceStep` | src/pages/Admin.tsx:94-115 | with no selection or an empty value nothing changes; otherwise loading ends off; an OK, readable response closes the dialog, clears the value and the selection and starts a reload; anything else keeps them |
| `Admin.UpdateProfitStep` | src/pages/Admin.tsx:117-138 | past its guard, saving a PNL value only turns loading off; the dialog, the selection and the request log stay |
| `Admin.BalanceGuardStops` | src/pages/Admin.tsx:95 | the handler stops when no row is selected or the value is empty, as written |
| `Admin.ProfitGuardStops` | src/pages/Admin.tsx:118 | the handler stops when no row is selected or the value is empty, as written |
| `Admin.OpenBalanceStep` | src/pages/Admin.tsx:140-144 | opening selects the row, pre-fills its balance as a numeral that reads back as the balance, and opens the dialog |
| `Admin.OpenProfitStep` | src/pages/Admin.tsx:146-150 | opening selects the row, pre-fills its PNL as a numeral that reads back as the PNL, and opens the dialog |
| `Admin.PrefillIsZero` | src/pages/Admin.tsx:140-150 | for a row with zero figures, which is every row the table shows, both dialogs pre-fill the text `0` |
| `Admin.CancelBalanceStep` | src/pages/Admin.tsx:312-316 | cancel closes the balance dialog and clears the selection and the value |
| `Admin.CancelProfitStep` | src/pages/Admin.tsx:380-384 | cancel closes the PNL dialog and clears the selection and the value |
| `Admin.OpenThenUpdateSends` | src/pages/Admin.tsx:94-115 | right after the dialog opens, Update sends the balance request for that row with the pre-filled value |
| `Admin.ProfitNeverSent` | src/pages/Admin.tsx:117-138 | opening the PNL dialog and saving sends nothing and leaves the dialog open on that row |
| `Admin.Pending` | src/pages/Admin.tsx:173 | the pending list holds exactly the withdrawals whose status is pending |
| `Admin.PendingAppend` | src/pages/Admin.tsx:173 | the filter keeps the server's order: filtering two lists is filtering each in turn |
| `Admin.ApproveThenReload` | src/pages/Admin.tsx:79-92 | approving by itself leaves the pending list as it was; once the reload it starts is answered by a server that no longer reports the withdrawal as pending, the pending list is the server's and no longer holds it |
| `Admin.AdminPage.constructor` | src/pages/Admin.tsx:15-22 | the page starts with empty lists, dialogs closed, no selection and empty inputs |
| `Admin.AdminPage.StartFetch` | src/pages/Admin.tsx:28-33 | starting the load logs its two requests |
| `Admin.AdminPage.FinishFetch` | src/pages/Admin.tsx:28-62 | the user-by-user loop and the withdrawals branch give `CompleteFetch` |
| `Admin.AdminPage.HandleBlockUser` | src/pages/Admin.tsx:64-77 | the handler gives `ActionStep` with the block request |
| `Admin.AdminPage.HandleApproveWithdrawal` | src/pages/Admin.tsx:79-92 | the handler gives `ActionStep` with the approve request |
| `Admin.AdminPage.HandleUpdateBalance` | src/pages/Admin.tsx:94-115 | the handler gives `UpdateBalanceStep` |
| `Admin.AdminPage.HandleUpdateProfit` | src/pages/Admin.tsx:117-138 | the handler gives `UpdateProfitStep` |
| `Admin.AdminPage.OpenBalanceModal` | src/pages/Admin.tsx:140-144 | the handler gives `OpenBalanceStep` |
| `Admin.AdminPage.OpenProfitModal` | src/pages/Admin.tsx:146-150 | the handler gives `OpenProfitStep` |
| `Admin.AdminPage.CancelBalance` | src/pages/Admin.tsx:312-316 | Cancel gives `CancelBalanceStep` |
| `Admin.AdminPage.CancelProfit` | src/pages/Admin.tsx:380-384 | Cancel gives `CancelProfitStep` |
| `Admin.AdminPage.SetBalanceModalOpen` | src/pages/Admin.tsx:273 | the dialog's open-change callback sets the balance dialog's flag and nothing else, so closing it keeps the selection and the value |
| `Admin.AdminPage.SetProfitModalOpen` | src/pages/Admin.tsx:342 | the dialog's open-change callback sets the PNL dialog's flag and nothing else, so closing it keeps the selection and the value |
| `Admin.AdminPage.SetNewBalance` | src/pages/Admin.tsx:303 | typing sets the balance value only |
| `Admin.AdminPage.SetNewProfit` | src/pages/Admin.tsx:371 | typing sets the PNL value only |
| `ForgotPassword.SubmitStep` | src/pages/ForgotPassword.tsx:16-32 | loading ends off; the e-mail is posted; the form counts as submitted exactly when it already was or the response was OK |
| `ForgotPassword.SubmittedIsFinal` | src/pages/ForgotPassword.tsx:45-71 | after an OK response the form is gone for good, whatever later submissions meet, and loading is off |
| `ForgotPassword.FormShown` | src/pages/ForgotPassword.tsx:51 | `!isSubmitted`, as written |
| `ForgotPassword.SubmitDisabled` | src/pages/ForgotPassword.tsx:71 | `disabled={isLoading}`, as written |
| `ForgotPassword.SubmitAttempt` | src/pages/ForgotPassword.tsx:51-72 | a press runs `SubmitStep` exactly while the form is shown, the button is enabled and the required e-mail is filled; otherwise nothing changes |
| `ForgotPassword.AttemptPostsFilledEmail` | src/pages/ForgotPassword.tsx:16-72 | only non-empty addresses are ever posted, and after a success no further press posts anything |
| `ForgotPassword.ForgotPasswordPage.constructor` | src/pages/ForgotPassword.tsx:12-14 | the form starts empty, idle and not submitted |
| `ForgotPassword.ForgotPasswordPage.SetEmail` | src/pages/ForgotPassword.tsx:61 | typing sets the e-mail only |
| `ForgotPassword.ForgotPasswordPage.HandleSubmit` | src/pages/ForgotPassword.tsx:16-32 | the handler gives `SubmitStep` |
| `ForgotPassword.ForgotPasswordPage.SubmitForm` | src/pages/ForgotPassword.tsx:52 | the form's `submit` event gives `SubmitAttempt` |
| `TypingAnimation.TickStep` | src/hooks/use-fluid-animations.ts:322-329 | a running tick before the end appends the next character and advances the counter; at the end it stops the interval; a stopped interval does nothing. The character is the one at the counter before it advances, which is how the updater reads it only when React applies it eagerly (see Findings) |
| `TypingAnimation.CharAt` | src/hooks/use-fluid-animations.ts:324 | `text.charAt(j)`: the character at `j`, or the empty string past the end |
| `TypingAnimation.TickAsWritten` | src/hooks/use-fluid-animations.ts:322-329 | the callback as written, with React's order of running the updater as a parameter: applied eagerly it is `TickStep`; deferred, it appends the character after the counter |
| `TypingAnimation.SkippedCharacter` | src/hooks/use-fluid-animations.ts:322-329 | with only the first update eager, `abc` is shown as `ac`, where `TickStep` shows `abc` |
| `TypingAnimation.Start` | src/hooks/use-fluid-animations.ts:317-321 | the first render and its effect, as written |
| `TypingAnimation.Ticks` | src/hooks/use-fluid-animations.ts:322-329 | `n` interval callbacks in a row, as written |
| `TypingAnimation.TicksTypePrefix` | src/hooks/use-fluid-animations.ts:323-325 | while the text lasts, `n` ticks append the next `n` characters in order, under the eager reading of `TickStep` |
| `TypingAnimation.StoppedStays` | src/hooks/use-fluid-animations.ts:326-328 | once stopped, no tick changes anything |
| `TypingAnimation.TicksAdd` | src/hooks/use-fluid-animations.ts:322-329 | `m` ticks followed by `n` ticks are `m + n` ticks |
| `TypingAnimation.TicksFinish` | src/hooks/use-fluid-animations.ts:321-329 | enough ticks append the rest of the text, stop at its end and change nothing more |
| `TypingAnimation.TypesWholeText` | src/hooks/use-fluid-animations.ts:318-329 | from the first render, as many ticks as the text has characters show exactly the text, and the next one stops the interval, under the eager reading of `TickStep`; a deferred updater skips characters (see Findings) |
| `TypingAnimation.RunAppendsPrefix` | src/hooks/use-fluid-animations.ts:320-329 | a run from zero never passes the end of its text and has appended exactly the text up to its counter |
| `TypingAnimation.Restart` | src/hooks/use-fluid-animations.ts:320-332 | an unchanged text and speed change nothing; a change restarts the counter and the interval and keeps the display |
| `TypingAnimation.RestartAppends` | src/hooks/use-fluid-animations.ts:318-332 | after a change of text, the display becomes the old display followed by the whole new text |
| `TypingAnimation.TypingHook.constructor` | src/hooks/use-fluid-animations.ts:317-321 | the hook starts with nothing shown, the counter at zero and the interval running |
| `TypingAnimation.TypingHook.Tick` | src/hooks/use-fluid-animations.ts:322-329 | the interval callback gives `TickStep` |
| `TypingAnimation.TypingHook.RunTicks` | src/hooks/use-fluid-animations.ts:322-329 | `n` firings give `Ticks` |
| `TypingAnimation.TypingHook.Rerender` | src/hooks/use-fluid-animations.ts:331-332 | a render with new arguments runs the cleanup and the effect again, as `Restart` says |

## Left out

- The HTTP wrappers in `src/lib/api.ts` are not part of this model. Every call is an `Outcome` supplied as input, and the request log records only which endpoint was called and with which arguments.
- Request bodies carry amounts as the raw input text. `parseFloat`, `toLocaleString`, `toFixed` and all other floating-point work are not modelled; prices, balances and allocations are integers.
- The 15-second `AbortController` timeout is the `Aborted` outcome only. Timers, the toast messages and `navigate` calls are not modelled.
- React's scheduling is reduced to sequential assignments. Each handler runs to completion as one step, so a state in which `loading` or `isLoading` is true during a request is not observable. Renders caused by intermediate setters are not modelled, and an updater function runs when it is queued.
- Overlapping requests are not modelled. An unawaited reload resolves only when its `Complete...` step is applied, and a second handler cannot run between a request and its response.
- `Promise.all` over several calls is one combined outcome: it fulfils exactly when every call responds. In the admin row builder, the order in which the balance requests settle is not modelled.
- `AuthContext.CheckAuthStep`: a check body other than a user object (JSON `null`, for instance) is not modelled; an OK body is always a user. Writing to the browser's storage never fails.
- `AuthContext.AuthProvider.CheckAuth`: `readFails` is the only way into the outer `catch`; no other statement in its `try` is modelled as throwing.
- Route matching is exact string equality. React Router's case-insensitive and trailing-slash matching, and the rendering of `NotFound` itself, are not modelled.
- The dashboard's P&L, recent-trade count and success rate, which use dates and `Math.random`, are not modelled. Neither are the strategies page's generated performance data, the Trading page's order total, or the stagger and spring values in `use-fluid-animations.ts`.
- The wallet's `depositAmount` state has no reader or writer outside its declaration, and the Track Payment button and clipboard copy are browser side effects. None of them is modelled.
- Presentational components, framer-motion configuration and the static pages (Landing, About, Services, Contact, Security, Profile, Login) are not part of this model.
- `TypingAnimation.TickStep`: the interval's period (`speed`) is not modelled as time; only its change, which restarts the effect, is.
- `TypingAnimation.TickAsWritten`: whether React applies a given update eagerly or defers it to the next render is a parameter; the model does not decide it. The rest of the model uses `TickStep`, the eager reading.
- `TypingAnimation.TickStep`: JavaScript's `text.length` and `charAt` count UTF-16 code units, while a Dafny string is indexed by characters. For text outside the Basic Multilingual Plane the source takes two ticks per such character and shows a lone surrogate in between; the model takes one. `TypesWholeText`'s count is the number of characters, not `text.length`.
- `Kyc.SubmitAttempt` and `ForgotPassword.SubmitAttempt`: the browser's form validation is modelled only as "every `required` input is non-empty". The format checks of `type="email"` and `type="date"` are not modelled. `KycPage.HandleSubmit` and `ForgotPasswordPage.HandleSubmit` are the handlers themselves, which do not check their input; `SubmitForm` is the path by which a press reaches them.
- `AppRoutes.MatchIn` takes the first entry with the path. React Router ranks routes instead; the two agree on this table because its paths are distinct (`PathsDistinct`).

## Findings

| source | as written | input that shows it | evidently intended | confidence | as-written member | corrected member |
|---|---|---|---|---|---|---|
| src/hooks/use-fluid-animations.ts:322-325 | the updater `prev => prev + text.charAt(i)` reads the shared counter `i` whenever React runs it, and `i++` follows the call at once; an update React defers to the next render reads the counter already advanced | `text = "abc"`, with the first update applied eagerly and the later ones deferred: the display becomes `ac` | every character typed once, in order: read the character before advancing the counter | low, not executed: depends on when React runs each updater | `TypingAnimation.SkippedCharacter` | `TypingAnimation.TypesWholeText` |
