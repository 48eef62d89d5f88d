# Payments, access, sessions and feeds: a verified model

This project models the parts of the creator-platform API in which a mistake costs money or leaks content, and
proves what those parts are relied on for. `dafny verify dfyconfig.toml` checks all of it.

## What is modelled

**Payments.** An order is stored PENDING at checkout and settled by webhook deliveries that may be repeated,
reordered, concurrent, or cut off by a crash. `Ledger` holds the tables and what each committed operation does to
them; `Payments` holds the service as a class whose methods carry those operations out, with early returns and with
rollback on a unique key; `Receipts` says of both, column by column, what a payment leaves behind. `Fulfilment` splits
every delivery into its statements (event insert, read and amount guard, claim, wallet upsert, plan read or insert,
subscription read, subscription upsert, commit) and interleaves any number of them with crashes, checkouts,
cancellations, plan edits and new wallets. Four results carry the weight:

- `Fulfilment.Serialisable`: every interleaving commits what some serial run of whole operations commits.
- `Deliveries.InsensitiveUnlessContested`: order and repetition of deliveries never show in orders, events, wallets,
  purchases, tips, the pairs subscribed and the months they bought, exactly when no buyer has two open orders for one
  post that is not owned yet. (The plan and provider on a subscription row do depend on which of two orders of one pair
  settles first, and its end on the clock.) With two such orders the first to be paid wins, and the transaction of the
  second rolls back on the key (buyer, post); `Contests.SettledExactlyWhenPaid` says exactly which orders any run
  settles, contested or not.
- `Confluence.ConcurrentIsSerial`: under that same condition, when concurrent deliveries have all finished and none was
  cut off with its event consumed, the result is that of handling the same events whole, one after another, in any
  order and with any repetitions, whatever cancellations, plan edits and new wallets came between their statements.
- `Outcomes.PendingLeavesNoTrace`: over every interleaving, an order that has not become SUCCEEDED has left the tables
  exactly as if it had never been placed, but for its own row.

`Outcomes` adds exactly-once grants and freedom from deadlock, and `ConsumedEvents` tells when a paid order can still
be settled after a crash. `Cents` covers the fee and the
printing and reading of amounts; `Calendar` and `Periods` cover the calendar arithmetic of periods; `CanonicalJson`
covers the key sorting under the NOWPayments signature.

**Access and feeds.** `Access` states the access rules and relates every check to the ledger, `Feeds` shapes and lists
posts and shows what each viewer gets and that locked content cannot be told from a feed, `Pagination` and `Bookmarks`
show that walks by cursor visit the whole list, and `Engagement` keeps the like and comment counters equal to the rows
they count.

**Sessions.** `Lockout` is the failed-login counter with its rate bound, `Sessions` the refresh-token chains with
one-generation replay detection (the class `AuthService`), and `SessionRaces` the same refresh split into statements
and raced against everything that revokes sessions.

## Assumptions

- The database commits or rolls back a transaction as a whole; its writes show to others at commit; a written row and
  a key inserted into a unique index stay locked until commit; a statement that needs a held lock waits (PostgreSQL,
  READ COMMITTED). A cursor means the rows strictly after that row in the order of the query. Rows that tie in that
  order keep the order in which the table lists them.
- Generated order references, session ids, row ids and tokens are fresh. SHA-256 and the password check are
  injective. A delivery that reaches a handler is authentic. Two deliveries with one event id have one content.
- Identifiers are compared for equality only, so they are numbers; an absent or empty one is `None`. The payment core
  reads an order's metadata only as `createCheckout` wrote it, so the creator is always set; the plan currency is
  always USD because nothing writes that column.
- The clock is a number of milliseconds since 1970 in UTC that does not run backwards between statements.
- Foreign-key failures, an overflow of the 32-bit `pendingCents` column and a lost connection are all the same thing
  here: the transaction rolls back (`Crash`).
- A double lies within one part in 2^53 of the exact result of the operation that produced it.

## Where the code does not do what it says

- "Never grant more than what was actually invoiced" (src/payments/payments.service.ts:365): the guard lets a report
  of zero, of a negative amount, or of something that is not a number settle an order of any price.
  `Deliveries.UnreadableAmountsSettle` exhibits this and `Deliveries.GuardDecides` says exactly which reports settle.
- `sortDeep` assigns to a plain object, and assigning to `__proto__` does not create a member, so such members are
  lost from the signed text. `CanonicalJson.ProtoIsLost` is the example and
  `CanonicalJson.BindingsSurviveUnlessProto` the exact condition.
- "Replays are no-ops" and "an order is fulfilled exactly once" (src/payments/payments.service.ts:37 and 355): at most
  once is what holds. The event id is recorded before fulfilment, so the replay of an event whose delivery was cut off
  is a no-op too, and the order it pays for stays PENDING: `ConsumedEvents.PaidButPending` is the input.
  `ConsumedEvents.RedeliverySettlesUnlessConsumed` is the exact condition: delivering the event again, however often,
  can settle the order if and only if the event is not on record yet.

Nothing in the source promises that the order of deliveries is irrelevant, and it is not when two open orders of one
buyer name one post. Two checkouts are enough for that (`Payments.TwoPostCheckoutsCompete`), and each paid at its exact
price settles the one whose delivery comes first (`Deliveries.RivalsShowTheOrder`).

## Model

| member | source | states |
|---|---|---|
| Payments.PaymentsService.CreateCheckout | src/payments/payments.service.ts:54-99 | an offered contract becomes one new PENDING order under its reference, with that contract and a fee of a fifth of the amount rounded down; a clash of references is refused; nothing else in the payment tables changes; the ledger invariant is kept, as by every method of this class that writes an order, a subscription or a plan |
| Payments.PaymentsService.StartCheckout | src/subscriptions/subscriptions.service.ts:14-43 | refusals in the order of the checks (no active plan, own plan, live subscription, reference clash); otherwise one PENDING order by this buyer to the plan's creator for this plan, at its discounted price, which is an offer that the ledger accepts |
| Payments.PaymentsService.CreatePostCheckout | src/payments/payments.service.ts:106-123 | a post can be ordered exactly when it is published, for sale, somebody else's and not yet bought; the order names post, buyer and author and has the post's own price |
| Payments.PaymentsService.CreateMediaCheckout | src/payments/payments.service.ts:125-135 | the same for a media item |
| Payments.PaymentsService.StartTipCheckout | src/tips/tips.service.ts:13-31 | tips to oneself and to non-creators are refused; otherwise one order from the sender to the creator with the amount, the message and the anonymity asked for |
| Payments.TwoPostCheckoutsCompete | src/payments/payments.service.ts:112-123 | a buyer who opens two checkouts for one post that is not unlocked is not refused the second, and the two orders compete |
| Payments.DiscountFromDoubles | src/subscriptions/subscriptions.service.ts:29 | the price as the doubles compute it, three roundings and `Math.round`, is within half a cent of the exact discounted price, and is the modelled one unless the exact price lies half way between two cents |
| Payments.DiscountIsNearest | src/subscriptions/subscriptions.service.ts:29 | the modelled discounted price is within half a cent of the exact one and between nothing and the full price |
| Payments.PaymentsService.MarkEventOnce | src/payments/payments.service.ts:453-460 | an event id is accepted exactly the first time and recorded either way |
| Payments.PaymentsService.HandleNowPaymentsEvent | src/payments/payments.service.ts:201-222 | nothing happens unless the status is settled and names an order; otherwise the key recorded is the payment id, or without one the order id, a key already on record changes nothing, and a new one fulfils the order once, column by column; the reply follows the branches; the ledger invariant is kept |
| Payments.PaymentsService.HandlePaypalEvent | src/payments/payments.service.ts:325-349 | the same for PayPal, where only a completed capture with an event id counts and the key is that id |
| Payments.PaymentsService.FulfillOrder | src/payments/payments.service.ts:357-450 | an order that is PENDING, paid and not bought already is settled: claim, net credit, subscription end by interval, purchase and tip columns as `Receipts.GrantWrites` spells them out; in every other case no table changes; it raises exactly when a unique key aborts the transaction |
| Payments.PaymentsService.FulfilmentTransaction | src/payments/payments.service.ts:377-449 | the statements of the transaction come to the whole grant that the run theorems are about, or, when a unique key refuses the insert, to no change at all |
| Payments.PaymentsService.ExtendSubscription | src/payments/payments.service.ts:393-417 | one, three or twelve months are added to the old end while that is ahead of the clock, otherwise to the clock, so that the end moves 28 to 31, 89 to 92 or 365 to 366 days; the row is ACTIVE on the plan bought, keeps its first provider, and no other row changes |
| Payments.PaymentsService.InsertItem | src/payments/payments.service.ts:420-448 | a purchase or tip row is inserted exactly when no unique key refuses it: from sender to recipient, with amount, currency, provider and anonymity of the order and the first 500 characters of a message that is not empty; a refused insert changes nothing |
| Payments.PaymentsService.Cancel | src/subscriptions/subscriptions.service.ts:55-63 | only the subscriber's own live subscription is cancelled; access until the period end is untouched |
| Payments.PaymentsService.UpsertPlanFor | src/creators/creators.service.ts:32-52 | one plan per creator and interval: the existing row is updated and reactivated, otherwise a new id is used; interval and owner of a plan id stay |
| Payments.PaymentsService.DeactivatePlanOf | src/creators/creators.service.ts:54-64 | only the owner's plan is deactivated, and nothing else about it changes |
| Payments.PaymentsService.constructor | prisma/schema.prisma:487-504 | empty tables satisfy the ledger invariant |
| Payments.AbortsMeansBought | prisma/schema.prisma:466 | a transaction aborts exactly when its order is PENDING, paid, and for a post that a SUCCEEDED order of the buyer already bought |
| Receipts.OwnedMeansBought | prisma/schema.prisma:466 | a buyer has the purchase row of a post exactly when a SUCCEEDED order of theirs bought it |
| Receipts.IntervalEnds | src/payments/payments.service.ts:396-403 | a month, quarter or year is one, three or twelve calendar months, and ends 28 to 31, 89 to 92 or 365 to 366 days on |
| Receipts.LandedGrantWrites | src/payments/payments.service.ts:377-449 | every grant that commits in a run writes exactly these columns: order SUCCEEDED, wallet up by the amount less the fee, subscription end by interval, purchase or tip row from the contract |
| Receipts.FulfilDoesIt | src/payments/payments.service.ts:357-450 | one fulfilment does all of that when the order is PENDING, the amount is let through and the post is not bought already, and nothing otherwise |
| Receipts.HandleDoesIt | src/payments/payments.service.ts:213-221 | a settled event does nothing when its key is on record; otherwise the key is recorded and its order fulfilled |
| Receipts.NewPaymentSettles | src/payments/payments.service.ts:213-221 | a new event key with an amount within one cent of a PENDING order for something not bought yet leaves that order SUCCEEDED, whatever other keys are on record for it |
| Receipts.OpDoesIt | src/creators/creators.service.ts:32-64 | checkouts, cancellations, plan edits and new wallets write the rows and columns that are theirs and nothing else |
| Ledger.FreshKeepsInv | prisma/schema.prisma:451-514 | tables with empty wallets, before the first order, satisfy the ledger invariant |
| Ledger.GrantConservesMoney | src/payments/payments.service.ts:375-391 | the claim of an order and the credit of its net amount together keep each wallet equal to what its SUCCEEDED orders earned |
| Ledger.GrantKeepsInv | src/payments/payments.service.ts:377-449 | a grant that commits keeps all table invariants at once: money, purchase and tip rows, (buyer, post) uniqueness, subscriptions |
| Ledger.PlansAreStable | src/creators/creators.service.ts:36-51 | no operation removes a plan or changes its interval or its creator |
| Ledger.OpKeepsInv | src/payments/payments.service.ts:377-449 | every operation on the payment tables keeps the invariant |
| Ledger.ReplayKeepsInv | src/payments/payments.service.ts:377-449 | the invariant holds after any serial run of operations |
| Ledger.OverviewBalances | src/admin/admin.service.ts:44-50 | gross revenue less platform fees, as the overview reports them, is the sum of all wallets |
| Deliveries.GrantSucceedsUnlessOwned | prisma/schema.prisma:466 | the transaction of a PENDING order rolls back if and only if its buyer already owns the post |
| Deliveries.RunReaches | src/payments/payments.service.ts:201-222 | after any sequence of deliveries of a consistent, uncontested set, orders, events and wallets are the ones that the set alone determines |
| Deliveries.InsensitiveUnlessContested | src/payments/payments.service.ts:357-383 | order and repetition of deliveries never show in orders, events, wallets, purchases, tips, subscribed pairs and months bought if and only if no two open orders of one buyer compete for a post not owned yet |
| Deliveries.RivalsShowTheOrder | prisma/schema.prisma:466 | with two such orders, two events that report the exact prices leave different order statuses in the two possible orders |
| Contests.FirstPaidWins | prisma/schema.prisma:466 | among orders that compete for one post, the first that a delivery pays is the one that wins |
| Contests.SettledExactlyWhenPaid | src/payments/payments.service.ts:363-383 | after any run, contested or not, an order is SUCCEEDED if and only if it was before, or it was PENDING for something not owned and a new event named it with an amount within one cent or not a positive number before any such event named an order that competes with it |
| Contests.TwoCheckoutsCompete | src/payments/payments.service.ts:54-99 | any two orders of one buyer placed for one post not owned yet make the ledger contested |
| Deliveries.GuardDecides | src/payments/payments.service.ts:365-372 | exactly which reported amounts settle an open order |
| Deliveries.UnreadableAmountsSettle | src/payments/payments.service.ts:365-372 | a report of zero, and one that is no number, settle an order of any price |
| Fulfilment.FreshWorld | src/payments/payments.service.ts:357-450 | such tables without deliveries in progress are a start for the results about runs |
| Fulfilment.CommitIsGrant | src/payments/payments.service.ts:377-449 | what a transaction prepared statement by statement is, at the moment of its commit, what the whole transaction would do on the tables of that moment, so no paid interval is lost between read and upsert |
| Fulfilment.OthersRunBetween | src/subscriptions/subscriptions.service.ts:55-60 | checkouts and plan edits run between the statements of any delivery, cancellations and new wallets unless their row is locked |
| Fulfilment.Undisturbed | src/payments/payments.service.ts:385-418 | an operation that writes none of a transaction's locked rows leaves everything it has read and prepared valid |
| Fulfilment.StepKeepsInv | src/payments/payments.service.ts:377-449 | every step of every interleaving, crashes and rollbacks included, keeps the ledger invariant, exclusive locks, and every transaction in step with the tables |
| Fulfilment.Serialisable | src/payments/payments.service.ts:377-449 | every interleaving commits the tables of the serial run in commit order, and each grant in that run finds its order PENDING and does its whole work |
| Confluence.QuietKeepsAccounts | src/payments/payments.service.ts:357-448 | a delivery that ends early ends for a reason that the tables show from then on: no order, amount refused, order no longer PENDING, or post owned |
| Confluence.RunKeepsAccounts | src/payments/payments.service.ts:357-460 | over every interleaving without new orders, events, wallets, plans and advanced orders are accounted for by the deliveries, plan edits and wallet openings that made them |
| Confluence.ConcurrentIsSerial | src/payments/payments.service.ts:357-460 | with no two open orders of one buyer competing for a post, every interleaving of deliveries, cancellations, plan edits, wallet openings and early crashes in which all deliveries finish and none is cut off with its event consumed leaves the books of any serial handling of the same events, up to empty wallets, and with the same wallets when none was opened |
| ConsumedEvents.RunKeepsRecorded | src/payments/payments.service.ts:213-216 | in every run a delivery past its event insert has its event on record |
| ConsumedEvents.CrashConsumesTheEvent | src/payments/payments.service.ts:213-221 | wherever past its event insert a delivery is cut off, delivering its event again is a duplicate and changes no table |
| ConsumedEvents.PaidButPending | src/payments/payments.service.ts:213-221 | a new event that pays an open order within the tolerance is recorded, its delivery is cut off, its redelivery is a duplicate, and the order is still PENDING |
| ConsumedEvents.OnlyNewEventsSettle | src/payments/payments.service.ts:213-221 | with no delivery for an open order under way, any further run settles it only through a delivery in tolerance whose event is not on record yet |
| ConsumedEvents.NewEventSettles | src/payments/payments.service.ts:357-450 | an undisturbed delivery of a new event that pays for an open order not owned yet settles it |
| ConsumedEvents.RedeliverySettlesUnlessConsumed | src/payments/payments.service.ts:453-460 | with all deliveries done, some run in which only one paying event is delivered settles its order if and only if that event is not on record yet |
| Outcomes.StatusOnlyAdvances | src/payments/payments.service.ts:379-383 | no operation changes an order's contract or moves its status other than from PENDING to SUCCEEDED by its own grant |
| Outcomes.OrdersStartPending | src/payments/payments.service.ts:76-92 | every new order enters the books PENDING |
| Outcomes.RowsAreSettledOrders | prisma/schema.prisma:463-466 | purchase and tip rows correspond one to one, by reference, with the SUCCEEDED orders of their kind, and each has the buyer or sender, item or recipient, amount, currency, provider, anonymity and message of its order |
| Outcomes.OpenOrdersDoNotCount | src/admin/admin.service.ts:44-50 | with an order that is not SUCCEEDED taken off the books, wallets, rows and the existence of subscriptions still balance |
| Outcomes.GrantedIsSettled | src/payments/payments.service.ts:377-383 | an order that a committed grant names is SUCCEEDED from then on |
| Outcomes.OthersIgnoreTheOrder | src/payments/payments.service.ts:377-449 | no operation but an order's own grant reads that order: leaving it off the books commutes with everything else |
| Outcomes.PendingLeavesNoTrace | src/payments/payments.service.ts:377-449 | over every interleaving, an order that is not SUCCEEDED is named by no committed grant, and the tables are what the same run leaves without its checkout, but for its own row: no wallet, subscription, period end, purchase or tip shows it |
| Outcomes.RunsGrantExactlyOnce | src/payments/payments.service.ts:377-383 | over every interleaving the orders settled since the start correspond one to one with the deliveries granted, each within the amount guard |
| Outcomes.FurtherOnesWait | src/payments/payments.service.ts:377-418 | locks are taken in one order, so a delivery only waits for one that has come further |
| Outcomes.NoDeadlock | src/payments/payments.service.ts:377-418 | while a delivery is unfinished, some unfinished delivery can execute its next statement |
| Outcomes.EveryDeliveryCanFinish | src/payments/payments.service.ts:357-450 | from any world, at most eight statements for each delivery finish them all |
| Calendar.FirstDayOfYear | src/payments/payments.service.ts:402-403 | the month-by-month calendar agrees for every year from 1970 with the closed form of section 21.4.1.3 of ECMA-262 |
| Calendar.DaysIntoYear | src/payments/payments.service.ts:402-403 | the days before each month agree with the standard's table |
| Calendar.MonthOfDayUnique | src/payments/payments.service.ts:402-403 | each day lies in exactly one month |
| Calendar.SpanBounds | src/payments/payments.service.ts:396 | one, three and twelve consecutive months come to 28 to 31, 89 to 92 and 365 to 366 days |
| Calendar.AddMonthsIsExact | src/payments/payments.service.ts:402-403 | adding months moves an instant by exactly the lengths of the calendar months it runs through, whatever the date overflow |
| Calendar.AddMonthsOverflow | src/payments/payments.service.ts:402-403 | the date is kept exactly when the target month is long enough; otherwise the surplus days spill into the next month |
| Periods.GrantExtends | src/payments/payments.service.ts:396-416 | a granted subscription order moves the pair's end by the calendar months of its interval, 28 to 31, 89 to 92 or 365 to 366 days, counted from the old end or the clock, and adds one, three or twelve months to what was bought |
| Periods.GrantLasts | src/payments/payments.service.ts:396-416 | right after a grant the end lies at least 28, 89 or 365 days ahead of its clock, by interval |
| Periods.OthersDoNotExtend | src/payments/payments.service.ts:393-416 | no other operation changes the pair's period end or the months bought |
| Periods.EndNeverMovesBack | src/subscriptions/subscriptions.service.ts:55-63 | no operation, cancellation and later top-ups included, shortens a period or ends its ACTIVE status |
| Periods.PeriodCoversMonthsBought | src/payments/payments.service.ts:396-416 | after any run of top-ups of M months in all, a month, quarter or year counting 1, 3 or 12, first purchases and renewals alike, the end is at least the first instant plus 28 M days and the old end plus 28 M days, and at most the later of the last instant and the old end plus 31 M days |
| Periods.GrantedTimeLasts | src/payments/payments.service.ts:401-416 | whatever follows a grant, the subscription stays ACTIVE for at least 28, 89 or 365 days for a month, quarter or year |
| Access.PaidIffPostAccessible | src/posts/posts.service.ts:190-204 | a non-owner passes the pay-per-view check if and only if a SUCCEEDED order of theirs names the post |
| Access.PaidIffMediaAccessible | src/media/media.service.ts:273-290 | the same for media |
| Access.SubscribersHavePaid | src/posts/posts.service.ts:193-201 | passing the subscriber check implies a SUCCEEDED subscription order to that creator, and lasts exactly until the period end |
| Access.OneLivenessTest | src/posts/posts.service.ts:83-88 | the separate subscription queries of the post check, the media check and the home feed's author filter decide alike |
| Access.PostRules | src/posts/posts.service.ts:190-204 | a viewer may see a post exactly when it is theirs, FREE, of a creator to whom they have an ACTIVE or TRIALING subscription that has not ended, or pay-per-view and bought by them |
| Access.MediaRules | src/media/media.service.ts:273-290 | the same for a media item, with its owner and its own purchases |
| Access.DeliveryRules | src/media/media.service.ts:219-266 | missing, trashed and unready media are not found on all three routes; of the others the viewers entitled get the item's URL, and the rest are refused on delivery and told that it is locked in the metadata |
| Access.PaidTimeIsHonoured | src/payments/payments.service.ts:393-417 | in every concurrent run, a subscriber whose grant was committed passes the check at every instant of 28, 89 or 365 days for a month, quarter or year |
| Access.RoutesAgree | src/media/media.service.ts:219-266 | metadata shows a URL exactly when delivery would, and the public route serves exactly what a stranger may fetch |
| Access.StrangersSeeOnlyFree | src/media/media.service.ts:273-290 | a viewer without an id is entitled to FREE content only |
| Cents.FeeAndShare | src/payments/payments.service.ts:65 | the fee is a fifth rounded down and lies between nothing and the amount; the creator's share is four fifths rounded up |
| Cents.FeeFromDoubles | src/payments/payments.service.ts:65 | the fee as the doubles compute it, a correctly rounded quotient and its floor, is the exact fee for every 32-bit amount |
| Cents.FeesOrderByOrder | src/payments/payments.service.ts:65 | for n orders the fees taken one by one are at most the fee on the total and fall short of it by less than n cents |
| Cents.Fixed2RoundTrip | src/payments/payments.service.ts:258 | the two-decimal text of an amount reads back as that amount |
| Cents.DigitsAreDecimal | src/payments/payments.service.ts:258 | the digits printed are the decimal digits of the number, without a leading zero |
| Cents.Fixed2IsDecimal | src/payments/payments.service.ts:258 | the text of an amount is its whole units, a point, and the two digits of its cents |
| Cents.PrintsTheCents | src/payments/payments.service.ts:258 | division by a hundred and `toFixed(2)` lose no cent of any 32-bit amount, whatever the rounding |
| Cents.ReadsTheCents | src/payments/payments.service.ts:343 | `Math.round(Number(v) * 100)` gives back the cents that were printed, whatever the rounding |
| Cents.HonestCapturePasses | src/payments/payments.service.ts:343 | an amount printed into a PayPal order and echoed by its capture passes the amount guard |
| CanonicalJson.SortDeepIsFaithful | src/payments/payments.service.ts:188-199 | sorting keeps every binding and the order of every array at any depth, but for `__proto__`, and ends in canonical form |
| CanonicalJson.CanonicalIsUnique | src/payments/payments.service.ts:188-199 | two canonical documents with one meaning are one document |
| CanonicalJson.SortDeepIsCanonical | src/payments/payments.service.ts:188-199 | two documents have the same sorted form if and only if only key order, at any depth, and `__proto__` members tell them apart |
| CanonicalJson.SortDeepIsIdempotent | src/payments/payments.service.ts:188-199 | sorting a sorted document changes nothing |
| CanonicalJson.UnitsLessIsLexicographic | src/payments/payments.service.ts:192 | one key sorts before another exactly when it is a proper prefix of it or has the smaller code unit where they first differ |
| CanonicalJson.IndexIsDecimal | src/payments/payments.service.ts:192-196 | a key is an array index, which objects list first, exactly when it is a number up to 2^32 - 2 in decimal |
| CanonicalJson.SortDeepListsKeysInOrder | src/payments/payments.service.ts:188-199 | every object of the sorted document lists its indices by number and then its other keys in ascending order |
| CanonicalJson.BindingsSurviveUnlessProto | src/payments/payments.service.ts:192-196 | sorting keeps the whole meaning if and only if no member at any depth is named `__proto__` |
| CanonicalJson.ProtoIsLost | src/payments/payments.service.ts:192-196 | an object with one `__proto__` member sorts to the same text as the empty object |
| Lockout.LoginKeepsCounter | src/auth/auth.service.ts:170-180 | the failure counter stays between 0 and 4 |
| Lockout.LoginAnswers | src/auth/auth.service.ts:151-217 | a login succeeds if and only if the password is right, the account is neither banned nor suspended, it is not locked, and the e-mail is verified; the counter goes up by one on a wrong password, the fifth locks for 15 minutes and resets it, a success clears both |
| Lockout.LockedLoginsLookAlike | src/auth/auth.service.ts:166-168 | while an account is locked, any two passwords get the same reply, neither logs in, and the row stays as it is |
| Lockout.AnsweredIsChecked | src/auth/auth.service.ts:166-180 | a wrong guess is answered exactly when its password is checked, which a locked account never does |
| Lockout.FailureUsesBudget | src/auth/auth.service.ts:166-180 | each failed check uses up one of a budget of checks that the lockout grants over time |
| Lockout.LockoutLimitsGuesses | src/auth/auth.service.ts:166-190 | with serialised logins and no success in between, every window of length T sees at most 5 (floor(T / 15 min) + 1) wrong guesses answered, that is, guesses whose reply or effect on the account depends on the password given |
| Sessions.LookupsAreUnambiguous | prisma/schema.prisma:229-230 | a stored hash belongs to one session only, and never as current and as previous token |
| Sessions.TokenAgeDecides | src/auth/auth.service.ts:235-296 | the newest token of a session that is neither revoked nor past its expiry, of an active user, rotates, and otherwise changes nothing; the token before it always revokes the session; any older one is refused without a change |
| Sessions.StrangersAreRefused | src/auth/auth.service.ts:277-296 | a token that was never issued is refused without a change |
| Sessions.RotationKeepsChains | src/auth/auth.service.ts:249-258 | after a rotation each row still holds the last two tokens of its chain, and all stored hashes are distinct |
| Sessions.GuardAdmitsExactly | src/auth/guards/jwt-auth.guard.ts:40-49 | the guard admits a session id exactly when the session exists, is not revoked, is not past its expiry, and its user is ACTIVE |
| Sessions.AuthService.constructor | src/auth/auth.service.ts:219-231 | before the first login there are no sessions and no chains |
| Sessions.AuthService.Login | src/auth/auth.service.ts:151-217 | no session unless the password is right, the account in good standing, not locked and the e-mail verified, and then one new session of this user with one fresh token that expires in 30 days; a locked account changes nothing, whatever the password; counter updates of every branch; the chains stay sound |
| Sessions.AuthService.CreateSession | src/auth/auth.service.ts:219-231 | a new session of this user expires 30 days from now and starts a new chain of one token; no other session changes |
| Sessions.AuthService.Refresh | src/auth/auth.service.ts:235-296 | for every place of a token in a chain, the outcome that the token's age, the session's revocation and expiry and the user's status call for; tokens never issued change nothing; the chains stay sound |
| Sessions.AuthService.RefreshByLookup | src/auth/auth.service.ts:240-296 | the two lookups by hash, current and then previous, and the writes that follow have the outcome of the refresh |
| Sessions.AuthService.Logout | src/auth/auth.service.ts:300-306 | the session is revoked, once |
| Sessions.AuthService.RevokeSession | src/auth/auth.service.ts:317-325 | only a user's own live session is revoked |
| Sessions.AuthService.RevokeAllSessions | src/auth/auth.service.ts:327-333 | all live sessions of the user but the kept one are revoked; revoked ones, the kept one and those of other users stay as they are |
| Sessions.AuthService.ResetPassword | src/auth/auth.service.ts:361-391 | in one uninterrupted call a usable reset token works and is spent, sets the password, clears the lockout, and leaves no session of the user that the guard admits at any time and every session of other users as it was |
| Sessions.AuthService.SetUserStatus | src/admin/admin.service.ts:164-175 | an allowed status change leaves no session of the user that the guard admits at any time, and every session of other users as it was |
| Sessions.AuthService.AdminResetPassword | src/admin/admin.service.ts:224-235 | the same for the administrator's password reset, where the rank check spares one's own account |
| SessionRaces.UninterruptedIsRefresh | src/auth/auth.service.ts:235-296 | the separate statements of a refresh, run without interruption, do what the whole refresh does |
| SessionRaces.DeadStaysDead | src/auth/auth.service.ts:249-258 | `revokedAt` once set stays set, even under a rotation whose read came before it, and no refresh is accepted for the session afterwards |
| SessionRaces.RevocationsKill | src/auth/auth.service.ts:300-333 | logout, revocation, status change, password reset, deletion of the user and replay detection each end the session |
| SessionRaces.NoResurrection | src/auth/guards/jwt-auth.guard.ts:40-49 | after any further steps the guard refuses every access token of a revoked session at every instant, those minted late included |
| SessionRaces.RunKeepsExpiry | src/auth/auth.service.ts:249-258 | over any steps, rotations included, no session changes its expiry or its user |
| SessionRaces.AcceptedIsLive | src/auth/auth.service.ts:240-251 | a refresh is accepted only for a session that is neither revoked nor past its expiry, of an active user |
| SessionRaces.SessionsEnd | src/auth/auth.service.ts:219-231 | thirty days after its login a session is over: after any steps neither the guard nor a refresh accepts it |
| SessionRaces.EndsOnlyByRevocation | src/auth/auth.service.ts:300-333 | a live session ends only by its own logout or revocation, a status change, reset or deletion of its own user, or the replay of its own token |
| SessionRaces.LoginCanRefresh | src/auth/auth.service.ts:219-258 | for thirty days the token handed out at login, presented for an uninterrupted refresh, rotates the session of that login |
| SessionRaces.ResetSetsPassword | src/auth/auth.service.ts:361-391 | after a reset the next login of an account in good standing succeeds exactly with the new password, an earlier lock notwithstanding |
| SessionRaces.ShutOut | src/admin/admin.service.ts:164-175 | whoever gets a status other than ACTIVE, or is deleted, is refused by the guard, and accepted by no further refresh, after any further steps, later logins included, until the status is set again |
| SessionRaces.LateMintsWereAccepted | src/auth/auth.service.ts:240-275 | a step adds an access token for a revoked session exactly when it writes the rotation of a refresh accepted before; it adds one, and that refresh is then done |
| SessionRaces.LateMintsAreBounded | src/auth/auth.service.ts:240-275 | over any further steps a revoked session gets at most as many more access tokens as refreshes accepted for it were under way |
| SessionRaces.LateMintsHappen | src/auth/auth.service.ts:240-275 | such a token does come about: a logout between the read and the write of a refresh |
| Pagination.PageIsTheNextRun | src/common/utils/pagination.util.ts:10-23 | a page is the next run of rows after its cursor, and has a next cursor exactly when more rows follow |
| Pagination.WalkIsTheWholeTable | src/common/utils/pagination.util.ts:10-23 | following cursors from the start gives the whole ordered table, in max(1, ceil(n / limit)) pages with the limit clamped to 1..50 |
| Pagination.WalkCoversRest | src/common/utils/pagination.util.ts:10-23 | the same from any cursor on |
| Pagination.LiveWalkMissesNothing | src/common/utils/pagination.util.ts:10-23 | with rows inserted anywhere between fetches, a walk is strictly in order and, once complete, has every row that was ahead of its first fetch |
| Pagination.LiveWalkFromTheStart | src/common/utils/pagination.util.ts:10-23 | no row comes twice, and a completed walk has every original row |
| Bookmarks.WalkReturnsVisibleBookmarks | src/posts/posts.service.ts:106-131 | a walk runs out of cursors after exactly the number of fetches that the bookmarks remaining at its start call for, and returns the visible ones of those, in order, although pages lose posts and bookmarks are added in front |
| Bookmarks.WholeWalk | src/posts/posts.service.ts:106-131 | from the first page: the walk ends, and has every visible bookmark, each once |
| Bookmarks.LostCursorStartsOver | src/posts/posts.service.ts:115-119 | a cursor that is no longer bookmarked shows the first page again |
| Feeds.BatchingChangesNothing | src/posts/posts.service.ts:138-188 | the batched author, like and bookmark lookups give each post what its own lookups would |
| Feeds.ItemsSayTheirPosts | src/posts/posts.service.ts:138-188 | each item has the columns, author and flags of its own post, and its content is the post's own body and attachments for a viewer entitled to it, and their number alone for any other |
| Feeds.CreatorFeedShows | src/posts/posts.service.ts:66-76 | a page is the run after its cursor of the creator's published posts, pinned before unpinned and newest first, of the length asked for clamped to 1..50, each item saying its own post, with a next cursor exactly when more follow |
| Feeds.HomeFeedShows | src/posts/posts.service.ts:83-99 | the same for the posts of the viewer and of the creators to whom the viewer's subscription is live, newest first |
| Feeds.BookmarksFeedShows | src/posts/posts.service.ts:106-131 | a page is the window after its cursor of the viewer's bookmarks, in their order, less the posts not published, each item saying its own post |
| Feeds.LockedHidesEverything | src/posts/posts.service.ts:178-186 | a post that the viewer is not entitled to comes without body and without any attachment, only their number |
| Feeds.SortPostsSorts | src/posts/posts.service.ts:69 | listing keeps exactly the selected posts and never puts one behind another it should precede |
| Feeds.FeedWalkShowsEveryPost | src/posts/posts.service.ts:66-99 | following a feed's cursors shows every published post of its authors exactly once, in the feed's order |
| Feeds.HydrateShowsVisible | src/posts/posts.service.ts:123-128 | a bookmarks page shows the posts that the bookmark walk is about, in its order |
| Feeds.LockedContentDoesNotShow | src/posts/posts.service.ts:138-188 | two databases that differ only in the contents of posts locked for a viewer, with equal attachment counts, give that viewer identical creator, home and bookmark feeds |
| Engagement.PerformKeepsCounts | src/posts/posts.service.ts:206-225 | a like, unlike or comment transaction moves rows and counter together |
| Engagement.PerformChanges | src/posts/posts.service.ts:206-249 | a like adds, an unlike removes and a comment stores its own row, with one more or less on the counter of that post if the row was new or there, and nothing else |
| Engagement.PostsService.constructor | src/posts/posts.service.ts:206-249 | an empty board satisfies the counter invariant |
| Engagement.PostsService.Like | src/posts/posts.service.ts:206-215 | a visible post ends up liked, counted once however often it is repeated; counters stay equal to rows |
| Engagement.PostsService.Unlike | src/posts/posts.service.ts:217-225 | the like is gone, uncounted once; counters stay equal to rows |
| Engagement.PostsService.Comment | src/posts/posts.service.ts:238-249 | only entitled viewers of a visible post comment; the row is stored under its post and counted once; counters stay equal to rows |
| Engagement.CommitIsPerform | src/posts/posts.service.ts:206-225 | a commit of interleaved statements is the whole transaction done at once and disturbs no other |
| Engagement.UninterruptedIsPerform | src/posts/posts.service.ts:206-249 | the statements of a transaction, run while no other holds a lock, do what the whole transaction does |
| Engagement.CountersAgreeAlways | src/posts/posts.service.ts:206-249 | over every interleaving, rollbacks included, each counter is the number of its rows and never negative |

## Left out

- Provider HTTP calls, HMAC, PayPal signature verification, JWT signing, Argon2, SHA-256, presigned URLs, e-mail and the audit log: oracles or plumbing.
- Controllers, DTO validation, throttling, CORS and environment checks; the rank check of administrators is an argument.
- Messaging, presence, notifications, reports, vault folders, media upload and trash, leaderboards and profiles: mostly single branches.
- Registration, e-mail verification and the sending of reset links: they only create the rows that the model starts from.
- Eventual granting of every settled payment: the code does not provide it, because the event id is consumed first.
- Replays of tokens older than one generation, and rotation as an atomic operation under concurrent refreshes of one token: the code detects neither.
- Concurrent logins on one account: the counter is read and later written, so the rate bound is for serialised logins.
- Deletion of users and posts with payments attached: rows of the payment tables are never removed in the model; `SessionRaces` does include deletion of users.
- A database error other than a duplicate inside `markEventOnce` (src/payments/payments.service.ts:453-460) also reads as a duplicate there; the model has only duplicates.
- Time zones: the server's local time is taken to be UTC. Feeds read the clock once for each request, where the code reads it again for each post.
- Bookmark pages have a size of at least one; every caller uses the default of 20.
- Payments.PaymentsService.StartCheckout: stores the exact discounted price rounded half up; `Payments.DiscountFromDoubles` shows that the doubles give the same, except that at a tie of half a cent they may give the other of the two nearest cents.
- Sessions.AuthService.ResetPassword: is one uninterrupted call; the code reads the token before its transaction, and two resets racing with one token are not modelled.
- Payments.PaymentsService.Cancel: subscriptions are named by their unique key (subscriber, creator) instead of their row id, because the two identify the same row.
- Confluence.ConcurrentIsSerial: has no checkouts between the statements, because a delivery that came before its order's checkout finds no order; `Fulfilment.Serialisable` covers runs with checkouts and with every kind of crash.
