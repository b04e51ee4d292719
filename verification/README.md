# Isomux: billing, paid creates, browser grants and the loops around them

A Dafny model of the parts of Isomux in which a mistake costs money, buys a second
box, or leaves a browser tab under control, and proofs of what those parts promise
over every input and every run. `dafny verify dfyconfig.toml` checks all of it.

The enterprise billing, from the calendar up:

- `Calendar.dfy` is the UTC calendar of section 21.4.1 of ECMA-262 from day numbers,
  and contract months on it with their clamps. `Months.dfy` is what billing needs of
  it: month starts that grow.
- `History.dfy` is the history of a seat count N and N as it is read back from rows in
  any order. `Billing.dfy` has the periods and their issue order, `Charges.dfy` what a
  period bills and the conservation theorem, `Settled.dfy` why later changes never
  matter and when the pass wakes, `Quotes.dfy` the quoted price against what is billed.
- `Seats.dfy` is the store of accounts, offices and seat changes, a class whose methods
  are the transactions.
- `Stripe.dfy` is the world that outlives a process: the ledger, the stored customers
  and wake-ups, and Stripe's invoices and idempotency keys, with every write either
  side makes. `Calls.dfy` has the pass's calls and what any run of them keeps.
  `Invoices.dfy` is the process, a class: each call may be applied or not, answered or
  not, refused, or the process's last, and anybody else may act before it.
  `Ledger.dfy` says what an account's rows are, and `Passes.dfy` runs passes over all
  accounts, with seat changes and sign-ups in between; `EndToEnd.dfy` joins it to the
  seat store and the calendar. The main result is `EndToEnd.Service.YearIsBilled`: at
  every point of every run, a contract year that the passes have covered is in the
  ledger, and once delivered is invoiced in Stripe, for exactly $20 for each seat-month
  of the store's own history.

The one-shot paid create: `Latch.dfy` has the transactions, `Create.dfy` every run of
any number of workers over them. `Create.AtMostOneCreate` is the main result.

The browser extension: `Popups.dfy` is one grant's popup chain, `Grants.dfy` the grants
of one worker and the offers it sends again, `Browser.dfy` the two together.

The smaller loops: `Limiter.dfy`, `Posts.dfy` and `Stream.dfy` (the chat endpoint's rate
limit, log posts and event stream), `Renewal.dfy` (the certificate slot), `Dns.dfy` (the
challenge records' crash journal) and `DriveLoop.dfy` (the provisioner's loop).

`Basics.dfy` has the shared types.

## What the code does not do as written

These are proved, each with its exact condition.

- A contract start in the years 0 to 99 moves to the 1900s
  (`Calendar.MonthZeroIsTheStart`). The month starts grow from exactly the starts of
  year 100 on (`Calendar.MonthStartsIncreaseIff`).
- The invoice pass says that a lost answer never makes a second invoice, even after the
  idempotency keys expired. It makes a second draft exactly when the key of the lost
  one's create expired and the draft has a hundred newer invoices of its customer, as
  the list reads one page (`Stripe.SecondInvoiceIff`); there is a run, from
  nothing, where it does (`Invoices.Provisioner.SecondDraft`).
  The runs go on: nothing else gives a period two live invoices
  (`Calls.OneLiveOrSecond`), and even then only one is ever finalized
  (`Calls.NeverTwoInvoices`).
- N read from the rows is wrong for some order of them exactly when the changes of one
  millisecond return to a count they had (`History.SeatsAtIsCount`,
  `History.ReturnedCountMisreads`). Yearly histories rise, so their reads are right.
- The quoted invoice date is not the billed one exactly at the trial's end and at a
  year's start (`Quotes.QuotedDateIsExact`); the amount still is.
- With an odd budget, and no other, a part of a split post can be just under half of it
  (`Posts.HalfIffEven`): exactly when the text from its middle to its break is
  whitespace (`Posts.UnderHalfIff`).
- The budget of a split post leaves room for two two-digit numbers, so that posts can be
  over Discord's limit once there are a hundred: exactly those whose part and numbers
  take more (`Posts.PostOverIff`), as the tenth of `Posts.HundredPosts`.
- The extension's comment says that a terminal close ends every kept offer. A resume
  that is still in flight keeps its entry (`Grants.Worker.Close`). After a worker
  restart an offer that was ended is back exactly when, of the writes then under way, the
  first that changes its entry takes it away (`Grants.Worker.Restart`); there is a run
  where it is sent again (`Grants.Worker.EndedAndSentAgain`). In no other way is an ended
  offer ever sent (`Grants.NeverSentAgain`).
- A DNS cleanup removes its file although a record made here is still there exactly when
  the list did not show that record (`Dns.CleanupIff`), which takes more than a hundred
  records at the name (`Dns.ShowsAllIff`); there is a run where it does
  (`Dns.CloudflareDns.CleanupLosesOne`). A reap is exact under the same condition at each
  turn (`Dns.ReapIff`).

## What the model assumes

- Clocks do not go backwards. The clock that contracts are signed by reads year 100 or
  later.
- One invoice pass runs at a time, and a seat change commits less than
  `INVOICE_GRACE_MS` after the time it is given. A write whose answer was lost has
  landed before the process's next call, or never does. Only the pass finalizes its
  invoices, and nobody edits a draft's lines during a pass; between passes anybody may.
- Stripe replays a create under a live key with its first answer, refuses an item or a
  finalize on what is not a draft, takes a send of a finalized invoice or refuses it,
  and lists a customer's invoices newest first.
- An office answers an open only after the open succeeded. The tab that Chrome makes for
  an agent belongs to no grant yet. A write to the session storage succeeds unless the
  worker ends first.
- Ids (accounts, intents, boxes, tabs, sessions) are opaque values, and a new one is
  new.

## Model

| member | source | states |
|---|---|---|
| Calendar.YearFromDay | control-plane/enterprise-billing.ts:30-45 | the UTC year of a day number is the one whose first day is at or before it and whose successor's is after it (ECMA-262, section 21.4.1) |
| Calendar.Month | control-plane/enterprise-billing.ts:30-45 | the UTC month is the one whose days, leap years counted, hold the day of the year |
| Calendar.MonthLengths | control-plane/enterprise-billing.ts:24-26 | every month from any year has 28 to 31 days, as the standard's table and leap rule give them |
| Calendar.InItsMonth | control-plane/enterprise-billing.ts:30-45 | an instant's month number and date give back its day, and the date is one of the month's |
| Calendar.MonthIsUnique | control-plane/enterprise-billing.ts:30-45 | no other month holds that day |
| Calendar.DaysInMonthIs | control-plane/enterprise-billing.ts:24-26 | the length read off the day before the next month's first is the month's length, for every year that Date.UTC reads as written |
| Calendar.ContractMonthIs | control-plane/enterprise-billing.ts:28-45 | contract month k starts in calendar month k after the start's, on the start's date or the month's last, at the start's time of day |
| Calendar.ContractMonthsGrow | control-plane/enterprise-billing.ts:28-45 | contract months grow by a day or more each, from every start of year 100 on and across every clamp |
| Calendar.MonthZeroIsTheStart | control-plane/enterprise-billing.ts:30-45 | month 0 starts at the start if and only if the start is not in the years 0 to 99, which Date.UTC moves to the 1900s |
| Calendar.ShortMonthMoves | control-plane/enterprise-billing.ts:30-45 | and every contract month of the years 0 to 99 moves to the 1900s with it |
| Calendar.MonthStartsIncreaseIff | control-plane/enterprise-billing.ts:28-45 | the source's month starts are a contract calendar, the one thing billing assumes of them, if and only if the start is not before year 100: December of year 99 is put after the January that follows it |
| Calendar.EstimateIsOffByAtMostOne | control-plane/enterprise-billing.ts:52-57 | from every start of year 100 on, the calendar estimate is the month index or one too many, and which of the two: the first loop steps at most once, the second never |
| Calendar.ContractMonthIndex | control-plane/enterprise-billing.ts:48-60 | from every start of year 100 on, the loops end at the index, for every instant before and after the start |
| Calendar.ThirteenMonthsReach | control-plane/enterprise-billing.ts:337-341 | thirteen months on from any instant the contract has passed its next quarter's end, so the account page always finds a next invoice |
| Months.Index | control-plane/enterprise-billing.ts:47-60 | the contract month that holds an instant: its start is at or before it, the next month's after it; 0 before the start |
| Months.IndexIs | control-plane/enterprise-billing.ts:47-60 | only one month does |
| Months.QuarterHoldsNow | control-plane/enterprise-billing.ts:62-77 | the quarter's end and the renewal are the first ones after now, and the months left run from the current month to the renewal |
| History.SeatsAtIsCount | control-plane/enterprise-billing.ts:190-202 | N read from the rows, in any order, is N as committed, when the last count of its millisecond did not occur earlier in it |
| History.ReturnedCountMisreads | control-plane/enterprise-billing.ts:194-201 | and whenever that count did, some order of the same rows makes the read wrong: the condition is exact |
| History.RisingRowsTellN | control-plane/enterprise-billing.ts:190-202 | a yearly history rises, so its reads are always right |
| Billing.CountIsSum | control-plane/enterprise-billing.ts:145-150 | N at an instant is the sum of the changes made by then |
| Billing.PeriodsUntil | control-plane/enterprise-billing.ts:204-240 | the loops and the sort give exactly the periods issued at or before an instant, in issue order |
| Billing.MonthsUntil | control-plane/enterprise-billing.ts:210-216 | the monthly loop gives the months from the second on that have ended |
| Billing.YearsUntil | control-plane/enterprise-billing.ts:218-237 | the yearly loops give each year and its four quarters as far as they are issued |
| Billing.IssueOrder | control-plane/enterprise-billing.ts:238-240 | issue order is strict by issue time and then start, and no two periods share an id |
| Billing.SortedAlready | control-plane/enterprise-billing.ts:238-240 | the periods are pushed in their sorted order: a stable sort leaves them alone |
| Billing.IssuedBy | control-plane/enterprise-billing.ts:204-240 | a period is listed exactly when it is issued by then |
| Billing.LaterOnlyAppends | control-plane/enterprise-billing.ts:242-250 | a later instant's list only appends |
| Billing.PeriodsTile | control-plane/enterprise-billing.ts:145-156 | month periods, year periods and quarters each run end to end from their first on: no instant of the paid contract is left out or billed in two |
| Billing.PeriodsIssue | control-plane/enterprise-billing.ts:145-183 | months and quarters are issued at their end, a year's own invoice at its start |
| Charges.ChargeOf | control-plane/enterprise-billing.ts:264-324 | the loops over the history compute the period's charge as the sum or the maximum that the plan says, whatever order the rows come in |
| Charges.HighestOf | control-plane/enterprise-billing.ts:273-278 | the monthly loop finds the highest of N at the window's start and every count set inside it |
| Charges.MonthBillsTheHighest | control-plane/enterprise-billing.ts:271-283 | a month bills $25 for each seat of a count that is no less than N at its start and every count that a change inside it set, and is one of these |
| Charges.MonthBillsTheMost | control-plane/enterprise-billing.ts:271-283 | where no millisecond holds two changes, that is the most seats at any instant of the month |
| Charges.YearInvoiceIs | control-plane/enterprise-billing.ts:284-300 | a year's own invoice is $240 for each seat at its start, and $220 in the first year |
| Charges.QuarterCents | control-plane/enterprise-billing.ts:311-322 | the quarter's loop over sorted rows sums one term for each rise in the quarter |
| Charges.MostIn | control-plane/enterprise-billing.ts:145-150 | the highest N at any instant of a window is reached and never passed: the reference the yearly sum is measured against |
| Charges.SeatMonthsByChange | control-plane/enterprise-billing.ts:145-153 | seat-months counted month by month are the changes' seats times the months after each |
| Charges.OneChangePays | control-plane/enterprise-billing.ts:287-322 | what one rise adds to a year's invoices is $20 for each of its seats and paid months left |
| Charges.YearIsSeatMonths | control-plane/enterprise-billing.ts:264-324 | conservation: for every rising history and every order of its rows, a contract year's invoice and its four quarters come to exactly $20 times the sum, over its paid months, of the month's highest N |
| Settled.ChargeIsSettled | control-plane/enterprise-billing.ts:264-324 | a period issued by t bills the same from the changes made by t alone, on both plans |
| Settled.LaterChangesNeverMatter | control-plane/enterprise-billing.ts:186-188 | histories that agree up to a period's issue time bill it the same, so a claimed amount is what any later reading gives |
| Settled.ChargeIsPositive | control-plane/enterprise-billing.ts:264-324 | where the rows begin by the period's start and never set N to nothing, months and years are always billed and whatever is billed is more than nothing |
| Settled.WakesWhenDueGrows | control-plane/enterprise-invoices.ts:485-496 | the wake-up after a clean pass is the first instant at which the list of due periods grows, and then by the next period |
| Settled.NextInvoice | control-plane/enterprise-billing.ts:326-350 | the account page's next invoice is the first period issued after now and the sum of what is issued with it; there always is one |
| Settled.NextIsInReach | control-plane/enterprise-billing.ts:337-342 | a period is issued by the end of the current quarter or the second month on |
| Settled.TogetherIs | control-plane/enterprise-billing.ts:343-346 | the periods issued together are one, or a fourth quarter and the next year's invoice |
| Quotes.QuoteIsBilled | control-plane/enterprise-billing.ts:109-141 | for every yearly history and instant from the start on, a rise raises its contract year's charges by exactly the quoted amount, in the trial and after it, and no past year's |
| Quotes.MonthlyQuoteIsBilled | control-plane/enterprise-billing.ts:84-120 | the monthly quote is what the month bills if the change sets its highest count; lowering N leaves the month as it was |
| Quotes.YearlyQuoteShows | control-plane/enterprise-billing.ts:121-141 | the seats added and the paid months left that a yearly quote shows are the ones billed |
| Quotes.QuotedDateIsExact | control-plane/enterprise-billing.ts:137-140 | the quoted date is the issue of the period that bills the rise if and only if the rise is not at exactly the trial's end or a year's start |
| Quotes.OnlyThatPeriodRises | control-plane/enterprise-billing.ts:264-324 | of the year's five periods only that one rises, by the whole quoted amount |
| Seats.AlwaysSound | control-plane/enterprise.ts:425-719 | after every sequence of sign-ups, signatures, seat changes, joins, check-ins, adds, renames and removals: members in use fit N, offices and N their bounds, the history is a chain from 0 to N, and on a yearly plan it rises |
| Seats.ApplyIsSound | control-plane/enterprise.ts:475-795 | each call keeps every account so, and so does a refusal |
| Seats.RecordMeans | control-plane/enterprise.ts:601-719 | an add is refused exactly when the seats do not fit and then writes nothing; a check-in is never refused for seats and lifts N to what is in use, with one history row |
| Seats.OldSecretIsDead | control-plane/enterprise.ts:525-552 | once a secret is renewed the old one records nothing |
| Seats.UpsertCounts | control-plane/enterprise.ts:645-706 | after a call the office counts with its new members and the others as before |
| Seats.UpsertMeans | control-plane/enterprise.ts:645-706 | its row is active, with its members, seen now, and joined when it first was; the others are as before |
| Seats.OpeningMeans | control-plane/enterprise.ts:368-418 | a set-up is done exactly of a new id for 1 to 10,000 seats, and the account has them, its plan and one change from 0 |
| Seats.SigningMeans | control-plane/enterprise.ts:425-449 | a signature is taken exactly of a standard account without one, and starts its contract |
| Seats.ChangeMeans | control-plane/enterprise.ts:475-519 | a seat change is made exactly from the count it was seen at, to one that fits the seats in use and, yearly, is no less; N is that one, and one change says so; each refusal comes exactly in its case, with N and the seats in use |
| Seats.RemovalMeans | control-plane/enterprise.ts:765-795 | a removal is done exactly of an active office, whose members and place leave the counts and whose row stays; a second one is not found |
| Seats.RenameMeans | control-plane/enterprise.ts:729-764 | a rename changes an active office's name and nothing else |
| Seats.RecordRefused | control-plane/enterprise.ts:619-650 | a call of an account that is not signed, or for one more office than a thousand, writes nothing |
| Seats.CallMeans | control-plane/enterprise.ts:583-650 | a seat call is of the account whose present secret it carries, for 0 to 100,000 members, and touches no other account |
| Seats.NewSecretWorks | control-plane/enterprise.ts:525-552 | the renewed secret is taken, and nothing else of the account changes |
| Seats.SeatStore.CreateEnterprise | control-plane/enterprise.ts:368-418 | the rows after a set-up, and its refusals, in order |
| Seats.SeatStore.SignAgreement | control-plane/enterprise.ts:425-449 | a signature is taken once, and starts the contract |
| Seats.SeatStore.ChangeSeatCount | control-plane/enterprise.ts:475-519 | the seat change's refusals in order, the new N and its history row |
| Seats.SeatStore.RecordSeatChange | control-plane/enterprise.ts:178-190 | one row is appended to the history |
| Seats.SeatStore.RecordOfficeSeats | control-plane/enterprise.ts:619-719 | the seat service's refusals in order, the office's row, and the raise of N with its history row |
| Seats.SeatStore.RemoveOneOffice | control-plane/enterprise.ts:729-795 | a removal takes the office out of the counts and keeps its row |
| Stripe.MakeInvoiceKeeps | control-plane/enterprise-invoices.ts:221-240 | a create, new or replayed under its key, keeps the whole invariant, whatever else the period has |
| Stripe.AddItemKeeps | control-plane/enterprise-invoices.ts:322-334 | the item goes on once and for the claimed amount |
| Stripe.FinalizeKeeps | control-plane/enterprise-invoices.ts:339-348 | what is finalized is the row's own invoice at the claimed amount |
| Stripe.SetInvoiceKeeps | control-plane/enterprise-invoices.ts:242-248 | the stored invoice is set once |
| Stripe.SetStateKeeps | control-plane/enterprise-invoices.ts:182-194 | a row is finalized or sent only over a finalized invoice |
| Stripe.OtherKeeps | control-plane/enterprise-invoices.ts:566-638 | payments, voids, write-offs, deletions, invoices made by hand, expired keys, the portal and an operator's release or record break none of it |
| Stripe.OtherKeepsOne | control-plane/enterprise-invoices.ts:566-638 | nor do they give a period a second live invoice |
| Stripe.OtherMeans | control-plane/enterprise-invoices.ts:566-638 | what each of these does where it can be done: a release puts a held row back to claimed with its account due at once, a record makes it manual, an open invoice is paid, voided or written off, a draft deleted |
| Stripe.PersonAddsKeeps | control-plane/enterprise-invoices.ts:335-338 | nor does a person who edits a draft between passes |
| Stripe.AdoptableIs | control-plane/enterprise-invoices.ts:204-220 | what the first page of the list offers for adoption, the newest of the period, and when it offers nothing |
| Stripe.ListedIff | control-plane/enterprise-invoices.ts:206-210 | an invoice is on the page exactly while fewer than a hundred of its customer's, not deleted, are newer |
| Stripe.UnstoredIsDraft | control-plane/enterprise-invoices.ts:204-206 | an invoice that no row stores is a draft whose create lost its answer |
| Stripe.SecondInvoiceIff | control-plane/enterprise-invoices.ts:204-241 | when the list offers nothing, a create makes a second live invoice if and only if its key has expired and the first one, a draft, has a full page of the customer's newer invoices |
| Stripe.SecondInvoiceHappens | control-plane/enterprise-invoices.ts:204-241 | a world of the invariant where it does: a lost draft, its key expired, and a hundred invoices made by hand since |
| Calls.EffectKeeps | control-plane/enterprise-invoices.ts:152-194 | every single write of the pass keeps the whole invariant and is a legal move |
| Calls.RowsOnlyMove | control-plane/enterprise-invoices.ts:53-60 | over any stretch of any run a claimed row stays, with its amount and, once stored, its invoice; sent and manual are final; held leaves only to claimed or manual |
| Calls.NeverTwoInvoices | control-plane/enterprise-invoices.ts:4-12 | at every point of every run a period has at most one invoice that was ever finalized, the one its row stores, of the row's amount, and no other has the item |
| Calls.OneLiveOrSecond | control-plane/enterprise-invoices.ts:204-241 | a run that starts with one live invoice for each period has so at every point, or an earlier step was a create with an expired key after a list whose page a first draft was off |
| Calls.CreateIsOneOrSecond | control-plane/enterprise-invoices.ts:204-241 | a create after a list that showed no draft of the period leaves one live invoice, or is such a second one |
| Calls.SentMeansSent | control-plane/enterprise-invoices.ts:350-387 | a row that says sent has its own finalized invoice of the claimed amount, emailed by Stripe or paid before that |
| Calls.ListShows | control-plane/enterprise-invoices.ts:204-220 | the list shows a draft of the period that can be stored, or every live one it has is off the page |
| Calls.UntouchedGoes | control-plane/enterprise-invoices.ts:254-365 | a period with nothing in Stripe but the pass's own work, listed, is sent by a pass that is left alone, wherever an earlier one stopped |
| Calls.SentIff | control-plane/enterprise-invoices.ts:315-365 | left alone, a period whose invoice is stored is sent exactly while that is a draft without lines or of the claimed amount, open, or paid over a finalized row; a void, written-off, deleted or early-paid one is held |
| Invoices.Provisioner.Do | control-plane/enterprise-invoices.ts:88-104 | a call meets exactly the world that others leave it, leaves exactly its own write or nothing, and answers as it was decided; a refusal of Stripe is one too; every call tried is on record with its answer |
| Invoices.Provisioner.EnsureCustomer | control-plane/enterprise-invoices.ts:506-559 | the account's one stored customer, whatever is lost on the way |
| Invoices.Provisioner.FirstAdoptable | control-plane/enterprise-invoices.ts:206-220 | the search of the list's page finds the newest draft or open invoice of the period |
| Invoices.Provisioner.InvoiceFor | control-plane/enterprise-invoices.ts:196-250 | the period's invoice, stored in its row before anything is done to it; the create runs in every case in which the list shows none |
| Invoices.Provisioner.SecondDraft | control-plane/enterprise-invoices.ts:196-250 | a run from nothing, of the pass's own calls, that gives a period a second draft |
| Invoices.Provisioner.FinishDraft | control-plane/enterprise-invoices.ts:321-349 | a draft is finalized only after a look that shows the claimed amount |
| Invoices.Provisioner.FromInvoice | control-plane/enterprise-invoices.ts:315-365 | what the pass does with the invoice that it read, by its status: only a draft or an open one is ever emailed |
| Invoices.Provisioner.Send | control-plane/enterprise-invoices.ts:356-364 | a row is marked sent only once Stripe took the send |
| Invoices.Provisioner.Deliver | control-plane/enterprise-invoices.ts:353-364 | a finalized invoice is marked, sent and marked sent, in that order |
| Invoices.Provisioner.Fail | control-plane/enterprise-invoices.ts:264-288 | a refusal that would repeat holds the row, any other failure leaves it for the next pass |
| Invoices.Provisioner.Advance | control-plane/enterprise-invoices.ts:254-365 | one claimed period ends sent, held or left as its outcome says, no other row changed; over the limit it is never sent; under any script it is held only after a call refused for good or with its invoice unfit, left for later only after a call that may be tried again, and no invoice is emailed that was not a draft or open when the pass came to it; left alone it ends exactly as its invoice says, nothing emailed when it is held |
| Ledger.ClaimIsNext | control-plane/enterprise-invoices.ts:389-430 | a claim of the next period, or none when it bills nothing, makes the account's rows the next prefix |
| Ledger.LaterChangeKeepsPrefix | control-plane/enterprise-billing.ts:186-188 | a seat change made later than the prefix's issue times leaves every row what a new reading would claim |
| Ledger.YearInLedger | control-plane/enterprise-invoices.ts:389-430 | the rows of a yearly account's whole contract year come to $20 for each of its seat-months |
| Ledger.MonthInLedger | control-plane/enterprise-invoices.ts:389-430 | each month that a monthly account's rows cover has its row, for $25 for each of the most seats of the month |
| Ledger.YearInvoiced | control-plane/enterprise-invoices.ts:353-387 | and when they are all finalized or sent and none of their invoices was voided, so do the live invoices' subtotals |
| Passes.Watch.Claim | control-plane/enterprise-invoices.ts:389-430 | the row there is, or one new row with the charge of the history read, or none exactly when the period bills nothing |
| Passes.Watch.WorkOff | control-plane/enterprise-invoices.ts:456-477 | the account's due periods in order: the rows stay a prefix, a failed period waits and no later one of the account is come to, and the counts are of what happened |
| Passes.Watch.AccountPass | control-plane/enterprise-invoices.ts:447-498 | an exception in the periods is one more failure, and only the wake-up's own ends the pass; the account wakes soon after a failure, else when its next period is due; it ends with the call that sets its wake-up, unless the process stops first |
| Passes.Watch.Pass | control-plane/enterprise-invoices.ts:433-501 | every point of a pass keeps every account's books and never counts more claims or sends than happened; a pass that ends well, whatever failed on the way, set every account's wake-up, and only a wake-up's own exception ends it early; left alone it finishes every due period of every account, counts exactly the rows claimed, sent and held, and no failure |
| Passes.Watch.ChangeSeats | control-plane/enterprise.ts:475-519 | a seat change that commits within the grace time of its own time keeps the books |
| Passes.Watch.Meanwhile | control-plane/enterprise-invoices.ts:566-638 | an operator's release or record, a payment, a void or an expired key keeps the books |
| Passes.Watch.PersonEdits | control-plane/enterprise-invoices.ts:335-338 | so does a person who edits a draft between passes |
| Passes.Watch.SignUp | control-plane/enterprise.ts:425-449 | an account joins the books with no row |
| Passes.Watch.YearIsExact | control-plane/enterprise-invoices.ts:433-501 | at every point of every run, a contract year that the passes have covered is in the ledger, and once delivered with live invoices is invoiced, for exactly $20 a seat-month |
| Passes.YearIsDue | control-plane/enterprise-billing.ts:242-250 | a year's five periods are due from ten minutes after its end on, and not before |
| EndToEnd.ApplyGoesOn | control-plane/enterprise.ts:425-719 | every seat call leaves every other account alone, keeps plan and contract start, and makes its account's history longer by no more than one change from N to the new N, of a signed account only |
| EndToEnd.GrownIsNext | control-plane/enterprise.ts:475-519 | that change continues the history that the pass reads |
| EndToEnd.BilledIsSound | control-plane/enterprise-invoices.ts:447-454 | what the pass reads of an account that the store keeps sound is a sound history |
| EndToEnd.Service.Call | control-plane/enterprise.ts:425-719 | after every seat call the pass bills exactly the signed standard accounts, each with the store's own history and contract calendar |
| EndToEnd.Service.YearIsBilled | control-plane/enterprise-invoices.ts:433-501 | from no accounts on, at every point of every run of seat calls, passes and others: a covered year of an account is in the ledger, and once delivered invoiced, for exactly $20 for each seat-month of the store's own history |
| EndToEnd.Service.MonthIsBilled | control-plane/enterprise-invoices.ts:433-501 | and a covered month of a monthly account is, for $25 for each of the most seats at any instant of it |
| EndToEnd.Service.RowsArePositive | control-plane/enterprise-ddl.ts:70-80 | over the same runs every row of an account is of more than nothing, as the column demands, and every month and year that the passes covered has its row |
| EndToEnd.Service.Pass | control-plane/enterprise-invoices.ts:433-501 | a pass left alone puts every ended year of every yearly account into the ledger, for exactly that |
| Latch.Store.ArmOnce | control-plane/create-latch.ts:104-163 | the intent's row and the operation's evidence in one transaction, or neither; a fresh unspent permit exactly when they were written, that is when the intent had neither row nor file and the fence held |
| Latch.CreatePermit.Consume | control-plane/create-latch.ts:63-71 | a permit is spent once |
| Latch.Store.SettleOutcome | control-plane/create-coordinator.ts:167-238 | the outcome on the intent, the operation and the asset, or every write rolled back |
| Latch.SettlesWhole | control-plane/create-coordinator.ts:155-238 | a settlement is lost exactly when the row is missing, the fence moved or the box cannot be adopted, and then nothing changed; else the row, the operation's status and evidence and the box say the outcome, and no other row changed |
| Latch.Store.AdoptAsset | control-plane/handlers.ts:1481-1540 | a box another instance holds is refused, a second box for one instance is an exception, a repeat changes nothing |
| Latch.AdoptionKeeps | control-plane/handlers.ts:1475-1540 | no box ever has two instances, no instance a second box; a box is adopted exactly when no other instance holds it and the instance has no other, and that is all that changes |
| Latch.AdoptionRepeats | control-plane/handlers.ts:1475-1480 | adopting again finds it done |
| Latch.Store.MigrateLegacyIntents | control-plane/create-latch.ts:166-243 | the import writes a row for each file that has none, and counts them |
| Latch.ImportForbids | control-plane/create-latch.ts:166-172 | the import only forbids more: rows stay, every file has one, with the state that it reads as, and ambiguous when it does not read |
| Create.SpendsOnlyFromNothing | control-plane/handlers.ts:1228-1275 | from what it read, the handler reaches the paid call exactly with no row for the intent and evidence that is absent or of a box found; it only finds exactly from armed, quarantined, intended and ambiguous states |
| Create.StepKeeps | control-plane/create-coordinator.ts:55-115 | every step of any worker, lease, crash, lost commit or import keeps the latch sound and only ever forbids more |
| Create.RunKeeps | control-plane/create-latch.ts:6-22 | so does every run: rows never disappear, settled rows never return to intended, evidence is never lost, an adopted box never changes |
| Create.AtMostOneCreate | control-plane/create-latch.ts:1-22 | over every run of any number of workers the provider's create is called at most once for an intent, only after its row was committed, and never for one of the old journal |
| Create.SpendsOnlyUnwritten | control-plane/handlers.ts:1228-1275 | over every run, however old its reading, a handler goes on to the paid call exactly when the operation it read had no evidence at all and the intent has no row |
| Create.OnlyFindIsLeft | control-plane/create-coordinator.ts:155-166 | once no stack owns a latched intent, after a crash or a lost fence, nothing ever changes it or calls for it, no handler spends for it, and every handler of an intended or ambiguous one only finds |
| Create.OpenStaysOpen | control-plane/handlers.ts:1300-1320 | over every run an operation fails only over a rejected order and succeeds only with its box adopted; while its intent is open and it says armed or quarantined it does neither, so that an idle worker can take a free lease of it, and then finds |
| Create.AloneCreates | control-plane/create-coordinator.ts:55-115 | left alone from nothing written, a worker calls once, and the answer is on all three records: a box is adopted and the operation has succeeded, a rejection fails it, anything unsure leaves it open |
| Create.AloneFinds | control-plane/handlers.ts:1320-1400 | left alone where a create may have happened, a worker searches, adopts the box that it finds, and else leaves the operation open |
| Create.AloneAdopts | control-plane/handlers.ts:1242-1263 | left alone where the order was bought, a worker adopts its box |
| Create.AloneFails | control-plane/handlers.ts:1264-1270 | left alone where the order was rejected, it fails the operation |
| Create.OnlyTheFenceCanLose | control-plane/create-coordinator.ts:167-238 | a settlement finds its intent as armed: only the operation's fence or the adoption can lose it, and then every write is rolled back |
| Popups.Descendants | browser-extension/background.ts:1916-1929 | the fixpoint loop ends with exactly the popup and its descendants, whatever the tree |
| Popups.FirstChildless | browser-extension/background.ts:1936-1939 | the search for a popup without children never misses |
| Popups.ChildrenFirstOrder | browser-extension/background.ts:1930-1940 | all of them are removed, each before the popup that opened it |
| Popups.RetireTree | browser-extension/background.ts:1914-1952 | the popups that stay keep their order, the retired ones are exactly the descendants, children first |
| Popups.ChainRetires | browser-extension/background.ts:1914-1953 | on a chain, retiring a popup keeps exactly the part before it |
| Popups.GrantTab.OnCreatedNavigationTarget | browser-extension/background.ts:1700-1743 | a popup is taken exactly from the last page of the chain, all of it attached, one at a time, eight at most, and of a tab no grant has; the chain stays one |
| Popups.GrantTab.AttachDone | browser-extension/background.ts:1744-1793 | an attach that finds its popup and its opener still there makes it the leaf; any other changes nothing |
| Popups.GrantTab.AttachFailed | browser-extension/background.ts:1794-1800 | a failed attach takes its own popup off the chain and nothing else |
| Popups.GrantTab.RetireDebugger | browser-extension/background.ts:1904-1955 | the retired popup and those after it go, and the leaf is its opener |
| Grants.Worker.Offer | browser-extension/background.ts:701-741 | an offer is sent only of a tab that no grant or popup has |
| Grants.Worker.OpenTab | browser-extension/background.ts:1288-1313 | a tab an agent opens is a grant from the start, before it has a tab |
| Grants.Worker.TabOpened | browser-extension/background.ts:1313-1320 | it takes the new tab when it is there |
| Grants.Worker.OpenDone | browser-extension/background.ts:1320-1327 | an open succeeds only of a grant that nothing ended |
| Grants.Worker.OpenFailed | browser-extension/background.ts:1327-1336 | an open that fails has not gone on, and leaves no grant and no entry, unless a revoke already ends it |
| Grants.Worker.Offered | browser-extension/background.ts:1589-1616 | the office's yes: ON at once for a resumed or opened tab, after its await for the popup's, with the entry kept |
| Grants.Worker.GoesOn | browser-extension/background.ts:732-741 | the popup's offer goes on only if nothing ended it meanwhile, and no offer that ended before is forgotten |
| Grants.Worker.OfferRefused | browser-extension/background.ts:1611-1616 | a refusal takes the entry and ends the offer, and none that ended before is forgotten |
| Grants.Worker.Revoke | browser-extension/background.ts:910-941 | a revoke ends the grant, its entry and its open offer at once |
| Grants.Worker.PopupTaken | browser-extension/background.ts:1725-1741 | a popup's tab belongs to no other grant |
| Grants.Worker.Close | browser-extension/background.ts:1057-1096 | after a loss exactly the ON offers that can resume, and the resumes still in flight, are kept |
| Grants.Worker.Ready | browser-extension/background.ts:1474-1487 | a new connection sends exactly the kept offers again, with their tabs, and none that is ended |
| Grants.Worker.LoseAndReturn | browser-extension/background.ts:1057-1096 | after a loss and a return exactly the ON offers that are kept or can be, of a pin or an agent, and the resumes in flight are sent again, with their tabs; after a terminal close only the latter |
| Grants.Worker.StopAway | browser-extension/background.ts:685-693 | Off while the office is away ends the offer |
| Grants.Worker.Restart | browser-extension/background.ts:150-201 | after a worker restart an ended offer is back if and only if the first write under way that changes its entry takes it away, and the new worker is sound with what was stored |
| Grants.StoredIffEndPending | browser-extension/background.ts:150-225 | an entry no longer kept is still stored exactly when its end is still to be written |
| Grants.Worker.Take | browser-extension/background.ts:705-741 | every step, of any kind, ends exactly the offers it revokes, refuses or turns off, and sends none that is ended |
| Grants.Worker.Run | browser-extension/background.ts:705-741 | every run keeps the grants sound, and its record says of each step what it ended, sent and brought back |
| Grants.NeverSentAgain | browser-extension/background.ts:856-941 | over every run, an offer ended by Off, a revoke or a refusal is sent on no later connection, unless a restart came between with its end unwritten |
| Grants.OnlyForward | browser-extension/background.ts:856-941 | over any stretch of one connection in any run, a grant only goes offering, on, revoking, keeps its tab, and once gone is not back |
| Grants.Worker.EndedAndSentAgain | browser-extension/background.ts:150-225 | a run where it is: ON and written, revoked, the worker restarted before that was written, and sent again |
| Grants.Worker.Released | browser-extension/background.ts:931-939 | a revoked grant is gone once its debugger is detached |
| Grants.Worker.PopupsGone | browser-extension/background.ts:1930-1952 | retired popups leave their grant and no other |
| Grants.Worker.ClearResumable | browser-extension/background.ts:260-266 | disconnect, pairing and unpairing forget every kept offer |
| Grants.Worker.Written | browser-extension/background.ts:218-225 | the list is written in the order it changed |
| Grants.OneMoved | browser-extension/background.ts:705-741 | one grant's step keeps every tab in one grant, every entry a live grant with its tab, and every ended offer ended |
| Browser.Browser.TakeStep | browser-extension/background.ts:705-741 | a step of the worker keeps the chain of every grant that stays, and begins one for a grant that gets its tab |
| Browser.Browser.PopupOpens | browser-extension/background.ts:1700-1743 | a grant takes a popup exactly when no grant has the tab, the grant is ON, its popups are all attached and fewer than eight, none is attaching, and the page is the last of its chain, with its target if that is its own; and no other grant changes |
| Browser.Browser.PopupOfAPopup | browser-extension/background.ts:1700-1743 | a run in which a popup of a popup is taken |
| Browser.Browser.OneWouldTake | browser-extension/background.ts:1710-1724 | which one would is no matter of order: at most one grant has the page as its leaf |
| Browser.Browser.AttachEnds | browser-extension/background.ts:1744-1800 | an attach that found its target makes the popup the leaf exactly when its grant is ON and still has it; else the popup leaves the chain and the grant |
| Browser.Browser.Retires | browser-extension/background.ts:1904-1955 | a retired popup and those after it leave the chain and the grant, children first |
| Browser.Browser.IsOneChain | browser-extension/background.ts:1700-1955 | at every point of every run a grant's popups are one chain of eight at most from its own tab to its leaf, with one more attaching there at most |
| Browser.Browser.OnePlace | browser-extension/background.ts:1725-1732 | and a browser tab is in one place of one chain, and no popup is a grant's own tab |
| Limiter.RateLimiter.Limit | api/chat.ts:85-97 | the verdict and the reported fields are those of a limiter that keeps every hit forever, and at most 20 are stored |
| Limiter.RoomIff | api/chat.ts:70-83 | there is room exactly while fewer than five requests were accepted in the last minute and twenty in the last hour, and the fields are what is left and the seconds, rounded up, until a window's oldest leaves it |
| Limiter.RateLimiter.ForgetStale | api/chat.ts:48-54 | the sweep drops only addresses that no window counts, and when it runs, all of them |
| Limiter.NeverMoreThanQuota | api/chat.ts:31-37 | in any stretch as long as a window, wherever it starts, at most its quota is accepted |
| Limiter.WindowHoldsQuota | api/chat.ts:70-83 | a window never counts more than its quota |
| Limiter.RetryIsLeast | api/chat.ts:99-105 | the retry time is the least whole number of seconds after which the next request is accepted |
| Limiter.SameVerdict | api/chat.ts:85-97 | pruned hits give the same quotas and verdict |
| Posts.CutOf | api/chat.ts:415-428 | a cut is in the second half of the budget, before the last line break or space there and the whitespace in front of it, and never inside a surrogate pair |
| Posts.BreakIs | api/chat.ts:415-424 | the break is the last newline of the budget's second half, else the last space of it, else the end, one unit less after a high surrogate |
| Posts.GoodCutIsUnique | api/chat.ts:415-428 | a text has one such cut |
| Posts.UnderHalfIff | api/chat.ts:425-428 | a part is under half the budget if and only if the budget is odd and the text from the middle to its break is whitespace |
| Posts.HalfIffEven | api/chat.ts:415-428 | every part of every text takes half the budget if and only if the budget is even; spaces alone show it for each odd one |
| Posts.BotPosts | api/chat.ts:408-434 | the parts joined are the text, each but the last a good cut of what was left, each post its numbered header and its part |
| Posts.HeaderReads | api/chat.ts:430-434 | a header names the site, the conversation, the part and the number of parts |
| Posts.DigitsRead | api/chat.ts:430-434 | numbers are written in decimal |
| Posts.PostsFit | api/chat.ts:404-434 | at most one post more than half budgets in the text, and with up to 99 of them none longer than 2000 units |
| Posts.PostOverIff | api/chat.ts:408-434 | with any number of them a post is longer exactly when its part and its two numbers take more than the budget and four digits; a full part from the tenth post on of a hundred or more does |
| Posts.HundredPosts | api/chat.ts:408-434 | of letters alone, one more than ninety-nine budgets make a hundred posts, and the tenth is too long |
| Posts.TagLeavesBudget | api/chat.ts:391-399 | a conversation's tag leaves 1922 units or more, so the cutting ends |
| Stream.ParseStream | api/chat.ts:438-467 | the payloads are those of the joined text up to its last newline, and the buffer holds no newline between reads |
| Stream.EventsAreDataLines | api/chat.ts:451-464 | of a text of lines: what its data lines carry, in order, and nothing of what follows the last newline |
| Stream.DataLine | api/chat.ts:455-464 | a data line carries its text without the whitespace around it, unless that is nothing, the end mark, or does not parse |
| Stream.OtherLine | api/chat.ts:455-458 | any other line carries nothing, and the carriage return at a line's end is not of it |
| Stream.InTwoPieces | api/chat.ts:449-454 | reading a text in two pieces cut anywhere yields what reading it whole does |
| Stream.ChunksDoNotMatter | api/chat.ts:438-467 | two chunkings of one text, and an unfinished last line, make no difference |
| Renewal.CertificateService.Take | control-plane/certificate-service.ts:193-207 | the slot is taken only when free, and an office is turned away exactly for ten times its last hold, or twenty seconds, after it |
| Renewal.CertificateService.Release | control-plane/certificate-service.ts:237-252 | the office waits ten times its hold or the floor, and only cooldowns that are over are dropped |
| Renewal.CertificateService.TakeReap | control-plane/certificate-service.ts:126-135 | a reap takes the slot only when it is free |
| Renewal.CertificateService.ReleaseReap | control-plane/certificate-service.ts:126-135 | and gives it back without a cooldown |
| Renewal.CertificateService.Prune | control-plane/certificate-service.ts:239-240 | exactly the cooldowns that are over are dropped |
| Renewal.ElevenTimes | control-plane/certificate-service.ts:240-251 | over any consecutive holds of an office, eleven times what they kept the slot, all but the last, fits between the first take and the last |
| Renewal.CertificateService.Fair | control-plane/certificate-service.ts:193-253 | so at every point of every run |
| DriveLoop.Drive.Poke | control-plane/drive-loop.ts:37-41 | a signal is latched, and lets a waiting loop go on |
| DriveLoop.Drive.Wait | control-plane/drive-loop.ts:52-65 | the wait is over at once when a signal is latched, else with the signal or the time |
| DriveLoop.Drive.RunPasses | control-plane/drive-loop.ts:142-176 | passes start at once, and what follows them ends no sooner than the active interval |
| DriveLoop.Drive.WaitForWork | control-plane/drive-loop.ts:177-190 | with nothing due and no signal the loop waits the source's delay and no less than the active interval |
| DriveLoop.DelayMeetsDue | control-plane/drive-loop.ts:178-187 | the delay is within the two intervals, and meets the next due time exactly when that is |
| DriveLoop.Drive.Iterate | control-plane/drive-loop.ts:129-190 | a turn with a latched signal starts the ticker's pass after it; a signal that no pass followed is still latched; a turn without one takes at least the active interval |
| DriveLoop.Drive.DriveTicks | control-plane/drive-loop.ts:129-193 | every signal from before the last turn that the loop began is followed by a pass, also when that turn stops it, and two passes never start closer than the active interval |
| Dns.CloudflareDns.WriteIntent | control-plane/cloudflare-dns.ts:83-102 | a journal file is the old one or the whole new one at every point |
| Dns.CloudflareDns.Present | control-plane/cloudflare-dns.ts:306-338 | at every point where it can stop, it leaves no record made here without a readable file that had one, however many records the name has; it adopts what the list shows of the value and else makes one |
| Dns.CloudflareDns.Cleanup | control-plane/cloudflare-dns.ts:340-354 | the file goes only after every record that the list shows is deleted; what is then left of the value and was made here, the list did not show |
| Dns.CloudflareDns.ReapOrphans | control-plane/cloudflare-dns.ts:356-393 | a reap without failures is the fold of its cleanups, and takes the old half-written files; in every run no younger file goes, and a record loses its file only when a list did not show it |
| Dns.ShowsAllIff | control-plane/cloudflare-dns.ts:182-190 | a listing shows every record of a value if and only if none of them is past the first hundred of its name |
| Dns.CleanupIff | control-plane/cloudflare-dns.ts:340-354 | a cleanup leaves every record made here with its file if and only if the list shows all those of its value |
| Dns.CleanupIsExact | control-plane/cloudflare-dns.ts:345-352 | a cleanup deletes exactly the value's records if and only if the list shows all of them |
| Dns.CloudflareDns.CleanupLosesOne | control-plane/cloudflare-dns.ts:306-354 | a run that leaves one behind: a hundred other values at the name, one presented and cleaned up |
| Dns.ReapLeaves | control-plane/cloudflare-dns.ts:356-393 | a reap leaves the records of values it does not reap and those its lists missed, and the files that are not old or not listed |
| Dns.ReapsIff | control-plane/cloudflare-dns.ts:366-388 | a file is reaped when the directory lists it, it reads, and it is as old as asked |
| Dns.ReapIff | control-plane/cloudflare-dns.ts:356-393 | so it is exact if and only if its lists miss nothing, and loses no record's file if and only if they miss nothing made here |
| Dns.FittingNamesMissNone | control-plane/cloudflare-dns.ts:182-190 | which they do not while each name's records fit one page |

## Left out

- Instants beyond the range of a JavaScript date (8.64e15 ms), where the date
  functions answer NaN.
- The text of period ids: m5, y0 and y1q2 are constructors, so that the patterns which
  read them back are not modelled.
- The lines of an invoice's description and all date formatting; only amounts matter.
- Invoices.Provisioner.InvoiceFor: answers of Stripe that do not have the fields of an
  invoice are not modelled; they count as lost.
- Passes.Watch.Claim: the branch for a row that another pass inserted meanwhile cannot
  run, as one pass runs at a time.
- Passes.Watch.Pass: the history is read once for each account, so a seat change that
  commits during an account's turn counts after it; `Settled.LaterChangesNeverMatter`
  is why that makes no difference.
- The customer portal's configurations and sessions, and the operator's list of held
  periods.
- Negotiated accounts' prices: the pass skips them; only their seats are modelled.
- Seats.OldSecretIsDead: a secret is its account and generation; the MAC over them is
  taken to be unforgeable.
- Validation of names, emails, titles and the signing box, audit rows, SQL, pools,
  roles and migrations: a store is a record of rows with atomic transactions.
- Create.StepKeeps: the time limits on remote work, deadlines beyond their version
  bump, attention rows, and operations of other kinds. The run record that names a
  box is a reason for a settlement or an adoption to fail, not a state of its own.
- The SSH and box handlers, the driver, the CLIs, cancel, incidents, access and liveness.
- Grants.Worker.Close: badges, mute and sound, windows, debugger sessions and the
  closing of agent tabs; a debugger that is recovered keeps its place in the chain, so
  recovery is not a step here.
- Popups.GrantTab.AttachDone: the awaits between the attach's commands are one step, as
  each ends in the same check. An attach that outlives its grant ends by itself.
- Dns.CloudflareDns.ReapOrphans: how many files it counts as unreadable, and the process
  id in a half-written file's name. The office's A records: a list, one
  batch and a list again.
- Stream.ParseStream: the decoder's carry of a character cut in two; chunks are decoded
  text. JSON parsing is a parameter.
- Limiter.RateLimiter.Limit: the header fields are the quotas, not their text.
- Renewal.CertificateService.Release: what the issuer, the reap and the attention calls
  do inside a hold.
- DriveLoop.Drive.DriveTicks: a pass that throws ends the loop as a stop does; what
  the scheduling query reads is a parameter of each turn.
