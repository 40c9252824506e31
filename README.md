# moveo-connect subscriptions, modelled in Dafny

This project models the subscription state machine of the moveo-connect CRM for
senior-move managers. The `subscriptions` table holds at most one row per
user: a free trial without Stripe ids, or a paid plan linked to a Stripe
customer and subscription. Four edge functions change that table or
the `profiles` table, and a fifth only reads it:

- `stripe-webhooks` applies Stripe's subscription and invoice events;
- `verify-checkout-session` records a paid checkout for the signed-in user;
- `cancel-subscription` cancels a paid subscription at period end;
- `change-subscription` opens a checkout for a new price (it only reads the table);
- `create-checkout-session` links the user to a Stripe customer and opens a checkout.

On the browser side the model covers these pieces:

- the cancel and upgrade actions of the settings page;
- the free-trial button;
- the active-subscription query;
- the rule that decides which buttons show;
- the add-client form;
- the dashboard's counts and short lists.

Module layout:

- `Subscriptions` is the row, its plans and statuses, and the column patches.
- `Store` is the table's queries as functions over a sequence of rows. It also has the class `SubscriptionTable`, whose methods update the rows in place.
- `Stripe` holds the provider's objects, and `Auth` the caller check.
- There is one module per edge function, and one per client file.

Each handler that writes a table is a method. It calls the methods of the table it writes, `SubscriptionTable` or, in create-checkout-session, `ProfileTable`, and is proved against a function of the old rows. `ChangeSubscription.Change` only reads, so it is a function. The properties are lemmas about those functions.

Things outside the system are parameters of the handlers:

- what Stripe returns, as a `Call` that either throws or returns a value;
- what `getUser` resolves to;
- whether a signature or an email is well formed;
- whether a store call fails;
- the clock.

Every timestamp is in milliseconds. Stripe's periods are in seconds, so they are multiplied by 1000.

Behaviour of the code worth noting:

- `verify-checkout-session` computes the period from the current time. It does not take the period from Stripe.
- `cancel-subscription` writes only `status` and `updated_at`. It leaves `end_date` alone, although Stripe returns `cancel_at`. The handler returns `cancel_at` × 1000 to the caller.
- `cancel-subscription` ignores a failed local write after Stripe succeeded.
- A store or Stripe error inside a webhook handler is logged, and the endpoint still answers 200, because every handler catches its own errors.
- `subscription.updated` finds its row only by `stripe_subscription_id`, with `maybeSingle`. There is no fallback to the customer id.
- The free-trial button inserts a row without looking at the rows the user already has. The upserts name `user_id` as their conflict target, which needs a unique key on that column. Under that key the insert fails for a user who already has a row, even a canceled one, and the button shows an error. The model's table keeps this key as part of its invariant.

Two lines of the source do not do what they evidently mean to do. Both are listed under "## Findings" and proved in both forms:

- `subscription.created` never finds the customer's user. `StripeWebhooks.CreatedAsWrittenNeverWrites` proves the code as written.
- `verify-checkout-session` stores "[object Object]" instead of the Stripe ids. `VerifyCheckoutSession.VerifyAsWrittenUnreachable` proves the code as written.

In both cases the handler methods (`StripeWebhooks.HandleSubscriptionCreated`, `StripeWebhooks.HandleWebhook`, `VerifyCheckoutSession.HandleVerify`) use the corrected reading.

## Model

| member | source | states |
|---|---|---|
| Subscriptions.LastWriteWins | supabase/functions/stripe-webhooks/index.ts:184-194 | an update writes absolute column values, so a later update that writes every column of an earlier one leaves the row as if the earlier one never ran |
| Subscriptions.PayloadWritten | supabase/functions/stripe-webhooks/index.ts:130-143 | the row an insert creates and the row an upsert merges into both hold every column the payload supplies |
| Store.UpdateWhereSpec | supabase/functions/stripe-webhooks/index.ts:210-216 | `update().eq()` keeps the number and order of rows, patches exactly the rows the filter selects and leaves every other row unchanged |
| Store.UpdateTwiceLastWins | supabase/functions/stripe-webhooks/index.ts:268-274 | delivering an update twice, or following it with one that writes a superset of its columns, ends as the later update alone |
| Store.Select | supabase/functions/stripe-webhooks/index.ts:159-168 | `single`/`maybeSingle` yield no row exactly when the filter selects none, the selected row when it selects exactly one, and an error when it selects more |
| Store.UpsertedSpec | supabase/functions/verify-checkout-session/index.ts:102-118 | after an upsert on `user_id` the user has a row holding the payload; a user with at most one row has exactly one; every row of another user is unchanged |
| Store.UpsertIdempotent | supabase/functions/verify-checkout-session/index.ts:102-118 | running the same upsert twice leaves the table as one run does, whatever id and clock the second run has |
| Store.Upserted | supabase/functions/verify-checkout-session/index.ts:102-118 | an upsert keeps every old row in place with its id and owner; it adds a row exactly when the user had none, and that row is the user's; what the rows hold is `Store.UpsertedSpec` |
| Store.AtMostOneById | src/hooks/useSubscriptionActions.tsx:19-25 | with distinct local ids, an update filtered by `id` selects at most one row |
| Store.SubscriptionTable.FindActiveByUser | src/hooks/useSubscription.tsx:21-26 | `maybeSingle` on the user's active rows: no row exactly when there is none, that row exactly when there is one (and it is the user's and active), and an error exactly when there are several |
| Store.SubscriptionTable.UpsertByUser | supabase/functions/verify-checkout-session/index.ts:102-126 | the rows become the upsert of the old rows, or stay unchanged and report failure when the store call fails |
| Store.SubscriptionTable.UpdateWhereStripeSubId | supabase/functions/cancel-subscription/index.ts:89-100 | the rows become the old rows with every row of that Stripe subscription patched, or stay unchanged on failure |
| Store.SubscriptionTable.UpdateById | src/hooks/useSubscriptionActions.tsx:19-25 | the row with that id is patched and no other row changes, or nothing changes on failure |
| Store.Inserted | src/components/subscription/FreeTrialButton.tsx:25-33 | under the unique key on `user_id` an insert is accepted exactly when the user has no row |
| Store.InsertedSpec | src/components/subscription/FreeTrialButton.tsx:25-33 | an accepted insert keeps the old rows in place, appends the new row and leaves the user exactly one row, so the key still holds; a refused one means the user had a row |
| Store.OneRowPerUser | supabase/functions/verify-checkout-session/index.ts:115-117 | under the unique key that the upsert's conflict target needs, a user has at most one row |
| Store.SubscriptionTable.Insert | src/components/subscription/FreeTrialButton.tsx:25-33 | the insert succeeds exactly when the call does not fail and the unique key accepts it; then the rows are the accepted insert, otherwise unchanged |
| Auth.Authenticate | supabase/functions/verify-checkout-session/index.ts:34-51 | there is a caller exactly when the authorization header is present and non-empty and `getUser` resolves to a user, and then it is that user |
| Seqs.Filter | src/pages/Dashboard.tsx:34-36 | a filtered list holds each element that passes the test exactly as many times as the list does, and no other element |
| Seqs.FilterOrdered | src/pages/Dashboard.tsx:143-145 | filtering keeps the order of the elements it keeps |
| Seqs.Utf16Length | src/pages/AddClient.tsx:20-29 | a string's JavaScript length lies between its character count and twice that, and equals the character count when no character is above U+FFFF; the exact count is `Seqs.Utf16LengthCounts` |
| Seqs.Utf16LengthCounts | src/pages/AddClient.tsx:20-29 | the JavaScript length is the character count plus one for every character above U+FFFF, which UTF-16 writes as a surrogate pair |
| Seqs.Take | src/pages/Dashboard.tsx:110 | `slice(0, n)` is the first `min(n, length)` elements |
| StripeWebhooks.MapStripeStatus | supabase/functions/stripe-webhooks/index.ts:285-300 | canceled and incomplete_expired map to canceled; past_due, incomplete and unpaid map to past_due; every other status, unknown ones included, maps to active |
| StripeWebhooks.PlanForCreated | supabase/functions/stripe-webhooks/index.ts:121-127 | the created row is annual exactly when the price id contains "annual", and is never free |
| StripeWebhooks.PlanForUpdated | supabase/functions/stripe-webhooks/index.ts:174-181 | without a price id the row keeps its plan; a price id containing "annual" gives the annual plan; an update never moves a row onto the free plan |
| StripeWebhooks.RealPricesNameNoPlan | src/components/subscription/constants.ts:4-5 | neither real price id contains "annual" or "monthly" |
| StripeWebhooks.CreatedPlanIsMonthlyForRealPrices | supabase/functions/stripe-webhooks/index.ts:121-127 | with either real price, the annual one included, `subscription.created` records the monthly plan |
| StripeWebhooks.UpdatedPlanUnchangedForRealPrices | supabase/functions/stripe-webhooks/index.ts:174-181 | with either real price, `subscription.updated` keeps the row's plan |
| StripeWebhooks.PlanForUpdatedIdempotent | supabase/functions/stripe-webhooks/index.ts:174-181 | deriving the plan again from the same price id changes nothing |
| StripeWebhooks.Dispatch | supabase/functions/stripe-webhooks/index.ts:65-88 | each of the five event types runs its own handler, and any other type is only logged |
| StripeWebhooks.CreatedUserId | supabase/functions/stripe-webhooks/index.ts:110-113 | the user id read as intended is present exactly when the customer's metadata holds `supabase_user_id`, and is that value |
| StripeWebhooks.CreatedUserIdAsWritten | supabase/functions/stripe-webhooks/index.ts:110-113 | as written, the user id read off the retrieved customer is never present, and differs from the intended one whenever the customer is linked to a user |
| StripeWebhooks.UpdatedEffectSpec | supabase/functions/stripe-webhooks/index.ts:154-202 | `subscription.updated` changes nothing unless exactly one row holds the subscription; that row takes the mapped status, the period in milliseconds, the price and the derived plan, and no other row changes |
| StripeWebhooks.AnnualPriceUpdateKeepsPlans | supabase/functions/stripe-webhooks/index.ts:174-194 | an update to the real annual price leaves the plan of every row as it was |
| StripeWebhooks.StatusEventsSpec | supabase/functions/stripe-webhooks/index.ts:205-282 | deleted cancels exactly that subscription's rows; payment_failed marks them past_due; payment_succeeded makes them active until the retrieved period end; an invoice without a subscription changes nothing; other rows are untouched |
| StripeWebhooks.RedeliveryLastWins | supabase/functions/stripe-webhooks/index.ts:154-282 | delivering an updated, deleted, succeeded or failed event twice leaves the table as the second delivery alone would |
| StripeWebhooks.CreatedRedelivery | supabase/functions/stripe-webhooks/index.ts:130-143 | delivering `subscription.created` twice leaves the table as one delivery does |
| StripeWebhooks.FailedThenRecovered | supabase/functions/stripe-webhooks/index.ts:227-282 | a failed payment marks the subscription past_due; a later successful payment makes it active again until the new period end; other subscriptions' rows are untouched |
| StripeWebhooks.CreatedAsWrittenNeverWrites | supabase/functions/stripe-webhooks/index.ts:110-118 | as written, `subscription.created` leaves the table unchanged for every customer |
| StripeWebhooks.CreatedAsWrittenDropsLinkedCustomer | supabase/functions/stripe-webhooks/index.ts:110-118 | for customer cus_1 linked to user U1, as written the empty table stays empty, while the intended reading gives U1 a row |
| StripeWebhooks.CreatedLinksCustomerUser | supabase/functions/stripe-webhooks/index.ts:113-143 | read as intended, the customer's user then has a row holding the subscription's id, customer, status and period |
| StripeWebhooks.CreatedEffect | supabase/functions/stripe-webhooks/index.ts:113-147 | `subscription.created` loses no row and hands none to another user; only the customer's user's rows change, and a row it adds is that user's; without a user id or on a store error nothing changes |
| StripeWebhooks.UpdatedEffect | supabase/functions/stripe-webhooks/index.ts:159-194 | `subscription.updated` keeps the number of rows and their ids and owners, and changes no row of another subscription; the values written are `StripeWebhooks.UpdatedEffectSpec` |
| StripeWebhooks.DeletedEffect | supabase/functions/stripe-webhooks/index.ts:210-216 | `subscription.deleted` makes exactly that subscription's rows canceled, and every row keeps its plan, end date, id and owner |
| StripeWebhooks.SucceededEffect | supabase/functions/stripe-webhooks/index.ts:231-247 | `invoice.payment_succeeded` changes only the rows of the invoice's subscription, and only towards active; no row changes plan, id or owner |
| StripeWebhooks.FailedEffect | supabase/functions/stripe-webhooks/index.ts:262-274 | `invoice.payment_failed` makes exactly the invoice's subscription's rows past_due, and every row keeps its plan, end date, id and owner |
| StripeWebhooks.EventEffect | supabase/functions/stripe-webhooks/index.ts:65-83 | no event deletes a row or hands it to another user; only `subscription.created` can add a row, at most one; an unhandled event type changes nothing |
| StripeWebhooks.HandleSubscriptionCreated | supabase/functions/stripe-webhooks/index.ts:102-151 | retrieves the customer, then the rows become the created-event effect of the old rows, with the user id read as intended (the code as written is `StripeWebhooks.CreatedAsWrittenNeverWrites`) |
| StripeWebhooks.HandleSubscriptionUpdated | supabase/functions/stripe-webhooks/index.ts:154-202 | the rows become the updated-event effect of the old rows |
| StripeWebhooks.HandleSubscriptionDeleted | supabase/functions/stripe-webhooks/index.ts:205-224 | the rows become the deleted-event effect of the old rows |
| StripeWebhooks.HandlePaymentSucceeded | supabase/functions/stripe-webhooks/index.ts:227-255 | retrieves the subscription only when the invoice names one, and the rows become the succeeded-event effect |
| StripeWebhooks.HandlePaymentFailed | supabase/functions/stripe-webhooks/index.ts:258-282 | the rows become the failed-event effect of the old rows |
| StripeWebhooks.HandleWebhook | supabase/functions/stripe-webhooks/index.ts:35-99 | without a signature or with a body that fails verification it answers 400 and changes nothing; otherwise it answers 200 and applies the event's effect, with `subscription.created` read as intended (as written it never writes, `StripeWebhooks.CreatedAsWrittenNeverWrites`) |
| VerifyCheckoutSession.Screen | supabase/functions/verify-checkout-session/index.ts:34-94 | 401 without a caller, 400 without a session id, 500 when the retrieval throws, 400 when the session is unpaid, 403 when it belongs to another user, and admission exactly otherwise |
| VerifyCheckoutSession.SessionPlan | supabase/functions/verify-checkout-session/index.ts:97 | the recorded plan is the session's `plan_type`, or monthly when it has none |
| VerifyCheckoutSession.PeriodEnd | supabase/functions/verify-checkout-session/index.ts:108-111 | the period ends 365 days after now for annual and 30 days after now otherwise |
| VerifyCheckoutSession.VerifyValues | supabase/functions/verify-checkout-session/index.ts:101-118 | the intended payload is active, starts now, has the session's plan and period end, and carries the ids of the expanded subscription and customer |
| VerifyCheckoutSession.VerifyValuesAsWritten | supabase/functions/verify-checkout-session/index.ts:98-112 | as written, the payload agrees with the intended one on every column but the two Stripe ids, which hold "[object Object]" whenever the session has a customer or a subscription |
| VerifyCheckoutSession.HandleVerify | supabase/functions/verify-checkout-session/index.ts:32-144 | a refused request changes nothing; an admitted one upserts the payload with the real Stripe ids (the code as written stores "[object Object]", `VerifyCheckoutSession.VerifyAsWrittenUnreachable`) and answers 200 with the plan, or 500 when the store fails |
| VerifyCheckoutSession.VerifiedRowActive | supabase/functions/verify-checkout-session/index.ts:102-118 | after verification every row of the user is active with the session's plan, and a user with at most one row has exactly one |
| VerifyCheckoutSession.VerifyTwiceKeepsOneRow | supabase/functions/verify-checkout-session/index.ts:102-118 | verifying the same session twice leaves the user one row, with the dates of the second verification |
| VerifyCheckoutSession.VerifyAsWrittenUnreachable | supabase/functions/verify-checkout-session/index.ts:98-113 | as written, a later failed payment for the real subscription id does not reach the verified row |
| VerifyCheckoutSession.VerifyReachable | supabase/functions/verify-checkout-session/index.ts:98-113 | with the ids written, a failed payment for the session's subscription marks the verified row past_due |
| VerifyCheckoutSession.VerifyFindingWitness | supabase/functions/verify-checkout-session/index.ts:98-112 | for user U1 and subscription sub_1 on an empty table, the row written as written stays active after the failed payment, while the intended row becomes past_due |
| CancelSubscription.Screen | supabase/functions/cancel-subscription/index.ts:34-79 | 401 without a caller, 400 without a subscription id, 403 unless the ownership query finds exactly one row of the caller with that Stripe id, and admission exactly otherwise |
| CancelSubscription.CanceledRows | supabase/functions/cancel-subscription/index.ts:89-95 | the local write keeps the rows, their ids and owners, makes exactly that subscription's rows canceled and leaves every `end_date` as it was |
| CancelSubscription.CanceledRowsSpec | supabase/functions/cancel-subscription/index.ts:89-95 | canceling touches only that subscription's rows, which become canceled and keep their `end_date` |
| CancelSubscription.CanceledNotActive | supabase/functions/cancel-subscription/index.ts:89-95 | after a cancel, no row of that subscription is active and the user's number of rows is unchanged |
| CancelSubscription.HandleCancel | supabase/functions/cancel-subscription/index.ts:32-113 | a refused request or a Stripe error changes nothing; otherwise it asks Stripe to cancel at period end, marks the rows canceled and answers 200 with `cancel_at` in milliseconds |
| Wrappers.Interpolate | supabase/functions/change-subscription/index.ts:97-98 | a string interpolates as itself; a missing header (null) prints as "null" and a missing request field (undefined, as in create-checkout-session's success URL) as "undefined" |
| ChangeSubscription.ChangeParams | supabase/functions/change-subscription/index.ts:82-111 | the session is for the row's customer and the new price, with the request's URLs or ones under the origin header, and carries the subscription being changed and the upgrade metadata |
| ChangeSubscription.Change | supabase/functions/change-subscription/index.ts:34-120 | 401 without a caller, 400 without either id, 403 unless the caller holds exactly one row with that Stripe id; a session is created exactly then, and the answer is 200 with its URL, or 500 when Stripe throws |
| ChangeSubscription.ChangeOnlyOwnSubscription | supabase/functions/change-subscription/index.ts:65-85 | a session is created only for a caller who holds exactly one row with that subscription id, and it carries that row's customer |
| CreateCheckoutSession.StoredCustomer | supabase/functions/create-checkout-session/index.ts:59-65 | the stored customer is absent when the read fails or there is no profile row, and is otherwise the row's column |
| CreateCheckoutSession.Linked | supabase/functions/create-checkout-session/index.ts:80-83 | linking writes the customer into the user's profile row when it exists and changes no other row |
| CreateCheckoutSession.NewCustomer | supabase/functions/create-checkout-session/index.ts:70-75 | a new customer gets the request's email or else the account's, and the user id in its metadata |
| CreateCheckoutSession.CheckoutParams | supabase/functions/create-checkout-session/index.ts:91-105 | the session is for that customer and the requested price, its success URL ends in the session-id placeholder, and its metadata holds the user id and, when given, the plan |
| CreateCheckoutSession.ProfileTable.LinkCustomer | supabase/functions/create-checkout-session/index.ts:80-83 | the profiles become the linked profiles, or stay unchanged when the update fails |
| CreateCheckoutSession.HandleCreateCheckout | supabase/functions/create-checkout-session/index.ts:32-125 | 401 without a caller; a customer is created only when none is stored, then linked; a session is opened for it and 200 returns its URL, or 500 when Stripe throws |
| CreateCheckoutSession.SecondCheckoutReusesCustomer | supabase/functions/create-checkout-session/index.ts:58-88 | once a user with a profile row is linked, the next checkout reads that customer back and creates no second customer |
| CreateCheckoutSession.NoProfileNoLink | supabase/functions/create-checkout-session/index.ts:59-83 | a user without a profile row is never linked, so every checkout creates a new customer |
| SubscriptionActionsHook.CancelSteps | src/hooks/useSubscriptionActions.tsx:13-55 | a free row is canceled in the table without calling an edge function; a paid row is canceled through `cancel-subscription`; the page reloads only on success |
| SubscriptionActionsHook.CancelWrite | src/hooks/useSubscriptionActions.tsx:18-27 | the browser writes only for a free row, only to the row with that id, and keeps every row's id and owner; a paid row leaves the table to `cancel-subscription` |
| SubscriptionActionsHook.CancelWriteSpec | src/hooks/useSubscriptionActions.tsx:18-32 | canceling a free trial cancels that one row and leaves every other row unchanged |
| SubscriptionActionsHook.UpgradeSteps | src/hooks/useSubscriptionActions.tsx:57-107 | an annual row stops at an info toast; without a user there is an error; a free row goes to /subscribe; a monthly row asks `change-subscription` for the annual price and follows the returned URL |
| SubscriptionActionsHook.ActionsHook.HandleCancel | src/hooks/useSubscriptionActions.tsx:13-55 | records the cancel steps, applies the cancel write to the table and ends with `isLoading` false |
| SubscriptionActionsHook.ActionsHook.HandleUpgrade | src/hooks/useSubscriptionActions.tsx:57-107 | records the upgrade steps and ends with `isLoading` false |
| FreeTrial.TrialValues | src/components/subscription/FreeTrialButton.tsx:27-33 | the trial row is free and active, starts now, ends 14 days later and has no Stripe ids |
| FreeTrial.TrialSteps | src/components/subscription/FreeTrialButton.tsx:17-42 | success and the move home happen exactly when there is a user and the insert succeeds; an error toast appears otherwise |
| FreeTrial.FreeTrialButton.HandleFreeTrial | src/components/subscription/FreeTrialButton.tsx:12-49 | adds the trial row when there is a user, the call does not fail and the user has no row; otherwise changes nothing and shows an error; ends with `isProcessing` false |
| FreeTrial.TrialOnlyForNewUsers | src/components/subscription/FreeTrialButton.tsx:25-33 | the trial insert is refused exactly when the user already has a row, even a canceled one; otherwise the trial row becomes the user's one active row, the one the settings page finds |
| UseSubscription.QuerySubscription | src/hooks/useSubscription.tsx:13-34 | signed out without a user; an error when the query fails or the user has several active rows; otherwise the user's active row, or none exactly when there is none |
| UseSubscription.QueryMatchesTable | src/hooks/useSubscription.tsx:21-33 | the query yields what the table's active-row lookup finds |
| SubscriptionButtons.UpgradeLabel | src/components/subscription/SubscriptionActions.tsx:37 | the label offers a paid plan exactly for a free row and the annual plan otherwise |
| SubscriptionButtons.IsActiveSubscription | src/components/subscription/SubscriptionActions.tsx:24 | defined by its body; specified by `SubscriptionButtons.ButtonVisibility` |
| SubscriptionButtons.ShowUpgradeButton | src/components/subscription/SubscriptionActions.tsx:25 | defined by its body; specified by `SubscriptionButtons.ButtonVisibility` |
| SubscriptionButtons.ShowCancelButton | src/components/subscription/SubscriptionActions.tsx:26 | defined by its body; specified by `SubscriptionButtons.ButtonVisibility` |
| SubscriptionButtons.ButtonVisibility | src/components/subscription/SubscriptionActions.tsx:24-26 | cancel shows exactly for active rows; upgrade shows exactly for active free or monthly rows, so never without cancel |
| AddClient.Invalid | src/pages/AddClient.tsx:20-29 | each field is rejected exactly when its JavaScript length (UTF-16 units) is below its minimum, or, for the email, when it is malformed |
| AddClient.ValidIff | src/pages/AddClient.tsx:20-29 | the form passes exactly when every field meets its minimum and the email is well formed |
| AddClient.AstralNamePasses | src/pages/AddClient.tsx:21 | a first name made of one emoji has JavaScript length 2 and passes the two-character minimum |
| AddClient.NewClient | src/pages/AddClient.tsx:62-70 | the client row carries the form's names, contact data, current address and notes, for the signed-in user |
| AddClient.NewMove | src/pages/AddClient.tsx:79-105 | the move goes from the current address to the new one, starts at the move date, ends a day later, and is residential, pending and titled after the client |
| AddClient.ClientIdOf | src/pages/AddClient.tsx:84-90 | the lookup finds an id exactly when one client of the user has that name, and then it is that client's id |
| AddClient.SameNameUnlinked | src/pages/AddClient.tsx:84-90 | a second client of the same name makes the lookup fail, so that client's move is stored without a client |
| AddClient.FreshNameLinked | src/pages/AddClient.tsx:84-90 | a client whose name is new for the user is found, so the move is linked to them |
| AddClient.ClientBook.Submit | src/pages/AddClient.tsx:51-113 | the client is inserted when there is a user and no insert error; the move follows only with a valid date and no move error; navigation happens exactly when both rows are in |
| Dashboard.LengthOrZero | src/pages/Dashboard.tsx:34 | a missing list counts zero and a present one its length |
| Dashboard.ComputeStats | src/pages/Dashboard.tsx:33-37 | the counts are the clients, the moves after now and the completed moves, each move count bounded by the number of moves |
| Dashboard.FetchDashboardData | src/pages/Dashboard.tsx:10-39 | either query error makes the fetch fail; otherwise it returns both lists and their counts |
| Dashboard.RecentActivities | src/pages/Dashboard.tsx:110 | recent activities are the first `min(3, n)` of the `n` moves, in their order |
| Dashboard.UpcomingTasks | src/pages/Dashboard.tsx:143-145 | upcoming tasks are at most three moves of the list, each starting after now; their order is `Dashboard.UpcomingTasksSpec` |
| Dashboard.RecentAreNewest | src/pages/Dashboard.tsx:110 | with the moves newest first, recent activities are at most three moves, none older than a move left out |
| Dashboard.UpcomingTasksSpec | src/pages/Dashboard.tsx:143-145 | upcoming tasks are the first at most three moves that start after now, newest first, and all of them when there are fewer than three |

## Left out

- CORS headers and the OPTIONS preflight answer are not modelled; they change no state.
- JSON parsing of request bodies is left out. A body is a record of optional fields.
- The text of logs, error messages and toasts is left out. Only the kind of each toast is kept.
- The Bearer prefix of the authorization header is not modelled. A header counts as present or absent.
- Stripe's webhook signature check is a boolean parameter, because it is cryptography inside the Stripe library.
- Stripe, `supabase.auth.getUser` and each store call are parameters. Each either returns a value or throws.
- The zod email format check is a boolean parameter.
- ISO date strings are not modelled. Every time is an integer count of milliseconds.
- The `created_at` column of the subscriptions table is not modelled.
- Row ids are natural numbers assigned in order, not UUIDs.
- The database schema is not part of the sources. `Store.Upserted`, `Store.SubscriptionTable.Insert` and `FreeTrial.TrialOnlyForNewUsers` assume the unique key on `user_id` that `upsert(..., { onConflict: 'user_id' })` needs, and no other unique key besides `id`.
- Concurrent requests and races between a webhook and a verification are not modelled. Each handler runs alone.
- React rendering, query caching and refetching are not modelled.
- `plan_type` strings other than free, monthly and annual are not modelled. The verifier stores whatever the session metadata holds, and the model restricts the metadata to the three plans.
- These checkout-session parameters are not modelled: payment method types, line-item quantity, promotion codes, `client_reference_id`, `subscription_data` metadata, billing-address and phone collection. They do not affect the table.
- `AddClient.NewMove`: the end date is `setDate(+1)`, one calendar day in local time. The model uses 24 hours, so a daylight-saving change is not captured.
- An unparsable move date is a missing start, and the move insert is then skipped with an error toast. How `new Date` parses strings is not modelled.
- `Dashboard.RecentAreNewest` and `Dashboard.UpcomingTasksSpec` assume the newest-first order that the query's `order` clause returns. The database is not modelled.
- `StripeWebhooks.UpdatedEffectSpec` does not state the `updated_at` value. It is the clock at the time of the write.
- `CancelSubscription.HandleCancel`: the Stripe subscription's other fields returned by the cancel call are not modelled. Only `cancel_at` is.
- The subscription pages that only display data (plans, dialogs, success page) are not part of this model.

## Findings

| source | as written | input that shows it | evidently intended | confidence | as-written member | corrected member |
|---|---|---|---|---|---|---|
| supabase/functions/stripe-webhooks/index.ts:110-113 | the code destructures `data` from the customer that `customers.retrieve` resolves to. A customer has no `data` property, so the user id is always undefined and the upsert is skipped | customer cus_1 with metadata `supabase_user_id` = U1 (as create-checkout-session sets it), then `customer.subscription.created` for sub_1 on an empty table: the table stays empty | read `metadata.supabase_user_id` from the retrieved customer itself, so U1 gets a row for sub_1 | high; not executed | StripeWebhooks.CreatedAsWrittenDropsLinkedCustomer | StripeWebhooks.CreatedLinksCustomerUser |
| supabase/functions/verify-checkout-session/index.ts:98-112 | the session is retrieved with the subscription and customer expanded, and `toString()` of those objects is "[object Object]". So the row stores no real Stripe ids, and later webhooks, which match on `stripe_subscription_id`, never reach it | user U1 pays for subscription sub_1 on an empty table, then `invoice.payment_failed` for sub_1 arrives: the row stays active | store the `id` of the expanded subscription and customer, so the failed payment marks the row past_due | high; not executed | VerifyCheckoutSession.VerifyFindingWitness | VerifyCheckoutSession.VerifyReachable |
