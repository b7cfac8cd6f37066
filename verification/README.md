# Earnings ledger of the task-and-referral dashboard

This project models the small earnings ledger that the web pages of the
"complete tasks, refer friends, earn cash" dashboard keep in their hosted
tables, and proves properties of that model in Dafny.

The model has seven modules. Each lives in one file.

- `Schema` (`schema.dfy`) holds the row shapes of `users`, `tasks`,
  `user_tasks`, `transactions`, `referrals` and `withdrawal_requests`. It also
  holds the `app_role` enumeration, the column defaults an insert relies on,
  and the foreign keys as state predicates. Non-null columns such as
  `wallet_balance`, `total_earned`, `referral_code` and
  `registration_bonus_claimed` are plain fields. Nullable columns are
  `Option`s.
- `Ledger` (`ledger.dfy`) holds the queries and writes the pages send.
  - Each is a function on an in-memory `Tables` value.
  - `Database` is a class holding the tables as fields. Its methods are
    proved equal to those functions.
  - A failing call (network, row-level security) is a `Faults` parameter.
  - The model refuses an insert that would break a foreign key, as the
    database does.
  - An update whose `id` matches no row changes nothing and reports no error.
- `Dashboard` (`dashboard.dfy`) models the dashboard's task claim. The claim
  checks the table for an existing completion. It writes the completion,
  the wallet and a `task_reward` transaction. Then it reloads the user
  snapshot from the stored row.
- `Tasks` (`tasks.dfy`) models the tasks page.
  - Its listing is sorted by reward, and it shows a potential-earnings figure.
  - It has two task-type classifiers.
  - Its claim checks a cached list of completed task ids and credits the
    wallet from a user snapshot that the page never reloads.
- `Withdrawal` (`withdrawal.dfy`) models the withdrawal page.
  - Its three amount checks fire in order: non-positive, then above the
    balance, then below 1000.
  - An accepted amount is inserted as a request. The wallet is not touched.
  - The page has a status icon and a status badge.
- `Referrals` (`referrals.dfy`) models the four referral figures and the
  generation badge.
- `Admin` (`admin.dfy`) models the admin dashboard's figures:
  - per-key tallies for the registration and transaction-type charts;
  - the pie-chart label and its cyclic palette;
  - the money totals and the pending-withdrawal total;
  - the 20-row transaction cap and the payment badge.

Each page that changes state is a class. The class holds the page's state:
its user snapshot, its listing, its completion cache, its form. Every
handler method is proved to leave the database and the page exactly as a
pure specification function of the old state says. The properties are
stated as lemmas about those functions.

## Model

| member | source | states |
|---|---|---|
| Schema.RoleName | src/integrations/supabase/types.ts:318-320 | each role's stored label reads back as that role |
| Schema.ParseRole | src/integrations/supabase/types.ts:432-438 | exactly the labels `admin` and `user` are roles, and every role is in the enumeration list |
| Schema.FillTransaction | src/integrations/supabase/types.ts:102-120 | a stored transaction copies the insert; a status left out of the insert takes the column default |
| Schema.FillWithdrawal | src/integrations/supabase/types.ts:265-289 | a stored request copies the user, amount and bank fields; its status is the column default, which may be null, and its notes are null |
| Schema.UplineStaysInUsers | src/integrations/supabase/types.ts:255-263 | under the `referred_by` key every ancestor on the referral chain is an existing user, and once the chain ends it stays ended |
| Ledger.SelectSingleCompletion | src/pages/Dashboard.tsx:91-96 | `.single()` yields a row exactly when one row matches the (user, task) pair, and that row matches |
| Ledger.CompletionCountAppend | src/pages/Dashboard.tsx:111-117 | inserting a completion raises the count of its own pair by one and leaves every other pair's count |
| Ledger.CompletionCountPositive | src/pages/Dashboard.tsx:91-98 | a pair has a positive completion count exactly when some row carries that pair |
| Ledger.CompletedTaskIds | src/pages/Tasks.tsx:89-92 | an id is listed exactly when some completion of that user carries it |
| Ledger.ActiveTasks | src/pages/Dashboard.tsx:74-77 | a task is listed exactly when it is a fetched row with `is_active` set |
| Ledger.TransactionTotalAppend | src/pages/Dashboard.tsx:133-140 | appending a transaction adds its amount to its own user's total only |
| Ledger.CompletionRow | src/pages/Dashboard.tsx:111-117 | the completion row carries the user, the task and `reward_earned` equal to the task's reward |
| Ledger.RewardEntry | src/pages/Dashboard.tsx:133-140 | the transaction insert is a `task_reward` of the task's reward described as "Completed task: " plus the title, with no explicit status |
| Ledger.WithUserTask | src/integrations/supabase/types.ts:183-198 | a completion insert is refused exactly when its user or its task does not exist, and otherwise appends the row |
| Ledger.WithWallet | src/pages/Dashboard.tsx:122-128 | the update sets both columns of the matching user, changes no other user or table, and is a no-op when no row matches |
| Ledger.WithTransaction | src/integrations/supabase/types.ts:130-138 | a transaction insert is refused exactly when its user does not exist, and otherwise appends the filled row |
| Ledger.WithWithdrawal | src/integrations/supabase/types.ts:265-302 | a request insert is never refused and appends the filled row |
| Ledger.UserTaskInsertKeepsConsistent | src/integrations/supabase/types.ts:161-198 | an accepted completion insert keeps every foreign key |
| Ledger.WalletUpdateKeepsConsistent | src/integrations/supabase/types.ts:200-263 | the wallet update keeps every foreign key |
| Ledger.TransactionInsertKeepsConsistent | src/integrations/supabase/types.ts:102-138 | an accepted transaction insert keeps every foreign key |
| Ledger.WithdrawalInsertKeepsConsistent | src/integrations/supabase/types.ts:265-302 | a request insert keeps every foreign key, since its table declares none |
| Ledger.RequestsOf | src/pages/Withdrawal.tsx:92-96 | a request is listed exactly when it is stored for that user, and each stored request of that user is listed exactly as often as it is stored |
| Ledger.ReferralsOf | src/pages/Referrals.tsx:91-97 | a referral is listed exactly when it is stored with that referrer, each such row exactly as often as it is stored, so the referral figures count the stored rows |
| Ledger.Database.SelectCompletion | src/pages/Dashboard.tsx:91-96 | the lookup answers the single matching completion, and null on an error |
| Ledger.Database.SelectUser | src/pages/Dashboard.tsx:57-63 | the lookup answers the stored row, and null on an error or for a missing user |
| Ledger.Database.SelectCompletedTaskIds | src/pages/Tasks.tsx:89-94 | the query answers the user's completed task ids, and null on an error |
| Ledger.Database.SelectRequests | src/pages/Withdrawal.tsx:92-98 | the query answers the user's requests, and null on an error |
| Ledger.Database.SelectReferrals | src/pages/Referrals.tsx:91-100 | the query answers the user's referrals, and null on an error |
| Ledger.Database.InsertUserTask | src/pages/Dashboard.tsx:111-119 | the insert succeeds exactly when the call answers and both keys hold; the tables change only on success |
| Ledger.Database.UpdateWallet | src/pages/Dashboard.tsx:122-130 | the update succeeds exactly when the call answers; the tables change only on success |
| Ledger.Database.InsertTransaction | src/pages/Dashboard.tsx:133-140 | the insert succeeds exactly when the call answers and the user exists; the tables change only on success |
| Ledger.Database.InsertWithdrawal | src/pages/Withdrawal.tsx:148-158 | the insert succeeds exactly when the call answers; the tables change only on success |
| Dashboard.Claim | src/pages/Dashboard.tsx:86-156 | with no snapshot nothing changes. A single existing completion refuses the claim with nothing changed. A refused insert changes nothing. A failed wallet update leaves the completion but no credit and no transaction. A completed claim stores the completion, sets both wallet columns to the snapshot plus the reward, appends the transaction unless its insert failed, and reloads the snapshot |
| Dashboard.ClaimCompletes | src/pages/Dashboard.tsx:111-148 | once the lookup misses and the insert and update go through, the claim completes with exactly the three writes in order |
| Dashboard.CompletedClaimCredits | src/pages/Dashboard.tsx:122-128 | a completed claim keeps `total_earned - wallet_balance` of the snapshot, and with a fresh snapshot raises the stored wallet and lifetime total by exactly the reward |
| Dashboard.ClaimKeepsSnapshotFresh | src/pages/Dashboard.tsx:147-148 | when the reload answers, the snapshot equals the stored row after every claim |
| Dashboard.ClaimKeepsAtMostOne | src/pages/Dashboard.tsx:91-117 | when the lookup answers, a claim never creates a second completion of one (user, task) pair |
| Dashboard.RunClaimsKeepAtMostOne | src/pages/Dashboard.tsx:86-156 | over any sequence of claims whose completion lookups answer, each (user, task) pair keeps at most one completion |
| Dashboard.RunClaimsKeepSnapshotFresh | src/pages/Dashboard.tsx:86-156 | over any sequence of claims whose reloads answer, the snapshot stays the stored row |
| Dashboard.ClaimKeepsConsistent | src/pages/Dashboard.tsx:86-156 | a claim keeps every foreign key, whatever its outcome |
| Dashboard.RecordedClaimKeepsWalletInStep | src/pages/Dashboard.tsx:122-140 | with a fresh snapshot and a recorded transaction, the wallet and the user's transaction total move together |
| Dashboard.UnrecordedClaimDrifts | src/pages/Dashboard.tsx:133-140 | the transaction insert's error is ignored, so the claim still completes and the wallet runs ahead of the transactions by the reward |
| Dashboard.DashboardPage.constructor | src/pages/Dashboard.tsx:33-35 | the page starts with no snapshot and no tasks |
| Dashboard.DashboardPage.FetchUserData | src/pages/Dashboard.tsx:52-70 | the snapshot becomes the stored row, or is kept on an error |
| Dashboard.DashboardPage.FetchTasks | src/pages/Dashboard.tsx:72-84 | the listing becomes the active tasks, or is kept on an error; every listed task is stored and active |
| Dashboard.DashboardPage.HandleTaskClick | src/pages/Dashboard.tsx:86-156 | the handler leaves the tables, the snapshot and the outcome exactly as `Dashboard.Claim` says, and only active tasks can be claimed |
| Tasks.IsTaskCompleted | src/pages/Tasks.tsx:101-103 | true exactly when some cached completion carries the task id |
| Tasks.GetTaskIcon | src/pages/Tasks.tsx:169-180 | `watch_ad` gets the play icon, `social_media` the users icon and `survey` the file icon, each exactly for that type; the default icon goes exactly to every other type |
| Tasks.GetTaskTypeColor | src/pages/Tasks.tsx:182-193 | `watch_ad` gets the red badge, `social_media` the blue one and `survey` the purple one, each exactly for that type; the gray badge goes exactly to every other type |
| Tasks.ClassifiersAgree | src/pages/Tasks.tsx:169-193 | the icon and the badge group task types the same way |
| Tasks.SortByReward | src/pages/Tasks.tsx:65 | the result is ordered by reward, highest first, and is a permutation of the input |
| Tasks.ListTasks | src/pages/Tasks.tsx:59-68 | the listing holds exactly the active rows, each as often as the active filter yields it, highest reward first |
| Tasks.PotentialEarnings | src/pages/Tasks.tsx:237 | an empty list sums to zero, and with no negative reward the sum is non-negative; `Tasks.PotentialEarningsPermutation` and `Tasks.ListedPotentialEarnings` characterise it |
| Tasks.PotentialEarningsPermutation | src/pages/Tasks.tsx:237 | the reward sum does not depend on the order of the list |
| Tasks.ActiveRewardTotalIsFilteredSum | src/pages/Tasks.tsx:237 | the sum over the active filter equals the sum of the active rows' rewards |
| Tasks.ListedPotentialEarnings | src/pages/Tasks.tsx:237 | the potential earnings shown are the sum of the active tasks' rewards, whatever order the listing uses |
| Tasks.ClaimOn | src/pages/Tasks.tsx:105-167 | with no snapshot nothing changes. A cached completion refuses the claim with nothing changed. A refused insert changes nothing. A failed wallet update leaves the completion, no credit and the cache as it was. A completed claim stores the completion, sets both wallet columns to the chosen base plus the reward, appends the transaction unless its insert failed, and reloads the cache, which then holds the task |
| Tasks.ClaimOnKeepsConsistent | src/pages/Tasks.tsx:105-167 | a claim, as written or corrected, keeps every foreign key, whatever its outcome |
| Tasks.ClaimOnCompletes | src/pages/Tasks.tsx:122-151 | once the cache misses and the insert and update go through, the claim completes with exactly the three writes in order |
| Tasks.Claim | src/pages/Tasks.tsx:133-139 | a completed claim sets the stored wallet and lifetime total to the snapshot's values plus the reward, whatever the stored row held |
| Tasks.SecondClaimOverwritesFirst | src/pages/Tasks.tsx:133-159 | two completed claims leave the wallet at the snapshot plus the second reward only, while both rewards are recorded as transactions |
| Tasks.LostRewardExample | src/pages/Tasks.tsx:133-139 | claims worth 100 and 200 from an empty wallet leave it at 200, while the transactions add up to 300 |
| Tasks.ClaimFromStoredRow | src/pages/Tasks.tsx:133-139 | the corrected claim raises the stored wallet and lifetime total by exactly the reward |
| Tasks.StoredRowClaimKeepsWalletInStep | src/pages/Tasks.tsx:133-151 | with the corrected claim and a recorded transaction, the wallet and the user's transaction total move together, whatever the snapshot holds |
| Tasks.StoredRowClaimsCreditBoth | src/pages/Tasks.tsx:133-159 | with the corrected claim, two claims in a row credit both rewards |
| Tasks.RetryAfterWalletFailureDuplicates | src/pages/Tasks.tsx:108-141 | after a failed wallet update the cache is not reloaded, so retrying the same task completes and stores a second completion of the pair |
| Tasks.TasksPage.constructor | src/pages/Tasks.tsx:29-32 | the page starts with no snapshot, no tasks and an empty cache |
| Tasks.TasksPage.CheckAuth | src/pages/Tasks.tsx:42-57 | the snapshot becomes the stored row, or null when the lookup fails |
| Tasks.TasksPage.FetchTasks | src/pages/Tasks.tsx:59-74 | the listing becomes the sorted active tasks, or is kept on an error |
| Tasks.TasksPage.FetchCompletedTasks | src/pages/Tasks.tsx:76-99 | the cache becomes the user's completed task ids, or is kept on an error |
| Tasks.TasksPage.HandleTaskClick | src/pages/Tasks.tsx:105-167 | the handler leaves the tables, the cache and the outcome exactly as `Tasks.Claim` says and never writes the snapshot |
| Withdrawal.Validate | src/pages/Withdrawal.tsx:116-143 | each rejection fires exactly under its condition given that the earlier checks passed, and an amount is accepted exactly when 1000 <= amount <= balance |
| Withdrawal.BalanceCheckFiresFirst | src/pages/Withdrawal.tsx:127-143 | an amount both above the balance and below 1000 is reported as insufficient balance |
| Withdrawal.SmallBalanceRefusesAll | src/pages/Withdrawal.tsx:118-143 | a balance below 1000 admits no amount |
| Withdrawal.GetStatusIcon | src/pages/Withdrawal.tsx:186-198 | the yellow clock goes exactly to `pending`, the green check exactly to `approved` and `completed`, the red cross exactly to `rejected`, and the gray clock exactly to null and unlisted statuses |
| Withdrawal.GetStatusColor | src/pages/Withdrawal.tsx:200-212 | the yellow badge goes exactly to `pending`, the green badge exactly to `approved` and `completed`, the red badge exactly to `rejected`, and the gray badge exactly to null and unlisted statuses |
| Withdrawal.StatusClassifiersAgree | src/pages/Withdrawal.tsx:186-212 | the icon and the badge group statuses the same way |
| Withdrawal.WithInput | src/pages/Withdrawal.tsx:105-110 | only the named field takes the typed value |
| Withdrawal.RequestRow | src/pages/Withdrawal.tsx:150-156 | the insert carries the user id, the amount and the three bank fields |
| Withdrawal.Request | src/pages/Withdrawal.tsx:112-184 | the users table is never touched. Rejections and a failed insert change nothing. A submission appends exactly one filled request, clears the form, and refreshes the list when the query answers |
| Withdrawal.RequestKeepsConsistent | src/pages/Withdrawal.tsx:112-184 | a request keeps every foreign key, whatever its outcome |
| Withdrawal.SubmittedRequestListed | src/pages/Withdrawal.tsx:173-174 | after a submission the refreshed list holds the new request |
| Withdrawal.RequestsCanOvercommit | src/pages/Withdrawal.tsx:127-156 | two requests each within the balance are both accepted even when together they exceed it, and the wallet stays as it was |
| Withdrawal.WithdrawalPage.constructor | src/pages/Withdrawal.tsx:32-41 | the page starts with no snapshot, no requests and an empty form |
| Withdrawal.WithdrawalPage.FetchUserData | src/pages/Withdrawal.tsx:59-77 | the snapshot becomes the stored row, or is kept on an error |
| Withdrawal.WithdrawalPage.FetchWithdrawalRequests | src/pages/Withdrawal.tsx:79-103 | the list becomes exactly the user's stored requests, or is kept on an error |
| Withdrawal.WithdrawalPage.HandleInputChange | src/pages/Withdrawal.tsx:105-110 | the form changes as `Withdrawal.WithInput` says |
| Withdrawal.WithdrawalPage.HandleWithdrawalRequest | src/pages/Withdrawal.tsx:112-184 | the handler leaves the tables, the form, the list and the outcome exactly as `Withdrawal.Request` says and keeps the snapshot |
| Referrals.CountGeneration | src/pages/Referrals.tsx:108-109 | the count never exceeds the rows, it is zero exactly when no row has that generation, and a single row counts 1 exactly when it has that generation |
| Referrals.CountGenerationAppend | src/pages/Referrals.tsx:108-109 | the count of a concatenation is the sum of the counts, so with the one-row case each generation figure is the number of rows of that generation |
| Referrals.SumBonus | src/pages/Referrals.tsx:107 | no rows sum to zero, and with no negative bonus the sum is non-negative; `Referrals.SumBonusAppend` and `Referrals.SumBonusBounds` characterise it |
| Referrals.ComputeStats | src/pages/Referrals.tsx:105-116 | the total is the number of rows, the earnings are the bonus sum, and the two generation figures are the counts of generation 1 and of generation 2; those counts are non-negative and together at most the total; no rows give all zeros |
| Referrals.GenerationsWithinTotal | src/pages/Referrals.tsx:106-109 | the generation counts add up to at most the total, with equality exactly when every generation is 1 or 2 |
| Referrals.SumBonusAppend | src/pages/Referrals.tsx:107 | the bonus total adds up over a split of the rows |
| Referrals.SumBonusBounds | src/pages/Referrals.tsx:107 | with no negative bonus the total is non-negative and at least every single bonus |
| Referrals.ListedReferralsJoin | src/pages/Referrals.tsx:91-97 | under the referral keys every listed row has the user as referrer and names an existing referred user |
| Referrals.GenerationBadge | src/pages/Referrals.tsx:315-320 | the first style goes exactly to generation 1 |
| Referrals.ReferralsPage.constructor | src/pages/Referrals.tsx:36-42 | the page starts with no rows and all four figures zero |
| Referrals.ReferralsPage.FetchReferrals | src/pages/Referrals.tsx:78-122 | on an answer the list becomes the user's referrals and the figures are computed from it; on an error both are kept |
| Admin.Bump | src/pages/Admin.tsx:124 | a key's entry is bumped in place, or a new entry with count 1 goes at the end; the counts grow by one in total |
| Admin.BumpKeepsDistinct | src/pages/Admin.tsx:124 | bumping keeps the keys distinct |
| Admin.BumpCounts | src/pages/Admin.tsx:124 | bumping adds one to the key's count and leaves every other count |
| Admin.Tally | src/pages/Admin.tsx:123-126 | the tally has distinct keys and its counts add up to the number of rows |
| Admin.TallyCounts | src/pages/Admin.tsx:123-126 | each key's count is the number of rows with that key |
| Admin.TallyEntriesCount | src/pages/Admin.tsx:123-126 | every entry of the tally counts the rows carrying its key |
| Admin.TransactionTypeData | src/pages/Admin.tsx:123-126 | the per-type tally has distinct types and its counts add up to the number of transactions; `Admin.TypeCountsAddUp` gives each count |
| Admin.TypeCountsAddUp | src/pages/Admin.tsx:123-126 | the per-type counts add up to the number of transactions, and each is the number of transactions of that type |
| Admin.ReplaceFirstUnderscore | src/pages/Admin.tsx:129 | the label keeps the type's length, and a type without an underscore is unchanged |
| Admin.ReplacesOnlyFirstUnderscore | src/pages/Admin.tsx:129 | the label is the type with its first underscore turned into a space and every later one kept |
| Admin.ReplaceFirstUnderscoreExample | src/pages/Admin.tsx:371 | `a_b_c` is labelled `a b_c` |
| Admin.PieChartData | src/pages/Admin.tsx:128-131 | one slice per tally entry, in order, named by its relabelled key and sized by its count |
| Admin.PieSlicesCount | src/pages/Admin.tsx:123-131 | each slice is sized by the number of transactions of its type |
| Admin.SliceColor | src/pages/Admin.tsx:296 | the slice colour is always one of the five palette colours and repeats every five slices |
| Admin.LastSeven | src/pages/Admin.tsx:119-121 | the result is the last seven entries, or all of them when there are fewer |
| Admin.RegistrationChartData | src/pages/Admin.tsx:113-121 | the chart has at most seven bars, with distinct dates |
| Admin.RegistrationBarsCount | src/pages/Admin.tsx:113-121 | each bar counts the users whose registration date renders to its key |
| Admin.TotalWalletBalance | src/pages/Admin.tsx:135 | no users sum to zero, and with no negative balance the total is non-negative; `Admin.UserTotalsAppend` characterises it |
| Admin.TotalEarnings | src/pages/Admin.tsx:136 | no users sum to zero, and with no negative lifetime earnings the total is non-negative; `Admin.UserTotalsAppend` characterises it |
| Admin.UserTotalsAppend | src/pages/Admin.tsx:135-136 | adding a user adds its balance and its lifetime earnings to the two totals |
| Admin.PendingRequests | src/pages/Admin.tsx:137-138 | a request is kept exactly when its status is `pending`, and a null status is not |
| Admin.PendingWithdrawals | src/pages/Admin.tsx:137-139 | with no `pending` request the total is zero; `Admin.PendingWithdrawalsAppend` and `Admin.PendingWithinRequested` characterise it |
| Admin.PendingWithdrawalsAppend | src/pages/Admin.tsx:137-139 | a request adds its amount to the pending total when its status is `pending`, and nothing otherwise |
| Admin.PendingWithinRequested | src/pages/Admin.tsx:137-139 | with no negative amounts, the pending total lies between zero and the total of all requests |
| Admin.SubmittedRequestIsPending | src/pages/Admin.tsx:137-139 | when the status default is `pending`, a submitted withdrawal raises the pending total by its amount and leaves every wallet as it was |
| Admin.RecentTransactions | src/pages/Admin.tsx:366 | the table shows the first twenty transactions, or all of them when there are fewer |
| Admin.PaymentBadge | src/pages/Admin.tsx:335 | the green badge goes exactly to `completed`, and every other status, null included, is yellow |
| Admin.AdminPage.constructor | src/pages/Admin.tsx:44-46 | the page starts with three empty lists |
| Admin.AdminPage.FetchAllData | src/pages/Admin.tsx:71-110 | the three lists are replaced in order, and the first error stops the refresh, so the later lists keep their old rows |

## Left out

- Hosted database and identity calls are replaced by the in-memory `Tables` value and the `Database` object. A signed-in user is given as a profile id. The pages look profiles up by `auth_id`; the model looks them up by id directly.
- A call answering with an error is a `Faults` or `fails` parameter, not a modelled cause. Row-level security is not modelled.
- Timestamps (`created_at`, `completed_at`, `paid_at`, `requested_at`, `processed_at`, `updated_at`) and generated row ids are not modelled.
  - The orderings by `paid_at` and `requested_at` are therefore not modelled: fetched lists keep table order.
  - The admin lists' `created_at` order is likewise not modelled.
  - The pending total and the money totals do not depend on order.
  - The 20-row cap and the last-seven slice are stated on the list as given.
- `toLocaleDateString` depends on time zone and locale. The registration chart takes each user's rendered date key as input.
- `Object.entries` puts integer-like keys first, in ascending order. The tallies keep first-appearance order for every key. No transaction type or date key the pages produce is integer-like.
- `parseFloat` and floating point are not modelled. Amounts are integers. In the submit handler, a NaN amount passes all three checks, because every comparison with NaN is false. The model has no NaN.
- The browser's constraint validation of the amount input (`type="number"`, `required`, `min="1000"`, `max` set to the wallet balance) is not modelled. In a browser it blocks empty, non-numeric and out-of-range amounts before the submit handler runs. `Withdrawal.Validate` models only the handler's own checks.
- The tasks page caches completion objects with `task_id` and `completed_at`. The model caches the task ids only.
- Concurrency is not modelled. A double click can pass the completion check twice before either insert lands; the claims here run one after another. The refreshes the handlers do not await are modelled as finishing before the next claim.
- Browser side effects are not modelled: `window.open`, toasts, navigation, clipboard, share, the loading and submitting flags, and the Paystack payment link.
- `checkAuth` on the dashboard, withdrawal and referrals pages only navigates away, so it is not modelled.
- The admin password check and the admin login state are not modelled.
- The `user_roles` table is not modelled, because no modelled page reads or writes it. The `app_role` enumeration is.
- The TypeScript helper types (`Tables`, `TablesInsert`, `TablesUpdate`, `Enums`, `CompositeTypes`) are type-level only, so they are not modelled.
- Some behaviour has no code in the modelled files, so the model does not invent it:
  - referral commission payout;
  - the registration bonus;
  - withdrawal debit, reservation, approval, rejection and refund.
  
  A withdrawal request is only inserted, and the wallet keeps its balance (`Withdrawal.RequestsCanOvercommit`). The page does not reserve funds at request time.
- The column defaults of `transactions.status` and `withdrawal_requests.status` are not part of the schema text. They are a `ColumnDefaults` value in the tables. `withdrawal_requests.admin_notes` is nullable and the insert never sets it, so a stored request's notes are null (`Schema.FillWithdrawal`).
- Dashboard.RunClaimsKeepAtMostOne: stated only for claims whose completion lookups answer. A failed lookup lets a claim through as if no completion existed.
- Dashboard.RunClaimsKeepSnapshotFresh: stated only for claims whose reloads answer. A failed reload keeps the old snapshot.
- Unique indexes cannot be read from the schema text, so the model assumes `user_tasks` has no unique key on (`user_id`, `task_id`). `Ledger.WithUserTask` accepts a second row for a pair that already has one. Two results rely on this assumption:
  - `Tasks.RetryAfterWalletFailureDuplicates`, where a retry stores a second completion;
  - `Ledger.SelectSingleCompletion` with duplicate rows, where `.single()` answers null and the dashboard lets a further claim through.
  
  With such a key, those inserts would be refused instead.

## Findings

| source | as written | input that shows it | evidently intended | confidence | as-written member | corrected member |
|---|---|---|---|---|---|---|
| src/pages/Tasks.tsx:133-139 | the tasks page writes `wallet_balance` and `total_earned` as its user snapshot plus the reward, and after a claim reloads only the completion list (line 159), never the snapshot | a user with wallet 0 claims a task worth 100, then one worth 200, without leaving the page: the stored wallet ends at 200 while the transactions total 300 | each claim adds its reward to the stored balance, as the dashboard achieves by reloading its snapshot after each claim | high, not executed | Tasks.LostRewardExample | Tasks.StoredRowClaimsCreditBoth |
