# EthicalBank backend: attribution, consent and account rules in Dafny

EthicalBank is a banking backend that explains its AI decisions. When the service answers a
loan question, a chat question or a request for insights, it records which data attributes it
read (`user.income`, `transactions.amount`, ...). It cross-checks these against the attributes
the language model claims to have used, and it reports only attributes the user's consent
allows. Next to this attribute bookkeeping sit:

- the consent store
- the savings accounts and goals
- the transaction ledger
- the rule-based fallbacks of the insights service
- the "AI perception" of a user, which the user can dispute
- the list of web origins the API accepts

This project models that core and proves its properties. One Dafny module stands for each
service file:

| module | file | what it holds |
|---|---|---|
| `Attribution` | `attribution.dfy` | loan flow of `ai.py`: attribute cleaning, cross-validation, final de-duplication, sorting and consent filter; query-log mapping; consent-gated loan extractor |
| `Privacy` | `privacy.dfy` | `privacy.py`: attribute catalogue, permission lookup and filter, permission merge, consent record, privacy score, the `ConsentRegistry` class for the stored documents and score cache |
| `Savings` | `savings.dfy` | goal status, the deposit/withdraw/contribute/delete endpoints as methods on a `Bank` object, the savings summary |
| `Transactions` | `transactions.dfy` | balance and overdraft rule, the create and delete endpoints, the statistics and spending patterns |
| `Insights` | `insights.dfy` | `ai_insights.py`: health score bands, fallback spending analysis and plans, attribute union, cache expiry, recovery of a fenced JSON reply |
| `Chatbot` | `chatbot.dfy` | `chatbot.py`: extractor registry and selection, query type, the five extractors, the data assembly, the chat attribute reconciliation |
| `Perception` | `perception.dfy` | `perception.py`: spending-wisdom tally, attribute defaults, perception cache, disputes |
| `Cors` | `cors.dfy` | `main.py`: allowed CORS origins |

Shared modules:

- `Store`: the stored documents and the `Bank` class, whose maps stand for the collections.
- `Calendar`: dates and age.
- `Text`: ASCII `lower`, `strip`, substring search, `replace`, `split`.
- `Seqs`: duplicate-freedom and order-preserving de-duplication.
- `Tally`: an insertion-ordered dict of sums.
- `StringOrder`: Python's string order and `sorted`.
- `Wrappers`: `Option` and `Result`.

Data that is not a value in the model:

- **Database and clock:** database reads, the current time and "days to deadline" are
  parameters.
- **Language-model replies:** given as inputs. These are the reported attribute list, the
  perception reply and the fenced text.
- **Failing extractors:** in the chat, extractors that would raise are given as a set
  (`raised`).

The model keeps these behaviours of the code as written:

- `validate_attributes` compares case-sensitively.
- Duplicated reported ids count more than once toward `matched`. `DuplicatesInflateMatch` shows
  a `matched` status for a list that misses an accessed id.
- The chat `validationStatus` compares lengths only.

## Model

| member | source | states |
|---|---|---|
| Calendar.Age | backend/services/perception.py:18-26 | the age is the year difference, one less exactly when today's (month, day) precedes the birthday's |
| Calendar.AgeIsCompletedYears | backend/services/ai.py:72-73 | the age-th birthday has passed and the next has not: the age counts completed years |
| Calendar.AgeNonNegative | backend/services/ai.py:72-73 | nobody born on or before today has a negative age |
| Calendar.CalculateAge | backend/services/ai.py:68-74 | no date of birth gives no age; otherwise the age above |
| Attribution.Collapse | backend/services/ai.py:354-357 | a rewrite loop leaves no occurrence of the doubled prefix and never lengthens the text |
| Attribution.CleanAttribute | backend/services/ai.py:353-359 | the loop method computes exactly the cleaning function |
| Attribution.GoalsCollapseKeepsAccounts | backend/services/ai.py:356-357 | collapsing `savings_goals` doublings cannot create a `savings_accounts` doubling |
| Attribution.CleanOutput | backend/services/ai.py:353-359 | a cleaned id contains neither doubled prefix and has no surrounding whitespace |
| Attribution.CleanIdempotent | backend/services/ai.py:353-359 | cleaning twice equals cleaning once |
| Attribution.CleanAll | backend/services/ai.py:362 | cleans every id, in place and order |
| Attribution.CleanNonEmpty | backend/services/ai.py:361 | every output id is the cleaning of a non-empty input id |
| Attribution.CleanNonEmptyOne | backend/services/ai.py:361 | a single id gives its cleaning when non-empty and nothing when empty |
| Attribution.CleanNonEmptyAppend | backend/services/ai.py:361 | on two lists joined, the output is that of the first followed by that of the second: input order is kept |
| Attribution.CleanNonEmptyComplete | backend/services/ai.py:361 | every non-empty input id has its cleaning in the output |
| Attribution.CleanAllFixed | backend/services/ai.py:362 | cleaning a list of clean ids changes nothing |
| Attribution.CleanAllClean | backend/services/ai.py:362 | every cleaned id is a fixed point of cleaning |
| Attribution.Kept | backend/services/ai.py:302 | keeps exactly the ids of the first list found in the second |
| Attribution.Dropped | backend/services/ai.py:303-304 | keeps exactly the ids of the first list not found in the second |
| Attribution.KeptDroppedSplit | backend/services/ai.py:302-303 | matched and unmatched split the reported list as a multiset: each entry lands in exactly one |
| Attribution.KeptAll | backend/services/ai.py:302 | when every reported id was accessed, matched is the reported list itself |
| Attribution.DroppedNone | backend/services/ai.py:303 | when every reported id was accessed, nothing is unmatched |
| Attribution.ValidateAttributes | backend/services/ai.py:300-314 | validated holds exactly the accessed ids (never an unaccessed claim); matched, unmatched and missing hold exactly their sets |
| Attribution.ValidationSplitsReported | backend/services/ai.py:302-304 | matched and unmatched together are the reported list, duplicates included |
| Attribution.ValidationMatched | backend/services/ai.py:306-307 | status is matched iff nothing is unmatched and the matched count equals the accessed count |
| Attribution.ValidationMismatch | backend/services/ai.py:306-311 | status is mismatch iff nothing matched and the matched condition fails |
| Attribution.SameListMatches | backend/services/ai.py:306-313 | reporting exactly the accessed list gives matched with nothing missing (empty/empty included) |
| Attribution.DuplicatesInflateMatch | backend/services/ai.py:302-307 | a reported list with a duplicate reaches matched while missing an accessed id |
| Attribution.HasCaselessMatchAppend | backend/services/ai.py:366-374 | a case-insensitive match in an extended list is a match in the prefix or with the new id |
| Attribution.DedupCaseless | backend/services/ai.py:366-374 | no two results are equal when lowercased, every result comes from the input, every input has a case-insensitive representative |
| Attribution.FinalDedup | backend/services/ai.py:366-374 | the de-duplication loop computes the case-insensitive de-duplication of the cleaned list |
| Attribution.FilterKeepsAllowed | backend/services/privacy.py:357-363 | an allowed entry of a list survives the consent filter |
| Attribution.FilterRepresents | backend/services/ai.py:376-379 | filtering a reordering of a list that covers the accessed ids leaves every accessed id represented or denied |
| Attribution.DedupCoversAccessed | backend/services/ai.py:364-374 | the de-duplicated validated list lies within the accessed ids and covers each up to case |
| StringOrder.Sort | backend/services/ai.py:376 | the result is sorted in Python string order and is a permutation of the input |
| StringOrder.InsertSplices | backend/services/ai.py:376 | inserting into a sorted list puts the new string at one position and keeps the rest in place |
| Attribution.SortAndFilter | backend/services/ai.py:376-379 | the final list is sorted, case-insensitively duplicate-free, only accessed and allowed ids, and represents every accessed id unless denied |
| Attribution.DedupSortFilter | backend/services/ai.py:366-379 | from exactly the cleaned accessed ids: sorted, case-insensitively distinct, accessed and allowed, covering every accessed id unless denied |
| Attribution.ReconcileLoan | backend/services/ai.py:361-379 | the whole loan bookkeeping: status of the cleaned lists; final list sorted, case-insensitively distinct, accessed, allowed and covering |
| Attribution.TopicOf | backend/services/ai.py:79-85 | exactly the five known collections have a prefix; `users` maps to `user`, the others to themselves |
| Attribution.LoggedSplit | backend/services/ai.py:87-94 | an id is logged by a query list iff it is logged by its front or by its last query |
| Attribution.FieldIds | backend/services/ai.py:91-94 | the ids of one query are exactly `prefix.field` for its projected fields of a known collection |
| Attribution.QueryAttributes | backend/services/ai.py:87-94 | the ids of all queries are exactly the logged ones |
| Attribution.MapQueriesToAttributes | backend/services/ai.py:76-96 | the result has no duplicates and holds exactly the `prefix.field` ids of logged queries on known collections |
| Attribution.When | backend/services/ai.py:142-146 | a conditional extend contributes its part exactly when its gate is on |
| Attribution.UserPart | backend/services/ai.py:124-138 | each user id is appended exactly when its consent gate is open |
| Attribution.GroupsDisjoint | backend/services/ai.py:124-222 | the five extractor groups share no id |
| Attribution.GroupMembership | backend/services/ai.py:124-222 | in the extractor's list, an id of a group is present exactly when that group was appended |
| Attribution.LoanGatesOf | backend/services/ai.py:124-212 | each gate is the consent lookup of its governing attribute |
| Attribution.LoanAttributeIdsGated | backend/services/ai.py:124-228 | the returned list holds each user id iff its gate is open and each group iff it was read, each once |
| Attribution.ExtractLoanUserFields | backend/services/ai.py:124-138 | age, income, credit score and employment are present only when allowed; a denied income leaves no income field |
| Attribution.ExtractLoanAccounts | backend/services/ai.py:143-160 | the accounts block is present only when `accounts.balance` is allowed, with totals of the given accounts |
| Attribution.ExtractLoanTransactions | backend/services/ai.py:163-190 | monthly spending is the debit total over six, 0 when denied or empty |
| Attribution.ExtractLoanSavings | backend/services/ai.py:193-205 | the savings block needs consent and a non-empty list |
| Attribution.ExtractLoanGoals | backend/services/ai.py:208-226 | the goals block needs consent and a non-empty list |
| Attribution.ExtractLoanProfile | backend/services/ai.py:124-226 | the profile obeys every consent gate |
| Attribution.ExtractUserDataForLoan | backend/services/ai.py:98-228 | a missing user is a 404; otherwise the profile is consent-gated and the attribute list holds exactly the read groups |
| Privacy.AttributeIdsLength | backend/services/privacy.py:110-116 | `totalAttributes` is the number of ids in the catalogue |
| Privacy.DefaultPermissions | backend/services/privacy.py:130-135 | the default map holds exactly the catalogue ids, all allowed |
| Privacy.CatalogueIds | backend/services/privacy.py:17-69 | the catalogue lists these ids, category by category |
| Privacy.CategoriesDistinct | backend/services/privacy.py:17-69 | no category lists an id twice |
| Privacy.CategoriesDisjoint | backend/services/privacy.py:17-69 | no id is in two categories |
| Privacy.CatalogueDistinct | backend/services/privacy.py:17-69 | the whole catalogue is duplicate-free |
| Privacy.DefaultPermissionsSize | backend/services/privacy.py:130-147 | the default map has one entry per catalogue id, 26 in all, matching `totalAttributes` |
| Privacy.IsAllowed | backend/services/privacy.py:346-355 | an id is denied only when a document exists and stores false for it; no document or an absent id means allowed |
| Privacy.Filtered | backend/services/privacy.py:357-363 | survivors are input ids that are allowed |
| Privacy.FilterAllowedAttributes | backend/services/privacy.py:357-363 | the loop computes the filter |
| Privacy.FilteredCount | backend/services/privacy.py:357-363 | each allowed id survives as often as it was given, each denied id never (duplicates kept) |
| Privacy.FilteredMembers | backend/services/privacy.py:357-363 | an id survives iff it was given and is allowed |
| Privacy.FilteredDistinct | backend/services/privacy.py:357-363 | a duplicate-free input gives a duplicate-free output |
| Privacy.FilteredAppend | backend/services/privacy.py:357-363 | filtering commutes with concatenation, so the input order is kept |
| Privacy.FilteredKeepsOrder | backend/services/privacy.py:357-363 | a sorted, case-insensitively distinct input stays so |
| Privacy.LastRequested | backend/services/privacy.py:180-182 | none iff no entry names the id; otherwise the value of the last entry naming it |
| Privacy.MergePermissions | backend/services/privacy.py:180-182 | the merge loop computes the merged map |
| Privacy.MergedLookup | backend/services/privacy.py:180-182 | each requested id maps to its last requested value; every other entry is unchanged; no other id appears |
| Privacy.ConsentDataTypes | backend/services/privacy.py:210 | the record never lists more ids than there are request entries |
| Privacy.ConsentDataTypesSound | backend/services/privacy.py:210 | the record lists only ids that some request entry asked to allow |
| Privacy.ConsentDataTypesAppend | backend/services/privacy.py:210 | the record of two request lists is the record of the first followed by that of the second: request order is kept |
| Privacy.ConsentDataTypesAllowed | backend/services/privacy.py:210 | every id requested as allowed is in the record |
| Privacy.CountsPartition | backend/services/privacy.py:146-147 | allowed and denied entries partition the map, so `totalAllowed <= totalAttributes` |
| Privacy.DefaultAllowsAll | backend/services/privacy.py:130-135 | the default map denies nothing |
| Privacy.PrivacyScore | backend/services/privacy.py:291-321 | the "all allowed" default report with no document and the "no permissions configured" report for an empty map (both 100); otherwise allowed and denied are the counts of true and false entries of the map, total its size, and the score floor(denied*100/total), in [0, 100] |
| Privacy.PrivacyScoreExtremes | backend/services/privacy.py:309-320 | a non-empty map denying everything scores 100 (0 allowed), one allowing everything scores 0 (0 denied) |
| Privacy.ConsentRegistry.Doc | backend/services/privacy.py:348-354 | a document exists exactly for users that have one stored |
| Privacy.ConsentRegistry.GetPermissions | backend/services/privacy.py:118-155 | creates the all-allowed document when missing, else changes nothing; totals count the stored map |
| Privacy.ConsentRegistry.UpdatePermissions | backend/services/privacy.py:157-232 | stores the merge of the current map, drops the cached score, appends a consent record of the allowed ids |
| Privacy.ConsentRegistry.GetPrivacyScore | backend/services/privacy.py:263-344 | served from the cache iff no refresh and younger than 1800 s; otherwise computed afresh and cached |
| Savings.Progress | backend/services/savings.py:101 | progress reaches 100 iff the target is positive and reached; it is the current share in percent |
| Savings.MonthsRemaining | backend/services/savings.py:104 | never negative, positive iff days remain, equal to days/30 |
| Savings.NeededPerMonth | backend/services/savings.py:105 | infinite iff no day remains; otherwise the rest spread over the months left |
| Savings.CalculateGoalStatus | backend/services/savings.py:99-114 | Completed iff the target is positive and reached |
| Savings.CompletedRegardlessOfDeadline | backend/services/savings.py:101-108 | progress of at least 100 gives Completed whatever the deadline and contribution |
| Savings.NoTimeLeftIsBehind | backend/services/savings.py:104-114 | with no month left an unfinished goal is Behind |
| Savings.StatusByPace | backend/services/savings.py:109-114 | with time left: Ahead within 0.9x the contribution, On Track within 1.1x, else Behind |
| Savings.PaceBands | backend/services/savings.py:109-114 | comparing the monthly need with a band is comparing the remaining amount with that band over the months left |
| Savings.StatusMonotoneInContribution | backend/services/savings.py:109-114 | a larger contribution never gives a worse status |
| Savings.GoalStatusOf | backend/services/savings.py:372-386 | a goal without a date deadline is judged with no time left: Behind unless reached |
| Savings.UpdateMirror | backend/services/savings.py:302-307 | rewrites the balance of the user's main account with that number, if any, and nothing else |
| Savings.Deposit | backend/services/savings.py:272-309 | unknown account: 404, no change; else the balance becomes old + amount, mirrored to the main account |
| Savings.Withdraw | backend/services/savings.py:311-357 | refused with 400 and no change iff balance - amount < minimumBalance; else the new balance stays at or above the minimum |
| Savings.Min | backend/services/savings.py:574 | the minimum of two amounts is one of them and at most both |
| Savings.Contribute | backend/services/savings.py:553-592 | the goal amount becomes min(current + amount, target), never above target; the linked account is debited only if it covers the amount |
| Savings.DeleteGoal | backend/services/savings.py:594-630 | refunds the current amount to the linked account only when positive, then removes the goal |
| Savings.DeleteMirror | backend/services/savings.py:659-662 | removes the user's main account with that number, if any, and nothing else |
| Savings.DeleteAccount | backend/services/savings.py:632-664 | refused with 400 and no change when the balance is positive; otherwise removes the account and its mirror |
| Savings.ActiveGoals | backend/services/savings.py:708-722 | the active count never exceeds the number of goals |
| Savings.NoActiveGoals | backend/services/savings.py:708-722 | no goal is active iff every goal has reached a positive target |
| Savings.PositiveApys | backend/services/savings.py:683-745 | each positive APY as many times as accounts carry it, and no other value (multiset equality with the per-account APYs, restricted to positives) |
| Savings.AverageApy | backend/services/savings.py:744-745 | 0 with no positive APY, positive otherwise (its value, the mean, is stated by Savings.AverageApyIsMean) |
| Savings.AverageApyIsMean | backend/services/savings.py:744-745 | the average is the mean of the positive APYs, one entry per account with apy > 0, so times their number it is their sum (0 with none) |
| Savings.AverageApyBounded | backend/services/savings.py:744-745 | the average never exceeds a bound on every APY |
| Savings.PositiveApysAtMost | backend/services/savings.py:744-745 | a bound on every account's APY bounds every averaged APY |
| Savings.GetSavingsSummary | backend/services/savings.py:666-757 | totals, count, active goals and average APY as above; all zero but the goal count without accounts |
| Transactions.NewBalance | backend/services/transactions.py:310-327 | another type is a 400; a credit adds; a debit subtracts unless it goes below -minimumBalance |
| Transactions.OverdraftFloor | backend/services/transactions.py:320-327 | a debit is refused exactly when the new balance is below -minimumBalance (default 0) |
| Transactions.Reverse | backend/services/transactions.py:543-546 | undoes a credit by subtracting, anything else by adding |
| Transactions.ReverseUndoes | backend/services/transactions.py:315-319 | deleting a transaction right after creating it restores the balance |
| Transactions.AnalysisFor | backend/services/transactions.py:346-385 | with skip_ai or a failed analysis the stored analysis is the fixed low-risk one |
| Transactions.UpdateSavingsMirror | backend/services/transactions.py:397-404 | rewrites the first savings account with that number, if any, and nothing else |
| Transactions.CreateTransaction | backend/services/transactions.py:290-421 | unknown account 404, bad type or overdraft 400, with no write; else insert and balance update |
| Transactions.DeleteTransaction | backend/services/transactions.py:519-564 | unknown transaction 404; else reverse the balance change and remove the transaction |
| Transactions.FlaggedCount | backend/services/transactions.py:444 | the flagged count never exceeds the number of transactions |
| Transactions.DebitsByCategoryTotal | backend/services/transactions.py:446-450 | the category breakdown is a dict whose values sum to the debit total |
| Transactions.DebitsByMonthTotal | backend/services/transactions.py:169-179 | the per-month totals sum to the same debit total |
| Transactions.GetTransactionStats | backend/services/transactions.py:441-458 | totalSpent = debits, totalReceived = credits, breakdown sums to totalSpent, flagged counts medium/high |
| Transactions.DebitTallies | backend/services/transactions.py:169-177 | the loop computes the per-month and per-category debit sums |
| Transactions.MonthlyAverage | backend/services/transactions.py:180 | 0 with no month; otherwise the average times the number of months is the total |
| Transactions.SpendingPatterns | backend/services/transactions.py:169-180 | per-month and per-category totals sum to the debit total; the monthly average is that total spread over the months |
| Insights.MonthlyIncome | backend/services/ai_insights.py:477 | always positive; 1 when income is not positive |
| Insights.MonthlySpending | backend/services/ai_insights.py:476 | 0 with no transaction, else the debit total over six |
| Insights.SavingsRate | backend/services/ai_insights.py:479 | the share of income left, in percent |
| Insights.EmergencyFundMonths | backend/services/ai_insights.py:480 | 0 when nothing is spent, else savings over spending |
| Insights.SavingsBand | backend/services/ai_insights.py:484-489 | one of 0, 10, 15, 25 |
| Insights.CreditBand | backend/services/ai_insights.py:491-496 | one of 0, 15, 20, 25 |
| Insights.EmergencyBand | backend/services/ai_insights.py:498-503 | one of 0, 10, 20, 25 |
| Insights.SpendingBand | backend/services/ai_insights.py:505-510 | one of 0, 15, 20, 25 |
| Insights.HealthInputsOf | backend/services/ai_insights.py:471-480 | the monthly income is positive; no transaction means no spending and no emergency months |
| Insights.HealthScore | backend/services/ai_insights.py:482-510 | the sum of the four bands, in [0, 100] |
| Insights.TopBandsAgree | backend/services/ai_insights.py:479-510 | spending within 80% of income means a savings rate of at least 20%: both top bands |
| Insights.NoSpendingBands | backend/services/ai_insights.py:476-510 | with no transaction the spending band is full and the emergency band empty |
| Insights.AmountsByCategoryTotal | backend/services/ai_insights.py:86-91 | the category dict is well formed and sums to all amounts |
| Insights.Row | backend/services/ai_insights.py:94-103 | percentage 0 when the total is not positive, else the share; averageSpending is amount/6 |
| Insights.Rows | backend/services/ai_insights.py:94-103 | one row per dict entry, in order |
| Insights.RowsSums | backend/services/ai_insights.py:91-103 | row amounts sum to the total and, for a positive total, percentages to 100 |
| Insights.RowNames | backend/services/ai_insights.py:94-96 | the row names are the categories in order |
| Insights.TallyCategories | backend/services/ai_insights.py:86-89 | the loop computes the per-category sums, a well-formed dict whose values sum to all amounts |
| Insights.CategoryRows | backend/services/ai_insights.py:94-103 | the comprehension builds one row per dict entry, in order |
| Insights.BasicSpendingAnalysis | backend/services/ai_insights.py:83-111 | one row per distinct category, every transaction's category listed, amounts sum to totalSpending, percentages 100 or all 0 |
| Insights.CategoriesListed | backend/services/ai_insights.py:86-89 | every transaction's category has an entry |
| Insights.BasicFinancialPlanning | backend/services/ai_insights.py:113-153 | emergency plan iff savings < 3x spending; savings-rate plan iff income > 0 and spending < income/12*0.8; in that order |
| Insights.ProfileAttributes | backend/services/ai_insights.py:560-572 | the profile ids are duplicate-free, drawn from the eleven known ids, and each is listed iff the condition of its group holds |
| Insights.ProfileAttributesByFlag | backend/services/ai_insights.py:560-572 | by name: `user.creditScore` iff the credit score is non-zero, `user.income` iff the income is, each `accounts.`, `savings_accounts.`, `savings_goals.` and `transactions.` id iff that list is non-empty |
| Insights.CombineAttributes | backend/services/ai_insights.py:549-576 | the output is duplicate-free and holds exactly the permitted ids of the two analyses and of the profile block for the given flags |
| Insights.InsightsCacheExpiry | backend/services/ai_insights.py:443-452 | cached insights are served iff no refresh and age below 1800 s |
| Insights.RecoverFenced | backend/services/ai_insights.py:273-280 | recovery happens iff the reply has a ```json fence; the result is stripped, fence-free text of the reply (the same recovery as ai_insights.py:404 and perception.py:245) |
| Insights.RecoverFencedSpan | backend/services/ai_insights.py:275 | the recovered text is the stripped span from the end of the first ```json to the next ``` after it (or the end of the reply): what `split("```json")[1].split("```")[0]` picks, since a later ```json itself begins with ``` |
| Insights.RecoveredOccurs | backend/services/ai_insights.py:277 | the stripped text after a marker is a piece of the reply |
| Chatbot.Selected | backend/services/chatbot.py:366-377 | a source is selected iff some registry entry for it is always-included or keyword-matched |
| Chatbot.Sources | backend/services/chatbot.py:366-377 | the selected sources, in registry order |
| Chatbot.SelectedInOrder | backend/services/chatbot.py:366-377 | the selection follows registry order |
| Chatbot.SelectedEntries | backend/services/chatbot.py:366-377 | selection over the registry entries in terms of their keyword lists |
| Chatbot.RegistrySelection | backend/services/chatbot.py:48-76 | the user source is always selected; any other iff one of its keywords occurs in the lowercased query |
| Chatbot.RegistryOrder | backend/services/chatbot.py:48-76 | the selection is in registry order, non-empty, and starts with the user source |
| Chatbot.SelectExtractors | backend/services/chatbot.py:357-377 | the loop computes the selection on the lowercased query |
| Chatbot.Rules | backend/services/chatbot.py:406-417 | one branch per class of the order, carrying that class and its keyword list |
| Chatbot.FirstMatch | backend/services/chatbot.py:402-419 | general iff no branch's keyword occurs; otherwise the class of a branch whose keyword occurs |
| Chatbot.FirstMatchEarliest | backend/services/chatbot.py:402-419 | the branch taken is at or before any matching branch, and every branch before it has no keyword in the query |
| Chatbot.DetermineQueryType | backend/services/chatbot.py:402-419 | the class of the lowercased query by first match |
| Chatbot.FirstMatchPrecedence | backend/services/chatbot.py:402-419 | with distinct classes, a branch before the one taken has no keyword in the query |
| Chatbot.RankIndexes | backend/services/chatbot.py:405-417 | the rank of a class is its position in the order |
| Chatbot.QueryOrderClasses | backend/services/chatbot.py:405-417 | the order has no repeated class and no general |
| Chatbot.QueryRulesClasses | backend/services/chatbot.py:406-417 | the branches return distinct classes, none general, each class at its rank with its own keywords |
| Chatbot.QueryTypePrecedence | backend/services/chatbot.py:402-419 | loan before goal, account, transaction, offer, explanation: an earlier class would have won |
| Chatbot.LoanFirst | backend/services/chatbot.py:405-406 | a query mentioning a loan keyword is a loan query |
| Chatbot.UserExtract | backend/services/chatbot.py:87-117 | financial block iff there are financials; income attribute iff financial; date of birth attribute iff an age is present |
| Chatbot.OpenAccounts | backend/services/chatbot.py:126-128 | keeps exactly the accounts not closed |
| Chatbot.PrimaryCurrency | backend/services/chatbot.py:135-136 | INR with no currency, else the first one set |
| Chatbot.Currencies | backend/services/chatbot.py:135 | the set currencies, in order |
| Chatbot.AccountsExtract | backend/services/chatbot.py:119-162 | nothing when `accounts.balance` is denied or no account is open; otherwise exactly the open accounts, in order, their count, the sum of their balances and the first set currency (INR if none) |
| Chatbot.Recent | backend/services/chatbot.py:171-179 | at most 50 transactions, the first ones |
| Chatbot.Abs | backend/services/chatbot.py:193-195 | absolute value |
| Chatbot.AbsByCategoryTotal | backend/services/chatbot.py:189-195 | the category dict is well formed and sums to the absolute amounts |
| Chatbot.AbsDebitsBounded | backend/services/chatbot.py:189-199 | the absolute debit total lies between 0 and the absolute total |
| Chatbot.TransactionsExtract | backend/services/chatbot.py:164-213 | nothing when denied or empty; otherwise the count of the first 50 rows as given, their per-category tally of absolute amounts (summing to the total) and monthly spending equal to a sixth of their absolute debits |
| Chatbot.ExtractTransactions | backend/services/chatbot.py:189-213 | the loop computes the transactions extract |
| Chatbot.SavingsExtract | backend/services/chatbot.py:215-269 | nothing when denied or empty; otherwise the accounts, total_savings as the balance sum, and the average APY times the count is the APY sum |
| Chatbot.StatusLabel | backend/services/chatbot.py:304-311 | each of the four labels is produced exactly by its status |
| Chatbot.Annotated | backend/services/chatbot.py:287-311 | remaining = target - current always; progress >= 100 iff reached; a stored status or a missing deadline is kept; else Completed iff reached, and for an unreached goal Ahead iff needed per month <= 0.9 x contribution, On Track iff not that but <= 1.1 x, Behind otherwise (infinite need with no time left) |
| Chatbot.AnnotateGoals | backend/services/chatbot.py:287-311 | annotates every goal of the array in place |
| Chatbot.GoalsOf | backend/services/chatbot.py:313-327 | the goals of the annotated rows, in order |
| Chatbot.AnnotateAll | backend/services/chatbot.py:287-311 | the annotation of every goal, in order |
| Chatbot.AnnotatedTotals | backend/services/chatbot.py:328-333 | annotation keeps the target and current totals |
| Chatbot.GoalsExtract | backend/services/chatbot.py:271-346 | nothing when denied or empty; otherwise every goal annotated, the count, the target and current totals and the number of annotated goals not Completed |
| Store.ActiveGoalCountExtremes | backend/services/chatbot.py:332 | no goal is active iff every goal is Completed, and every goal is active iff none is |
| Chatbot.ExtractSavingsGoals | backend/services/chatbot.py:271-346 | the array-based method computes the goals extract |
| Chatbot.Outcome | backend/services/chatbot.py:380-398 | an extractor fails only for the user source of a missing user |
| Chatbot.RunExtractor | backend/services/chatbot.py:380-392 | runs one extractor with its outcome |
| Chatbot.RunSelected | backend/services/chatbot.py:380-392 | the loop keeps exactly the chosen sources that do not raise and return a non-empty payload, each with its payload, and exactly their ids |
| Chatbot.AttrsCoverStep | backend/services/chatbot.py:386-389 | recording one payload with its extractor's ids keeps the ids exactly those of the recorded payloads |
| Chatbot.ExtractAllRelevantData | backend/services/chatbot.py:357-400 | fails iff the user is missing; `user` is always present; another source is present iff selected, not raising and non-empty; attributes duplicate-free and exactly those of present sources |
| Chatbot.AdmittedOnly | backend/services/chatbot.py:563-573 | keeps exactly the reported ids that were accessed or carry a known prefix |
| Chatbot.DedupCaselessSnoc | backend/services/chatbot.py:563-581 | extending the list extends the case-insensitive de-duplication by at most the new id |
| Chatbot.AdmittedOnlySnoc | backend/services/chatbot.py:563-573 | admission distributes over appending one id |
| Chatbot.SeenAppend | backend/services/chatbot.py:563-581 | the seen set after one more id |
| Chatbot.ValidateReported | backend/services/chatbot.py:563-573 | the first loop computes the admitted reported ids, case-insensitively once each |
| Chatbot.KeepFirstOfClass | backend/services/chatbot.py:578-581 | one loop step extends the case-insensitive de-duplication by one id and keeps the seen set in step |
| Chatbot.ValidateAccessed | backend/services/chatbot.py:575-581 | the second loop adds the accessed ids not yet seen |
| Chatbot.ValidateChatAttributes | backend/services/chatbot.py:555-581 | both loops compute the validated list |
| Chatbot.ValidatedOrigin | backend/services/chatbot.py:555-581 | every validated id was accessed or reported with a known prefix |
| Chatbot.CleanNonEmptyClean | backend/services/chatbot.py:555 | every cleaned reported id is clean |
| Chatbot.ChatFinalFrom | backend/services/chatbot.py:583-595 | every final id is an allowed cleaned validated id |
| Chatbot.SortKeepsCaselessMatch | backend/services/chatbot.py:595 | sorting keeps case-insensitive matches |
| Chatbot.AllowedSurvivesDedup | backend/services/chatbot.py:583-593 | an allowed validated id keeps a case-insensitive representative after filtering and de-duplication |
| Chatbot.ChatFinalCovers | backend/services/chatbot.py:583-595 | every accessed id is represented in the final list or denied |
| Chatbot.ChatReconcile | backend/services/chatbot.py:543-611 | final list sorted, case-insensitively distinct, allowed, each accessed or admitted; accessed ids covered unless denied; matched iff the lengths agree |
| Perception.WiseUnwiseBound | backend/services/perception.py:148-156 | wise + unwise never exceeds the number of transactions |
| Perception.CategoryKeys | backend/services/perception.py:160-164 | the categories of the table, in order |
| Perception.BumpCounts | backend/services/perception.py:160-164 | one update adds one to the grand total and keeps one entry per category |
| Perception.BumpGrand | backend/services/perception.py:160-164 | one `+= 1` raises the sum of all counts by exactly one |
| Perception.BumpKeys | backend/services/perception.py:160-164 | an existing category keeps its place; a new one is appended after all others |
| Perception.WisdomTableTotal | backend/services/perception.py:160-164 | the per-category tallies have one entry per category and sum to the number of transactions |
| Seqs.Mean | backend/services/perception.py:166-167 | the fallback with no transaction, else the quotient; a part of the count gives a share in [0, 1] |
| Perception.WiseRatioBounds | backend/services/perception.py:167 | the wise ratio lies in [0, 1] |
| Perception.TallyWisdom | backend/services/perception.py:143-164 | the loop computes the counts, score total and table, with wise + unwise <= n and the table summing to n |
| Perception.AnalyzeWisdom | backend/services/perception.py:143-167 | the tally, then average 0.5 and ratio 0 with no transaction, else the score mean and the wise share |
| Perception.ReadAttribute | backend/services/perception.py:97-104 | missing category or label is Unknown, confidence 0.5, status active |
| Perception.FreshAttribute | backend/services/perception.py:254-262 | the same defaults, status always active |
| Perception.AttributeRoundTrip | backend/services/perception.py:270-283 | a saved attribute reads back as itself |
| Perception.BuildAttributes | backend/services/perception.py:253-262 | the loop builds the fresh attribute of every reply entry, all active |
| Perception.ReadAll | backend/services/perception.py:85-104 | reads every stored attribute |
| Perception.StoredAll | backend/services/perception.py:274 | writes out every attribute |
| Perception.AttributesRoundTrip | backend/services/perception.py:270-283 | a saved attribute list reads back as itself |
| Perception.FirstMatch | backend/services/perception.py:314-320 | none iff no attribute matches (category, label); else the first match |
| Perception.MarkDisputed | backend/services/perception.py:313-324 | marks only the first matching attribute disputed, others unchanged; no match, no change |
| Perception.DisputeReadsBack | backend/services/perception.py:313-324 | a disputed attribute reads back disputed with its other fields intact |
| Perception.FromStored | backend/services/perception.py:112-117 | serves the stored attributes read with defaults and the summary default |
| Perception.PerceptionRoundTrip | backend/services/perception.py:264-283 | a saved perception served from the cache is the perception saved |
| Perception.PerceptionCacheExpiry | backend/services/perception.py:74-83 | a perception is served from the cache iff no refresh and younger than 86400 s |
| Perception.PerceptionStore.GetAiPerception | backend/services/perception.py:63-287 | fresh cache served unchanged; without a client the unavailable perception, not saved; a failure 500; else fresh attributes saved by upsert |
| Perception.PerceptionStore.DisputePerception | backend/services/perception.py:290-326 | appends a pending-review dispute and marks the first matching attribute of the user's perception |
| Cors.DefaultOriginsDistinct | backend/main.py:26-32 | the five default origins are distinct |
| Cors.NonBlank | backend/main.py:36 | never more origins than pieces |
| Cors.NonBlankComplete | backend/main.py:36 | every non-blank stripped piece is kept |
| Cors.NonBlankSound | backend/main.py:36 | every kept origin is non-blank, stripped, and the stripped form of a piece |
| Cors.NonBlankMembers | backend/main.py:36 | an origin is kept iff it is the non-blank stripped form of a piece, and kept origins are stripped |
| Cors.EnvOrigins | backend/main.py:35-36 | the extra origins are non-empty, stripped and contain no comma |
| Cors.NoExtraOrigins | backend/main.py:35-36 | an unset or empty setting adds no origin |
| Cors.FirstAt | backend/main.py:41-42 | the position of the first occurrence |
| Cors.DedupFirstOrder | backend/main.py:40-42 | de-duplication keeps first-occurrence order |
| Cors.FirstAtFront | backend/main.py:40-42 | an origin of a front part of the list first occurs where it first occurs in that part |
| Cors.DedupOrigins | backend/main.py:41-42 | the `seen`-set comprehension computes the order-preserving de-duplication |
| Cors.AllowedOrigins | backend/main.py:26-42 | duplicate-free; the defaults come first in their order; exactly the origins of defaults and environment |
| Cors.DistinctFirst | backend/main.py:39-42 | a duplicate-free front list opens the de-duplicated list unchanged |

## Left out

- Text handling is ASCII-only: `lower()` folds only A-Z, and `strip()` removes the ASCII characters `str.isspace()` accepts (space, `\t`, `\n`, `\v`, `\f`, `\r` and `\x1c`-`\x1f`) but not non-ASCII whitespace such as `\x85` or `\xa0`.
- Floats are exact reals. There is no rounding (`round(x, 2)`), no NaN and no float error; `float('inf')` is an explicit infinite value.
- Privacy.PrivacyScore: the score is the exact floor of denied*100/total. The source computes `int((denied / total) * 100)` in floating point, which can come out one lower (29 denied of 100 gives 28).
- `list(set(xs))` has an unspecified order in Python; the model uses first-occurrence order (Seqs.Dedup), so only membership and duplicate-freedom are claims.
- Database reads, writes, query filters (status, date windows, limits) and ObjectIds are not modelled as queries: their results are inputs, and updates are map writes on the `Bank`, `ConsentRegistry` and `PerceptionStore` objects.
- The clock is a parameter: `now` in seconds, a goal deadline as whole days, a transaction month as its `%Y-%m` text. Date parsing and `isoformat` are not modelled.
- Language-model calls, prompts, the JSON parsing of replies and the fallback factor parsing are not modelled; replies are inputs.
- The query logger is not part of this model; its snapshot is the input of `Attribution.MapQueriesToAttributes`.
- Threads and timeouts of the comprehensive insights are not modelled; only the deterministic fallbacks are.
- Monthly growth (`pow(1 + apy/100, 1/12)`) in savings and chat is not modelled: it needs fractional powers.
- Account number generation is not modelled: it is a random retry loop.
- Logging, response field renaming, timestamps (`createdAt`, `updatedAt`, `lastUpdated`) and the amounts quoted in error messages are not modelled.
- The fixed texts of the fallback plans (descriptions, steps) are not modelled; each plan is named by its title.
- Chat extractors that raise are given as the `raised` set; the user extractor fails only for a missing user.
- The transactions currency of the chat extract and the per-item lists inside the chat payloads are not modelled; totals, counts and attributes are.
- The perception prompt data (income, credit score, employment, age) only feeds the model call and is not modelled.
- Chatbot.Annotated: a goal with no deadline keeps its missing status, as the chat code does, while Savings.GoalStatusOf judges such a goal with no time left; the two endpoints differ in the source.
- Chatbot.SavingsExtract: the average APY includes zero APYs, as the chat code does, unlike Savings.AverageApy.
- Chatbot.SavingsExtract: `total_monthly_growth` and the per-account field projection are not modelled, because the account record carries no growth field; the accounts are kept whole.
- Insights.BasicSpendingAnalysis: the fallback sums every amount, credits included, as the code does.
- Savings.Contribute: the goal is raised by the full contribution even when the linked account cannot cover it, as the code does.
