# stakehub core, modelled in Dafny

stakehub is a gaming-account service. Users sign in and chat with one admin. The admin creates gaming accounts for them and records deposits and withdrawals on those accounts. An affiliate sees totals for the users they referred.

This project models the decision logic of that service and proves what it promises. The covered pieces are:

- the server actions for sessions, registration, settings, gaming accounts and the ledger;
- the chat, template, upload-grant, transaction-history and affiliate routes;
- the admin's chat panel with its optimistic message list;
- the template picker;
- the three amount forms and their amount normaliser;
- the account carousel;
- the admin's user list.

The store is an in-memory `Store.Db` object with one sequence per table. The signed-in identity is a parameter. Every HTTP answer is a status or a response datatype.

Modules, one per source file plus shared helpers:

| module | file | models |
|---|---|---|
| `Common` | common.dfy | `Option`, first-match search and order-keeping filter |
| `JsString` | jsstring.dfy | `trim`, `toLowerCase` (for A-Z, U+00C0-U+00DE, U+0391-U+03A9 and U+0400-U+042F), `length` in UTF-16 code units, `includes`, `split`, `parseInt` and `parseFloat` on decimal text |
| `Sorting` | sorting.dfy | newest-first ordering by a timestamp (`orderBy: "desc"`) |
| `Store` | store.dfy | the tables, their unique keys, the `findUnique` lookups |
| `UserActions` | user_actions.dfy | `src/actions/user.ts` |
| `AdminActions` | admin_actions.dfy | `src/actions/admin.ts` |
| `Ledger` | ledger.dfy | `src/actions/transactions.ts` |
| `Affiliate` | affiliate.dfy | `src/app/api/affiliate/dashboard-data/route.ts` |
| `ChatDirectory` | chat_directory.dfy | `src/app/api/chat/route.ts` |
| `UploadPresign` | upload_presign.dfy | `src/app/api/upload-presign/route.ts` |
| `TransactionPages` | transaction_pages.dfy | `src/app/api/transactions/route.ts` |
| `TemplateRoute` | template_route.dfy | `src/app/api/template/admin/route.ts` |
| `TemplateModal` | template_modal.dfy | `src/app/admin/components/AdminTemplateModal.tsx` |
| `AdminChat` | admin_chat.dfy | `src/app/admin/panel/chat/AdminChat.tsx` |
| `AmountFormat` | amount_format.dfy | `formatCurrency` of the three amount forms |
| `AmountForms` | amount_forms.dfy | `DepositFormModal.tsx`, `WithdrawlFormModal.tsx`, `WithdrawForm.tsx` |
| `Carousel` | carousel.dfy | `src/modules/accounts/ui/views/gaming-carousel-view.tsx` |
| `UserTransactionList` | user_transaction_list.dfy | `src/app/admin/components/UserTransactionList.tsx` |

Stateful pieces are classes whose methods change their fields:

- the store;
- the chat panel;
- the template picker;
- the amount forms;
- the carousel view;
- the user list.

Server actions are methods on the store. Pure computations are functions with lemmas about them.

Every awaited network call is split in two steps: a `Begin…` method that runs up to the `await`, and a `Complete…` method that takes the call's outcome as a parameter.

The model follows the code in these places:

- The chat panel hides a server message when an optimistic entry has the same type and content. No sender or time window is checked.
- A second chat for the same pair gets 400, not 409.
- The admin's chat listing holds every chat.
- A completed text send is marked sent whatever its HTTP status.

## Model

| member | source | states |
|---|---|---|
| Store.AmountValue | src/actions/transactions.ts:225 | `Number("+n")` is n and `Number("-n")` is -n; a malformed amount text is NaN |
| Store.UserByClerk | src/actions/user.ts:63-67 | the lookup by identity-provider id finds a row with that id, and finds nothing only when no row has it |
| Store.UserById | src/actions/user.ts:183-192 | the lookup by store id finds a row with that id, and finds nothing only when no row has it |
| Store.ChatById | src/actions/transactions.ts:45-58 | the lookup by chat id finds a chat with that id, and finds nothing only when no chat has it |
| Store.ChatByPair | src/app/api/chat/route.ts:63-68 | the `userId_adminId` lookup finds a chat of that pair, and finds nothing only when the pair has none |
| Store.ChatUser | src/actions/user.ts:168-181 | a chat id resolves to a user id exactly when the chat exists, and that user is the chat's user |
| UserActions.GetSession | src/actions/user.ts:57-82 | 404 without a signed-in person; 403 without a store row; otherwise 200 with that row's id, role and profit |
| UserActions.OnAuthenticateUser | src/actions/user.ts:6-47 | 404 when nobody is signed in; 200 with the existing row and no write; otherwise 201 with exactly one new user and one new workspace; afterwards the person is registered; given a new user id, the store's unique keys still hold |
| UserActions.RegisterTwice | src/actions/user.ts:14-28 | a call right after a registering call answers 200 |
| UserActions.GetEstimatedReplyTime | src/actions/user.ts:91-128 | 200 only for a registered person, with the first settings row's value when one exists; 401 for an unregistered person; 404 without a session |
| UserActions.CreateUserGamingId | src/actions/user.ts:138-228 | the guards in source order with statuses 404, 401, 404, 404, 401; an existing account with the same platform id is rejected whatever its name; on success exactly one account with empty histories is added |
| UserActions.GetPlatform | src/actions/user.ts:237-279 | a registered caller gets exactly their own accounts in store order; anyone else gets 404 |
| AdminActions.OnAuthenticateAdmin | src/actions/admin.ts:6-45 | 200 exactly when the person has a store row; `isAdmin` exactly when that row's role is ADMIN; otherwise 404 |
| AdminActions.SetEstimatedReplyTime | src/actions/admin.ts:55-100 | for the admin, settings become one row holding `time` and empty template lists, and every registered reader then gets `time`; a non-admin gets 401, an unknown person 404, and settings stay unchanged |
| Ledger.PlatformFor | src/actions/transactions.ts:60-69 | finds an account of that user with that name and id, and finds none only when no account matches |
| Ledger.ResolveTarget | src/actions/transactions.ts:13-69 | the five guards in source order: the first failure gives 404, 404, 401, 404 or 404; success names the chat's user and the matching account |
| Ledger.AddNumbers | src/actions/transactions.ts:225 | `Number(a) + Number(b)` is NaN as soon as either side is NaN |
| Ledger.SumIsNetDeposit | src/actions/transactions.ts:214-226 | with readable amounts, the summing loop yields deposits minus withdrawals; one unreadable amount makes it NaN |
| Ledger.SumUserAmounts | src/actions/transactions.ts:223-226 | the `forEach` loop computes the specified sum of the amounts |
| Ledger.ProfitUpdate | src/actions/transactions.ts:230-255 | a profit is stored exactly when the sum is below 0 (a NaN sum is not), and it is the sum's positive opposite |
| Ledger.ProfitIsNetWithdrawal | src/actions/transactions.ts:214-255 | with readable amounts, a profit is stored exactly when more was withdrawn than deposited, and it equals the difference |
| Ledger.ConsistentSignsAppend | src/actions/transactions.ts:86-93 | adding a correctly signed transaction keeps every DEPOSIT written with "+" and every WITHDRAWL with "-" |
| Ledger.TransactionsOf | src/actions/transactions.ts:214-222 | holds exactly the transactions of that user |
| Ledger.AddDepositToPlatform | src/actions/transactions.ts:6-104 | a rejected guard writes nothing; success adds the amount to the end of that account's deposits only, adds one "+amount" DEPOSIT transaction, leaves profits alone, answers 200 and keeps signs consistent; given a new transaction id, the store's unique keys still hold |
| Ledger.StoreProfit | src/actions/transactions.ts:213-255 | stores and returns the positive opposite of a negative sum; a non-negative or NaN sum leaves profits unchanged |
| Ledger.AddWithdrawToPlatform | src/actions/transactions.ts:113-255 | the same guards; success adds the amount to the end of that account's withdrawals only, adds one "-amount" WITHDRAWL transaction, then updates the profit as `StoreProfit` states; given a new transaction id, the store's unique keys still hold |
| Affiliate.ReferralsMade | src/app/api/affiliate/dashboard-data/route.ts:24-39 | holds exactly the referral records the caller made |
| Affiliate.ReferredUsers | src/app/api/affiliate/dashboard-data/route.ts:51 | one entry per referral, holding the referred user's row when it exists |
| Affiliate.CombinedProfitNonNegative | src/app/api/affiliate/dashboard-data/route.ts:53-56 | when profits are never negative, as the ledger stores them, the combined profit is never negative |
| Affiliate.NumberOrZero | src/app/api/affiliate/dashboard-data/route.ts:62 | `Number(amount) \|\| 0`: the amount's value, or 0 when it is NaN |
| Affiliate.KindSumsMakeLedgerSum | src/app/api/affiliate/dashboard-data/route.ts:58-68 | for readable amounts, the deposit total plus the withdrawal total equals the ledger's profit sum |
| Affiliate.KindSumSigns | src/app/api/affiliate/dashboard-data/route.ts:61-65 | with ledger-signed amounts, the deposit total is at least 0 and the withdrawal total at most 0 |
| Affiliate.ReferredTotals | src/app/api/affiliate/dashboard-data/route.ts:58-68 | the nested loops compute the specified per-kind totals; other kinds are ignored |
| Affiliate.DashboardData | src/app/api/affiliate/dashboard-data/route.ts:5-85 | 401 without an authenticated session; no response for the admin; otherwise the caller's names, affiliate code and referred users, the referral count, the referred users and the three totals |
| Sorting.Insert | src/app/api/chat/route.ts:27 | inserting into a newest-first list keeps it newest-first and adds exactly that element |
| Sorting.SortDesc | src/app/api/chat/route.ts:27 | the result is newest-first and a permutation of the input |
| Sorting.SortDescMembers | src/app/api/chat/route.ts:27 | sorting keeps exactly the input's elements |
| ChatDirectory.LatestMessage | src/app/api/chat/route.ts:39-49 | a chat has a latest message exactly when it has messages, and no message of that chat is newer |
| ChatDirectory.AdminListing | src/app/api/chat/route.ts:26-51 | every chat appears exactly once, newest first, each with its latest message |
| ChatDirectory.GetChats | src/app/api/chat/route.ts:15-86 | 401 without an authenticated session; the full listing for the admin; a user gets their own chat with the configured admin, or 404; 500 when no admin id is configured |
| ChatDirectory.CreateChat | src/app/api/chat/route.ts:88-141 | 401, then 403 for the admin, 500 without an admin id, 400 for an existing pair, 500 for an unknown admin row; otherwise exactly one new chat and 201; the user's next `GET` finds the chat in both the 201 and 400 cases; given a new chat id, the store's unique keys still hold |
| UploadPresign.Extension | src/app/api/upload-presign/route.ts:69 | the extension never contains '.' |
| UploadPresign.ExtensionIsLastSegment | src/app/api/upload-presign/route.ts:69 | the extension is the text after the last '.', or the whole name when there is none |
| UploadPresign.KeyDeterminesUploader | src/app/api/upload-presign/route.ts:70 | two uploads share a key only when they have the same uploader and the same instant |
| UploadPresign.PublicUrl | src/app/api/upload-presign/route.ts:86 | the public URL ends with the key that was signed |
| UploadPresign.Presign | src/app/api/upload-presign/route.ts:36-95 | 401 before the body is read; 400 for a non-JSON body or a missing or empty name or type; otherwise the key is signed for 300 seconds, with 500 when signing fails |
| UploadPresign.KeyInUploaderFolder | src/app/api/upload-presign/route.ts:70 | every key starts with `uploads/{userId}/` |
| TransactionPages.Ordered | src/app/api/transactions/route.ts:22-35 | holds only the caller's transactions, newest first, and all of them |
| TransactionPages.TakeDefaultsToTen | src/app/api/transactions/route.ts:16 | an absent `take` means 10 |
| TransactionPages.CursorIndex | src/app/api/transactions/route.ts:25 | finds the cursor transaction, and finds nothing only when no transaction has that id |
| TransactionPages.Bounds | src/app/api/transactions/route.ts:20-35 | at most `take` items: from the start without a cursor, just after the cursor with one, nothing for an unknown cursor |
| TransactionPages.Respond | src/app/api/transactions/route.ts:38-45 | a next cursor exactly when the page length equals `take`, holding the last item's id; reading the last item of an empty page fails with 500 |
| TransactionPages.TransactionsPage | src/app/api/transactions/route.ts:5-53 | 404 without a session; 500 for a NaN or zero `take`; otherwise the page of the caller's transactions, newest first |
| TransactionPages.ZeroTakeFails | src/app/api/transactions/route.ts:38-41 | as written, `take=0` from a signed-in user always fails with 500 |
| TransactionPages.TransactionsPageFixed | src/app/api/transactions/route.ts:38-42 | corrected: a next cursor only for a full, non-empty page |
| TransactionPages.FixedAgreesExceptZeroTake | src/app/api/transactions/route.ts:16-42 | the corrected handler answers as the original on every `take` except 0 |
| TransactionPages.OrderedKeepsUniqueIds | src/app/api/transactions/route.ts:20-28 | in a store with distinct transaction ids (part of `Store.Db.Valid`), the user's newest-first transactions have distinct ids |
| TransactionPages.UniqueCursorIsIndex | src/app/api/transactions/route.ts:20-28 | with distinct ids, the cursor of the transaction at position k is found at k |
| TransactionPages.NextPageContinues | src/app/api/transactions/route.ts:20-28 | in a store with distinct transaction ids, following a full page's cursor gives the page that starts right after it, so no item is skipped or repeated |
| TemplateRoute.FindIndex | src/app/api/template/admin/route.ts:122-124 | `findIndex`: the first position of the text, or -1 exactly when it is absent |
| TemplateRoute.ApplyAction | src/app/api/template/admin/route.ts:70-164 | add appends the trimmed text iff it is non-blank and new; edit replaces only a valid index, unless the text is elsewhere; delete removes only a valid index and keeps the order; any other action is refused |
| TemplateRoute.ResaveSameText | src/app/api/template/admin/route.ts:122-135 | saving the text already at an index is accepted and changes nothing |
| TemplateRoute.FirstOccurrence | src/app/api/template/admin/route.ts:122-124 | in a list without duplicates, an entry's first occurrence is its own index |
| TemplateRoute.AddKeepsClean | src/app/api/template/admin/route.ts:83-93 | appending a new trimmed text keeps the list free of duplicates and untrimmed entries |
| TemplateRoute.EditKeepsClean | src/app/api/template/admin/route.ts:122-135 | an accepted edit keeps the list free of duplicates and untrimmed entries |
| TemplateRoute.DeleteKeepsClean | src/app/api/template/admin/route.ts:153 | removing an entry keeps the list free of duplicates and untrimmed entries |
| TemplateRoute.ActionKeepsListClean | src/app/api/template/admin/route.ts:70-164 | every accepted action keeps the list free of duplicates and untrimmed entries |
| TemplateRoute.GetTemplates | src/app/api/template/admin/route.ts:5-25 | answers the first settings row's templates, after creating the default row when none exists |
| TemplateRoute.PostTemplates | src/app/api/template/admin/route.ts:39-179 | a missing action gives 400 with no write; otherwise the row is fetched or created, and an accepted action writes exactly the new list while a refused one writes nothing more |
| TemplateModal.WithIds | src/app/admin/components/AdminTemplateModal.tsx:54-59 | the fetched texts in order, with the text unchanged and the id `template-i` |
| TemplateModal.IndexOfTemplateId | src/app/admin/components/AdminTemplateModal.tsx:101 | parsing `template-i` back gives i |
| TemplateModal.EditTargetsListed | src/app/admin/components/AdminTemplateModal.tsx:97-110 | editing a listed template changes exactly that template on the server |
| TemplateModal.DeleteTargetsListed | src/app/admin/components/AdminTemplateModal.tsx:127-138 | deleting a listed template removes exactly that template on the server |
| TemplateModal.Modal.CompleteFetch | src/app/admin/components/AdminTemplateModal.tsx:45-67 | loading ends; a success lists the texts with their ids; a failure keeps the list and shows the load error |
| TemplateModal.Modal.HandleAddTemplate | src/app/admin/components/AdminTemplateModal.tsx:69-95 | nothing for a blank draft; otherwise the trimmed draft is posted, and on success the draft is cleared and the list reloads |
| TemplateModal.Modal.HandleEditTemplate | src/app/admin/components/AdminTemplateModal.tsx:97-125 | nothing for blank text; otherwise the trimmed text is posted for the index read from the id |
| TemplateModal.Modal.HandleDeleteTemplate | src/app/admin/components/AdminTemplateModal.tsx:127-150 | posts the index read from the id; a failure shows the delete error |
| TemplateModal.Modal.CompleteSendTemplate | src/app/admin/components/AdminTemplateModal.tsx:152-163 | no send stays in flight; success asks to close, failure shows the send error |
| TemplateModal.Modal.HandleClose | src/app/admin/components/AdminTemplateModal.tsx:165-174 | refused while loading or sending; otherwise adding, editing and the error are reset and closing is requested |
| TemplateModal.Modal.StartEditing | src/app/admin/components/AdminTemplateModal.tsx:182-185 | the template is being edited, with its text as the draft |
| TemplateModal.Modal.CancelEditing | src/app/admin/components/AdminTemplateModal.tsx:187-190 | nothing is being edited and the draft is empty |
| AdminChat.RecordingAccepted | src/app/admin/panel/chat/AdminChat.tsx:233-240 | a recording is accepted exactly when it is at most 5 MB |
| AdminChat.MarkStatus | src/app/admin/panel/chat/AdminChat.tsx:189-202 | only the entries with that id get the new status; everything else is unchanged |
| AdminChat.MarkOwnEntry | src/app/admin/panel/chat/AdminChat.tsx:332-345 | with a unique temporary id, settling a send rewrites only its own entry |
| AdminChat.MarkVanished | src/app/admin/panel/chat/AdminChat.tsx:151 | settling a send whose entry was dropped changes nothing |
| AdminChat.VisibleServer | src/app/admin/panel/chat/AdminChat.tsx:661-669 | holds exactly the server messages that no optimistic entry matches by type and content |
| AdminChat.Rendered | src/app/admin/panel/chat/AdminChat.tsx:661-669 | the visible server messages, then every optimistic entry in order |
| AdminChat.RenderedIff | src/app/admin/panel/chat/AdminChat.tsx:661-669 | a server message is on screen iff no optimistic entry has its type and content; every optimistic entry is on screen |
| AdminChat.VisibleKeepsOrder | src/app/admin/panel/chat/AdminChat.tsx:661-669 | the visible server messages keep the server's order |
| AdminChat.FilterChats | src/app/admin/panel/chat/AdminChat.tsx:124-129 | holds exactly the conversations whose lower-cased name or email contains the lower-cased query |
| AdminChat.EmptyQueryKeepsAll | src/app/admin/panel/chat/AdminChat.tsx:124-129 | an empty query keeps every conversation in order |
| AdminChat.FilterChatsKeepsOrder | src/app/admin/panel/chat/AdminChat.tsx:124-129 | the search result keeps the list's order |
| AdminChat.NamelessMatchesEmailOnly | src/app/admin/panel/chat/AdminChat.tsx:126 | without a name, only the email is searched |
| AdminChat.PreviewText | src/app/admin/panel/chat/AdminChat.tsx:562-565 | text of up to 35 UTF-16 code units is shown whole; longer text keeps a prefix of 34 or 35 code units followed by "..."; missing content reads "undefined" |
| AdminChat.AstralTextIsCut | src/app/admin/panel/chat/AdminChat.tsx:562-565 | 35 characters above U+FFFF are 70 code units, so their preview is cut |
| AdminChat.PreviewOf | src/app/admin/panel/chat/AdminChat.tsx:520-574 | "No messages yet" exactly without a last message; "File attachment" exactly for a file |
| AdminChat.ChatPanel.HandleChatSelect | src/app/admin/panel/chat/AdminChat.tsx:148-152 | the chat is selected, the sidebar closes and the optimistic list empties |
| AdminChat.ChatPanel.HandleBackToChats | src/app/admin/panel/chat/AdminChat.tsx:153-156 | no chat is selected and the sidebar opens |
| AdminChat.ChatPanel.BeginSendText | src/app/admin/panel/chat/AdminChat.tsx:165-182 | nothing without a chat or with blank text and no override; otherwise one `sending` entry is appended at the end, and the input is cleared only without an override |
| AdminChat.ChatPanel.CompleteSendText | src/app/admin/panel/chat/AdminChat.tsx:183-204 | the entry becomes `failed` only when the request threw, `sent` otherwise |
| AdminChat.ChatPanel.HandleTemplateSend | src/app/admin/panel/chat/AdminChat.tsx:159-162 | with a chat selected, the template is sent as override text and the typed input is kept |
| AdminChat.ChatPanel.BeginSendFile | src/app/admin/panel/chat/AdminChat.tsx:284-304 | nothing without a file or a chat; otherwise one `sending` file entry is appended and the file input cleared |
| AdminChat.ChatPanel.CompleteSendFile | src/app/admin/panel/chat/AdminChat.tsx:306-347 | a refused grant or a failed upload marks the entry `failed` and issues no chat post; otherwise the post carries the public URL |
| AdminChat.ChatPanel.HandleFileSelect | src/app/admin/panel/chat/AdminChat.tsx:267-281 | a file is taken iff it is at most 5 MB and of an allowed type; a rejected file leaves the input unchanged |
| AdminChat.ChatPanel.OnRecordingStop | src/app/admin/panel/chat/AdminChat.tsx:228-240 | the recording becomes the file input iff it is at most 5 MB |
| AdminChat.ChatPanel.ClickSend | src/app/admin/panel/chat/AdminChat.tsx:1056-1063 | a set file is sent, otherwise the text; at most one entry is appended and earlier entries are kept |
| AmountFormat.Cleaned | src/app/admin/components/DepositFormModal.tsx:187 | only digits and '.' remain |
| AmountFormat.FormatCurrency | src/app/admin/components/DepositFormModal.tsx:185-201 | the output holds only digits and at most one '.' |
| AmountFormat.FormatCurrencyFixed | src/app/admin/components/DepositFormModal.tsx:185-201 | corrected: the output also has at most two fraction digits |
| AmountFormat.WellFormedUnchanged | src/app/admin/components/WithdrawlFormModal.tsx:139-149 | already-clean text is returned unchanged |
| AmountFormat.WellFormedUnchangedFixed | src/app/admin/components/WithdrawForm.tsx:124-140 | the corrected normaliser returns already-clean text unchanged |
| AmountFormat.OneDotKeepsFirstTwo | src/app/admin/components/DepositFormModal.tsx:196-198 | with one '.' at position i and more than two characters after it, the output is the cleaned text cut after the second fraction character |
| AmountFormat.KeptWholeIffWellFormed | src/app/admin/components/WithdrawlFormModal.tsx:145-148 | the cleaned text comes back whole exactly when it has no '.' or at most two characters after its only '.' |
| AmountFormat.FixedAgreesOnOneDot | src/app/admin/components/DepositFormModal.tsx:196-198 | with at most one '.', the corrected normaliser gives the original's output |
| AmountFormat.FixedIdempotent | src/app/admin/components/DepositFormModal.tsx:185-201 | normalising twice is normalising once |
| AmountFormat.SeveralDotsKeepLongFraction | src/app/admin/components/DepositFormModal.tsx:190-194 | as written, "1.2.345" becomes "1.2345", with four fraction digits |
| AmountForms.ErrorText | src/app/admin/components/DepositFormModal.tsx:96-134 | an error text is empty exactly when the field has no error |
| AmountForms.PlatformNameError | src/app/admin/components/DepositFormModal.tsx:96-100 | passes exactly when a platform is chosen |
| AmountForms.PlatformIdError | src/app/admin/components/DepositFormModal.tsx:103-109 | "required" iff the trimmed id is empty; "too short" iff it is 1 or 2 UTF-16 code units long; passes iff it is at least 3 |
| AmountForms.SurrogatePairIdPasses | src/app/admin/components/DepositFormModal.tsx:103-109 | an id made of one character above U+FFFF and one letter is 3 code units long and passes |
| AmountForms.AmountErrorIff | src/app/admin/components/DepositFormModal.tsx:113-121 | the amount passes iff it is a number in (0, 1,000,000]; "too large" iff it is a number above the cap |
| AmountForms.VerifyErrorIff | src/app/admin/components/DepositFormModal.tsx:126-134 | the repeated amount passes iff it reads as the same number |
| AmountForms.ValidIff | src/app/admin/components/DepositFormModal.tsx:87-139 | the form passes iff a platform is chosen, the trimmed id is at least 3 UTF-16 code units long, the amount is in (0, 1,000,000] and the repeat is equal |
| AmountForms.AmountsMatchIffVerifyPasses | src/app/admin/components/WithdrawlFormModal.tsx:226-231 | `amountsMatch` holds iff the amount is a number and the repeated amount passes validation |
| AmountForms.Indicator | src/app/admin/components/WithdrawlFormModal.tsx:414-433 | shown iff both amounts are filled in or a submission failed; a failure shows its message; otherwise "Amounts match" iff they match |
| AmountForms.NormalisedAmountsArePositive | src/app/admin/components/DepositFormModal.tsx:185-201 | a normalised amount never reads as a negative number |
| AmountForms.AmountModal.Open | src/app/admin/components/WithdrawlFormModal.tsx:54-71 | every field, error and flag is reset; the withdrawal form's message becomes "Try Again!" |
| AmountForms.AmountModal.ValidateForm | src/app/admin/components/DepositFormModal.tsx:87-139 | sets the specified error of each field and passes iff none is set |
| AmountForms.AmountModal.HandleSubmit | src/app/admin/components/DepositFormModal.tsx:141-171 | as written: a failed validation changes no flag; without a conversation the form is left submitting; otherwise the ledger action is called and its outcome is shown |
| AmountForms.AmountModal.SubmitValidated | src/app/admin/components/WithdrawlFormModal.tsx:186-210 | submitting starts before the conversation is checked |
| AmountForms.AmountModal.HandleSubmitFixed | src/app/admin/components/DepositFormModal.tsx:141-171 | corrected: without a conversation nothing is submitted and no flag changes |
| AmountForms.AmountModal.Settle | src/app/admin/components/DepositFormModal.tsx:156-170 | status 200 shows success; any other status or a throw sets the submission error; submitting ends |
| AmountForms.AmountModal.HandleClose | src/app/admin/components/DepositFormModal.tsx:173-177 | closing is requested iff no submission runs and no success is shown |
| AmountForms.AmountModal.ChangeAmount | src/app/admin/components/DepositFormModal.tsx:203-217 | the amount is normalised by `formatCurrency` as written, so it keeps digits and at most one '.'; only its error is cleared; the submission error is cleared as each form does it |
| AmountForms.AmountModal.ChangeVerifyAmount | src/app/admin/components/DepositFormModal.tsx:219-231 | the repeated amount is normalised by `formatCurrency` as written; only its error is cleared; the submission error is cleared as each form does it |
| AmountForms.AmountModal.ChangePlatformId | src/app/admin/components/DepositFormModal.tsx:233-244 | the id is stored; only its error is cleared |
| AmountForms.AmountModal.ChangePlatformName | src/app/admin/components/DepositFormModal.tsx:246-257 | the platform is stored; only its error is cleared |
| AmountForms.SubmitWithoutChatLocks | src/app/admin/components/DepositFormModal.tsx:146-149 | as written, a valid form submitted without a conversation stays submitting and cannot be closed |
| AmountForms.SubmitWithoutChatStaysClosable | src/app/admin/components/DepositFormModal.tsx:146-149 | with the corrected submit, such a form can still be closed |
| AmountForms.TwoFieldValidIff | src/app/admin/components/WithdrawForm.tsx:51-83 | the stand-alone form passes iff the amount is in (0, 1,000,000] and the repeat is the same number |
| AmountForms.WithdrawForm.Open | src/app/admin/components/WithdrawForm.tsx:29-37 | both fields, their errors and the flags are reset |
| AmountForms.WithdrawForm.ValidateForm | src/app/admin/components/WithdrawForm.tsx:51-83 | sets the two fields' errors and passes iff none is set |
| AmountForms.WithdrawForm.HandleSubmit | src/app/admin/components/WithdrawForm.tsx:85-110 | the callback receives the parsed amount, which lies in (0, 1,000,000]; a throw ends submitting without success; otherwise success shows and closing is scheduled |
| AmountForms.WithdrawForm.SubmitValidated | src/app/admin/components/WithdrawForm.tsx:90-108 | the callback, when given, receives exactly the value; a throw ends submitting |
| AmountForms.WithdrawForm.CloseTimerFires | src/app/admin/components/WithdrawForm.tsx:102-104 | the scheduled close requests closing once |
| AmountForms.WithdrawForm.HandleClose | src/app/admin/components/WithdrawForm.tsx:112-116 | closing is requested iff no submission runs and no success is shown |
| AmountForms.WithdrawForm.ChangeAmount | src/app/admin/components/WithdrawForm.tsx:142-152 | the amount is normalised by `formatCurrency` as written and only its error cleared |
| AmountForms.WithdrawForm.ChangeVerifyAmount | src/app/admin/components/WithdrawForm.tsx:154-162 | the repeated amount is normalised by `formatCurrency` as written and only its error cleared |
| Carousel.CardsPerView | src/modules/accounts/ui/views/gaming-carousel-view.tsx:249 | at most 3 and at most the deck size, and equal to one of them |
| Carousel.MaxIndex | src/modules/accounts/ui/views/gaming-carousel-view.tsx:250 | the last full view starts at the deck size minus the cards per view, which is never below 0 |
| Carousel.NextIndex | src/modules/accounts/ui/views/gaming-carousel-view.tsx:58-60 | the next index names a card |
| Carousel.PrevIndex | src/modules/accounts/ui/views/gaming-carousel-view.tsx:62-64 | the previous index names a card |
| Carousel.StepsWrap | src/modules/accounts/ui/views/gaming-carousel-view.tsx:58-64 | forward is one further or wraps to the first card; back is one back or wraps to the last card |
| Carousel.StepsAreInverse | src/modules/accounts/ui/views/gaming-carousel-view.tsx:58-64 | forward then back, or back then forward, returns to the same card |
| Carousel.ArrowsShown | src/modules/accounts/ui/views/gaming-carousel-view.tsx:265 | the wide-screen arrows appear iff there are more than 3 cards |
| Carousel.ArrowsStayInWindow | src/modules/accounts/ui/views/gaming-carousel-view.tsx:265-281 | the enabled wide-screen arrows move by one and never wrap or pass the last full view |
| Carousel.DotCount | src/modules/accounts/ui/views/gaming-carousel-view.tsx:313-315 | the number of dots is the ceiling of the deck size over the cards per view |
| Carousel.ActiveDot | src/modules/accounts/ui/views/gaming-carousel-view.tsx:319 | the active dot is the floor of the index over the cards per view |
| Carousel.DotsCoverDeck | src/modules/accounts/ui/views/gaming-carousel-view.tsx:313-323 | every card lights an existing dot, and clicking a dot lands on a card that lights that dot |
| Carousel.LastDotPassesMaxIndex | src/modules/accounts/ui/views/gaming-carousel-view.tsx:250-323 | with four cards the last dot moves to the fourth card, past the last full view |
| Carousel.Toggled | src/modules/accounts/ui/views/gaming-carousel-view.tsx:80-85 | toggling gives the card an entry and adds no other |
| Carousel.ToggleFlipsOnlyItsCard | src/modules/accounts/ui/views/gaming-carousel-view.tsx:80-85 | a toggle flips the visibility of its own card and of no other |
| Carousel.ToggleTwiceRestores | src/modules/accounts/ui/views/gaming-carousel-view.tsx:80-85 | toggling twice restores what every card shows |
| Carousel.View.Resize | src/modules/accounts/ui/views/gaming-carousel-view.tsx:47-49 | narrow exactly below 768 pixels |
| Carousel.View.NextSlide | src/modules/accounts/ui/views/gaming-carousel-view.tsx:58-60 | the index moves to the next card and still names a card |
| Carousel.View.PrevSlide | src/modules/accounts/ui/views/gaming-carousel-view.tsx:62-64 | the index moves to the previous card and still names a card |
| Carousel.View.ClickDot | src/modules/accounts/ui/views/gaming-carousel-view.tsx:311-323 | dots exist on the wide layout only when the deck is longer than one view; there dot k moves to the first card of page k, on the narrow layout to card k; the index still names a card |
| Carousel.View.TogglePasswordVisibility | src/modules/accounts/ui/views/gaming-carousel-view.tsx:80-85 | the visibility map becomes the toggled map |
| UserTransactionList.FilterUsers | src/app/admin/components/UserTransactionList.tsx:73-88 | an empty term keeps the list; otherwise exactly the entries whose first name, last name, email, user id or entry id contains the term, ignoring case |
| UserTransactionList.FilterUsersKeepsOrder | src/app/admin/components/UserTransactionList.tsx:76 | the search result keeps the list's order |
| UserTransactionList.SearchIgnoresCase | src/app/admin/components/UserTransactionList.tsx:78-86 | a term and its lower-case form find the same users |
| UserTransactionList.SearchFindsUserId | src/app/admin/components/UserTransactionList.tsx:85 | searching for a user's id, in any case, finds that user |
| UserTransactionList.CountLabel | src/app/admin/components/UserTransactionList.tsx:245-246 | the count followed by " transaction" or " transactions" |
| UserTransactionList.CountLabelPluralIff | src/app/admin/components/UserTransactionList.tsx:245-246 | the label ends in "s" iff the count is not 1 |
| UserTransactionList.RowStyleOf | src/app/admin/components/UserTransactionList.tsx:309-310 | a row is styled as rising iff it is a DEPOSIT, falling iff it is a WITHDRAWL |
| UserTransactionList.UserList.CurrentScreen | src/app/admin/components/UserTransactionList.tsx:73-193 | the render throws exactly when the list is undefined and read (a search term is set, or the list view is up after loading); otherwise the history iff one is open for a selected user, else the matching users, or the empty-search or empty-list message |
| UserTransactionList.UserList.CompleteFetch | src/app/admin/components/UserTransactionList.tsx:56-71 | loading ends; an answer's `users` replaces the list, undefined when the body has none; a throw keeps the list |
| UserTransactionList.UserList.CompleteFetchFixed | src/app/admin/components/UserTransactionList.tsx:56-71 | as `CompleteFetch`, except that an answer without `users` leaves an empty list |
| UserTransactionList.ErrorAnswerCrashes | src/app/api/userList/route.ts:6-15 | a 401 answer (`{ error }`, no `users`) makes the list view throw |
| UserTransactionList.ErrorAnswerShowsNoUsersFixed | src/app/admin/components/UserTransactionList.tsx:186-194 | with the corrected fetch, the same answer shows the empty-list or empty-search message |
| UserTransactionList.UserList.HandleUserClick | src/app/admin/components/UserTransactionList.tsx:91-94 | the user is selected and their history is on screen unless the render throws |
| UserTransactionList.UserList.HandleBackClick | src/app/admin/components/UserTransactionList.tsx:97-100 | nothing is selected and no history is on screen; the list view throws exactly when the list is undefined |
| UserTransactionList.OpenThenBack | src/app/admin/components/UserTransactionList.tsx:91-100 | opening a user and going back shows the same screen as before |

## Left out

- Exceptions thrown by the store, the identity provider or the signer, and the `catch` blocks that turn them into 500 answers, are not modelled. The signer's failure is the exception: it is a parameter of `UploadPresign.Presign`.
- A failed store write (`!createPlatform`, `!addDepositOnPlatform`, `!updateProfitForUser`) cannot happen in the in-memory store, so the 400 and 401 answers after a write are not modelled.
- Ledger.StoreProfit: a profit update for a user row that does not exist answers 500. The store would throw there; the statuses of the modelled branches are as written.
- Affiliate.DashboardData: the 404 for a missing user row is not modelled. The row is found by the session's own id, which always exists in a one-step model.
- Asynchronous steps are atomic. Each `await` splits a handler into a `Begin…` and a `Complete…` method, and the network outcome is a parameter. Races between two clients are not modelled.
- Rendering, styling, icons, dialogs, scrolling, the carousel's slide offsets, captions and time stamps are left out. Only the computed values behind them are modelled.
- SWR polling, `fetch`, `mutate`, `setTimeout`, `URL.createObjectURL`, clipboard writes, `MediaRecorder` and `getUserMedia` are left out. The recording is kept only as its size, named by the clock reading.
- Clerk, Prisma and the S3 signer are foreign libraries. They are replaced by an identity parameter, the in-memory store and a `sign` function parameter.
- The clock (`Date.now()`, `new Date()`) is a parameter. New record ids are parameters too.
- Floating point: form amounts are exact reals. `parseFloat` reads a decimal literal after leading blanks and an optional sign; exponents, `Infinity` and hexadecimal text are not modelled. Ledger amounts are integers.
- `JSON.stringify` of a non-integer index and `typeof index === "number"` on a non-integer number are not modelled. A template index is absent, not a number, or an integer.
- AdminChat.FilterChats: the chat list route sends `firstName` and `lastName` but no `name`, so the search effectively matches the email only. The model keeps the `name` field for fidelity, and `AdminChat.NamelessMatchesEmailOnly` states the consequence.
- AdminChat.FilterChats: `toLowerCase` is modelled by `JsString.LowerChar`, which lowers exactly A-Z, U+00C0-U+00DE without U+00D7, U+0391-U+03A9 without U+03A2, and U+0400-U+042F. Every other capital is kept as it is: the accented Greek capitals U+0386 and U+0388-U+038F, U+03AA-U+03AB and the rest of the Greek block, Cyrillic U+0460-U+04FF (such as U+0490), Latin Extended, Armenian, Georgian and every other script. The context rules and length-changing mappings are missing too: a final capital sigma becomes 'ς' in the program, and 'İ' becomes two characters. A search on such names can differ from the program's.
- UserTransactionList.FilterUsers: the same case mapping as `AdminChat.FilterChats`, with the same missing ranges, final sigma and length-changing mappings.
- AdminChat.PreviewText: when the 35th code unit is the first half of a surrogate pair, `slice(0, 35)` keeps that lone half; a Dafny string holds whole characters only, so the model's preview stops one code unit earlier.
- The deposit form clears the submission error on every edit. The withdrawal form clears it from an effect that runs only when a field changed. `AmountForms.AmountModal.FlagAfterEdit` keeps that difference.
- The user-list route's answers enter only as `UserTransactionList.FetchOutcome`: a body with or without `users`. The route's store query is not modelled.
- The store's default for a new user's `affiliateCode` is not part of this model: a registered row has none until one is stored.
- src/actions/workspace.ts, the middleware, the layouts and the navigation components are not part of this model.

## Findings

| source | as written | input that shows it | evidently intended | confidence | as-written member | corrected member |
|---|---|---|---|---|---|---|
| src/app/api/transactions/route.ts:39-41 | a page whose length equals `take` reads its last item's id, even when the page is empty | `take=0` from a signed-in user: the empty page has length 0, reading item -1 throws, and the handler answers 500 | a next cursor only for a full, non-empty page | not executed | TransactionPages.ZeroTakeFails | TransactionPages.TransactionsPageFixed |
| src/app/admin/components/DepositFormModal.tsx:190-194 | with several '.', every piece after the first is merged into the fraction without a length limit | "1.2.345" becomes "1.2345" | at most two fraction digits, as with a single '.' | not executed | AmountFormat.SeveralDotsKeepLongFraction | AmountFormat.FormatCurrencyFixed |
| src/app/admin/components/DepositFormModal.tsx:146-149 | submitting starts before the missing conversation is checked, and the early return never ends it | a valid form with no `chatId`: it stays submitting, and closing is refused | check the conversation before entering the submitting state | not executed | AmountForms.SubmitWithoutChatLocks | AmountForms.AmountModal.HandleSubmitFixed |
| src/app/admin/components/UserTransactionList.tsx:60-61 | the answer's `users` is stored whatever the status | the list route answers 401 `{ error }` (no `users`): the list becomes undefined, and the list view throws at `filteredUsers.length` (or at `users.filter` with a search term) | an answer without users shows an empty list | not executed | UserTransactionList.ErrorAnswerCrashes | UserTransactionList.UserList.CompleteFetchFixed |
