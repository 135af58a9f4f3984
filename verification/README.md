# Treasury dashboard — Dafny model of its record rules

The dashboard is a browser application for a university treasury. It keeps
suppliers (fornecedores) and their payments (pagamentos) with an audit
history. It also keeps a monthly petty-cash fund (fundo de maneio), an
approval workflow for payments, bank statements to reconcile against the
payments, revenue (receitas), monthly budgets (previsões orçamentais), an
income statement, a list of payments awaiting fiscal documents,
notifications, and a user store with sign-in.

Under the React and browser-storage plumbing these features are small,
deterministic transformations of lists of records. This project states each
of them as a pure Dafny function over immutable sequences and proves what
the screens rely on:

- the approval state machine keeps its shape and always makes progress;
- petty-cash balances never go negative through a checked withdrawal;
- a payment added and then removed leaves the ledger as it was;
- a reconciliation followed by an unreconciliation reopens the payment;
- the income-statement reports add up to its totals;
- permission toggles, password resets and sign-in agree with each other.

Conventions:

- Money is an integer count of thousandths of a metical (`Common.MinorPerUnit`).
- Dates are `(year, month, offset)` triples, ordered lexicographically.
- Fresh ids, "now" and already-formatted date texts are parameters.
- A collection read back from browser storage is `Missing`, `Corrupt` or `Parsed(items)`.

Modules, one per file:

- `Common`: options, stored collections, dates, money.
- `Text`: lower-casing, substring search, the observation-note pattern, decimal digits.
- `Domain`: suppliers, payments, cheques, bank transactions, users.
- `Ledger`: payment add, update, remove and move, with history.
- `PettyCash`: the monthly fund buckets.
- `Access`: the permission table and the user-store guards.
- `Workflow`: the approval state machine.
- `Notifications`: the notification panel.
- `PaymentActions`: the actions of the payments table.
- `ChequeText`: cheque-number extraction.
- `Reconciliation`: automatic and manual bank reconciliation.
- `StatementImport`: the mapping of statement rows.
- `Grouping`: the per-key totals behind the reports.
- `Budget`, `Revenue`, `IncomeStatement`, `Documents`: the pages of the same names.
- `Auth`: the authentication hook.
- `UserAdmin`: the user-management page.

## Model

| member | source | states |
|---|---|---|
| Workflow.UserLevel | components/workflow-aprovacao.tsx:43-59 | no user has no level; each role maps to its level in both directions (tesoureira to treasurer, directora financeira and admin to financial director, reitor to rector), and only a regular user has none |
| Workflow.InitialLevel | components/solicitar-aprovacao.tsx:52-59 | a request starts at the treasurer exactly when it is petty cash, otherwise at the financial director, never at the rector |
| Workflow.Description | components/solicitar-aprovacao.tsx:82 | the base text alone when there is no extra text, otherwise base + "\n\nInformações adicionais: " + extra |
| Workflow.NewWorkflow | components/solicitar-aprovacao.tsx:71-90 | a new workflow is pending, has no steps, sits at the initial level of its type and records the acting username |
| Workflow.Submit | components/solicitar-aprovacao.tsx:61-105 | with no user nothing is stored; otherwise the stored list, read as empty when absent or unparseable, gains exactly the new workflow at the end |
| Workflow.Route | components/workflow-aprovacao.tsx:124-144 | the routing table per approver level and type; the result is always approved or waiting-next-level, never pending or rejected |
| Workflow.NextLevelRole | components/workflow-aprovacao.tsx:164-169 | the notification target of a waiting workflow is the role name of its new level |
| Workflow.ReplaceById | components/workflow-aprovacao.tsx:154 | every workflow with the decided id becomes the decided one, every other is kept, and the length is kept |
| Workflow.Approved1 | components/workflow-aprovacao.tsx:114-152 | the approved workflow takes the routed status and level and one approved step at the end; no other field changes |
| Workflow.Approve | components/workflow-aprovacao.tsx:112-184 | one approved step is appended with earlier steps kept as a prefix; only the workflow with that id changes; the mark-paid question is asked exactly when fully approved; a waiting workflow with notifications on adds one approval notification for the next level's role |
| Workflow.Reject | components/workflow-aprovacao.tsx:246-283 | status becomes rejected, the current level is kept, one rejected step is appended; only that workflow changes; with notifications on, the stored notifications are kept in order and one unread "Pagamento Rejeitado" warning for "all" follows them; with notifications off nothing is sent |
| Workflow.ToggleNotifications | components/workflow-aprovacao.tsx:329-335 | only the notifications flag of the workflows with that id is flipped; all other workflows and fields are kept |
| Workflow.ChangePaymentStatus | components/workflow-aprovacao.tsx:187-244 | "no" leaves the suppliers unchanged; "yes" with the payment found updates it through the ledger as marked paid by the workflow, and `Workflow.MarkPaidIsFound` shows the workflow then finds it paid; a missing payment changes nothing; otherwise, with notifications on, the stored notifications are kept in order and one unread info notification for "all" follows, titled "Pagamento Aprovado e Marcado como Pago" after "yes" and "Pagamento Aprovado" after "no"; with notifications off nothing is sent |
| Workflow.PaymentOf | components/workflow-aprovacao.tsx:191-193 | the payment found is at the first position of the first supplier with the workflow's supplier id that has the workflow's payment id; nothing is found exactly when that supplier is missing or holds no such payment |
| Workflow.PaymentOfAt | components/workflow-aprovacao.tsx:191-193 | the payment at the first position holding the payment id, in the first supplier with the supplier id, is the one the workflow finds |
| Workflow.UpdateIsFound | components/workflow-aprovacao.tsx:191-204 | after the ledger update of the payment a workflow finds, the workflow finds the new record, with only its history differing |
| Workflow.MarkPaidIsFound | components/workflow-aprovacao.tsx:187-204 | answering "yes" leaves the payment where the workflow finds it, paid on the given date with the approval note appended |
| Workflow.MarkedByWorkflow | components/workflow-aprovacao.tsx:195-204 | the payment becomes paid today with "Aprovado por workflow em <date>" appended to its observations; nothing else changes |
| Workflow.SubmitWellFormed | components/solicitar-aprovacao.tsx:71-90 | a submitted workflow satisfies the workflow invariant (level matches type, pending means no steps, at most two steps, step statuses match the outcome) |
| Workflow.ApproveKeepsWellFormed | components/workflow-aprovacao.tsx:124-152 | approving a well-formed workflow that the approver may decide keeps the invariant |
| Workflow.RejectKeepsWellFormed | components/workflow-aprovacao.tsx:259-265 | rejecting a well-formed workflow keeps the invariant |
| Workflow.ApproveMakesProgress | components/workflow-aprovacao.tsx:124-144 | on a well-formed workflow an approval either finishes it or moves it to a different level |
| Workflow.DecidableIsInPendingTab | components/workflow-aprovacao.tsx:95-101 | a non-terminal workflow the user may decide is listed under the "pendentes" tab |
| Workflow.TabsSplit | components/workflow-aprovacao.tsx:94-107 | for `InTab`: "todos" lists every workflow, a decided workflow is listed under exactly one of "aprovados" and "rejeitados", and "pendentes" lists only undecided ones |
| Workflow.RectorOverride | components/workflow-aprovacao.tsx:141-144 | for `CanApprove`: a rector may decide any open bank operation, even one at the financial director, and the approval finishes it |
| Workflow.ToggleTwice | components/workflow-aprovacao.tsx:329-335 | toggling notifications twice restores the workflow list |
| Workflow.BankOperationScenario | components/workflow-aprovacao.tsx:112-244 | a 15,000 bank operation goes director, then rector, ends approved with two steps, and declining to mark it paid leaves the suppliers unchanged |
| Ledger.ActorOf | contexts/AppContext.tsx:255-256 | the history's user id falls back to "1" and its name to the full name, then the username, then "Admin User"; neither is ever empty |
| Ledger.Without | contexts/AppContext.tsx:352-357 | the payments kept are exactly those with another id, and a list without that id is unchanged; `Ledger.WithoutAppend` and `Ledger.WithoutSingle` give their order and multiplicity |
| Ledger.WithoutAppend | contexts/AppContext.tsx:352-358 | removal works piecewise over a concatenation of payment lists |
| Ledger.WithoutSingle | contexts/AppContext.tsx:352-358 | one payment is kept exactly when its id differs |
| Ledger.ReplaceById | contexts/AppContext.tsx:315-317 | every payment with the id becomes the new record in its place; the others and the length are kept |
| Ledger.AdicionarPagamento | contexts/AppContext.tsx:253-283 | each supplier with the id gets the payment last, carrying a one-entry create history; other suppliers are unchanged; an unknown supplier id changes nothing |
| Ledger.AtualizarPagamento | contexts/AppContext.tsx:285-322 | an unknown supplier changes nothing; otherwise each payment with the id, in the suppliers with that id, becomes the new record carrying the earlier history plus one update entry; all other payments are kept |
| Ledger.RemoverPagamento | contexts/AppContext.tsx:325-362 | each supplier with the id ends with exactly `Without` of its own payments, in order; the others are unchanged |
| Ledger.MoverPagamento | contexts/AppContext.tsx:554-581 | a missing origin, destination or payment changes nothing; suppliers other than the two are unchanged; otherwise the origin suppliers lose every payment with the id and the destination suppliers gain the origin's first such payment at the end |
| Ledger.GetHistoryForEntity | contexts/AppContext.tsx:239-250 | other entity types have no history; for payments, the history is that of the first payment with the id in the first supplier holding one, and empty when no supplier holds one |
| Ledger.FirstHistory | contexts/AppContext.tsx:242-247 | the history of the first payment with the id in the first supplier that holds one; empty when no supplier holds one |
| Ledger.AddThenRemove | contexts/AppContext.tsx:253-362 | adding a payment with a new id, then removing that id from the same supplier, restores the ledger |
| Ledger.MovePreservesCount | contexts/AppContext.tsx:554-581 | between distinct existing suppliers the total number of payments is kept and the payment is last in the destination |
| Ledger.MoveIsTwoUpdates | contexts/AppContext.tsx:554-581 | between distinct suppliers with unique ids, the move is removal from the origin's position followed by appending the payment at the destination's position |
| Ledger.MoveToSameSupplierDrops | contexts/AppContext.tsx:566-571 | a move to the same supplier removes the payment |
| Ledger.EditToOtherSupplierResetsHistory | components/pagamentos-table.tsx:302-307 | changing a payment's supplier in the edit dialog leaves the new copy with only the create entry as history |
| Ledger.EditRouting | components/pagamentos-table.tsx:302-310 | names and ids are kept and uninvolved suppliers are unchanged; a new supplier id removes the payment from the old supplier and appends it with a fresh create history to the new one; the same supplier id updates it in place, keeping the other payments |
| Ledger.UpdateExtendsHistory | contexts/AppContext.tsx:290-318 | an update keeps the earlier history as a prefix and adds one update entry holding the previous state |
| Ledger.HistoryAfterAdd | contexts/AppContext.tsx:239-283 | after adding a payment with a new id, its history reads back as the single create entry |
| Access.UserPermissions | contexts/AppContext.tsx:175-236 | admin gets the full list and a regular user the basic five; every role's list lies inside the full list and contains the basic five |
| Access.AddUser | contexts/AppContext.tsx:443-451 | a non-administrator changes nothing; an administrator appends the user with the fresh id |
| Access.Enforced | contexts/AppContext.tsx:469-472 | a record with the special e-mail is stored as admin; any other record is kept |
| Access.UpdateUser | contexts/AppContext.tsx:463-476 | a non-administrator changes nothing; otherwise every user with the id becomes the enforced record and the rest are kept |
| Access.WithoutUser | contexts/AppContext.tsx:498 | the users kept are exactly those with another id, and a list without that id is unchanged; `Access.WithoutUserAppend` and `Access.WithoutUserSingle` give their order and multiplicity |
| Access.FindUser | contexts/AppContext.tsx:492 | the user found is the first with the id; none is found only when no user has it |
| Access.DeleteUser | contexts/AppContext.tsx:478-499 | refused (no change) for a non-administrator, for deleting oneself, or for the special account, judged on the first user with the id; otherwise the result is `WithoutUser` of the list |
| Access.WithoutUserAppend | contexts/AppContext.tsx:498 | removal works piecewise over a concatenation of user lists |
| Access.WithoutUserSingle | contexts/AppContext.tsx:498 | one user is kept exactly when its id differs |
| Access.AddThenDelete | contexts/AppContext.tsx:443-499 | an administrator adding a user with an unused id and then deleting it restores the list, unless the deletion is refused for the special account or for oneself |
| Access.FindUserAppended | contexts/AppContext.tsx:492 | a user appended with an unused id is the one found for its id |
| Access.AdminHasEveryPermission | contexts/AppContext.tsx:501-552 | for `IsAdmin` and `HasPermission`: whoever passes the administrator test (the special account, an admin, or with no user a stored admin session) holds every permission |
| Access.PermissionIsTableMembership | contexts/AppContext.tsx:545-551 | for `HasPermission`: for a signed-in, non-special, non-admin user a permission is held exactly when it is in the role's list |
| Access.ApprovalPermissionsByRole | contexts/AppContext.tsx:175-236 | "approve_bank_operations" goes exactly to admin, reitor and directora financeira; "approve_petty_cash" exactly to admin and tesoureira |
| Access.UpdateKeepsSpecialAdmin | contexts/AppContext.tsx:463-476 | if every special-account record is admin, it stays so after any update |
| Access.DeleteKeepsSpecial | contexts/AppContext.tsx:491-495 | with unique ids no deletion removes the special account |
| Auth.WithoutPassword | hooks/use-auth.ts:142 | the session record keeps every field of the user but the password, custom permissions included |
| Auth.FirstWhere | hooks/use-auth.ts:110-115 | the position found satisfies the test and every earlier one fails it; no position means none satisfies it |
| Auth.LoginUsers | hooks/use-auth.ts:88-104 | sign-in searches the stored list, or the four defaults when the entry is absent or unparseable |
| Auth.Login | hooks/use-auth.ts:85-172 | no match fails with invalid credentials; an inactive first match fails as disabled; an active one signs in without its password, the special account as admin; the stored list is unchanged unless the match is promoted, and then exactly the match and the first user sharing its id (the same object in the source) become the promoted record |
| Auth.NewAdmin | hooks/use-auth.ts:192-201 | the registered user is an active admin with the given name, password and id, with no pending password change |
| Auth.Register | hooks/use-auth.ts:184-232 | an unparseable store fails; an existing admin refuses; otherwise the list, absent read as empty, gains the new admin at the end and the session is that admin |
| Auth.ResetPassword | hooks/use-auth.ts:249-289 | an unparseable store fails; an unknown name fails and writes nothing; otherwise only the first identified user gets the new password and no pending change |
| Auth.WithSpecialAdmin | hooks/use-auth.ts:43-68 | afterwards a special-account admin exists; the list grows by at most one; only the first special record may change, and only to admin; with none the special account is appended |
| Auth.Promote | hooks/use-auth.ts:46-52 | the record at the found position becomes admin; nothing else changes |
| Auth.AddSpecial | hooks/use-auth.ts:53-68 | the special account is appended as admin |
| Auth.Seeded | hooks/use-auth.ts:33-41 | an empty list is replaced by the defaults; any other is kept |
| Auth.Init | hooks/use-auth.ts:33-68 | a garbled session entry or an unparseable user store fails, since one try block covers both; otherwise a special-account admin exists and a non-empty list only grows by at most one and only has special records promoted |
| Auth.SpecialEmailOfSpecialUser | hooks/use-auth.ts:55-64 | the special account's stored spelling "V.mondlane1@gmail.com" lower-cases to the special address |
| Auth.InitSeedsDefaults | hooks/use-auth.ts:36-52 | on an empty store initialisation yields exactly the four defaults, whose special account already is admin |
| Auth.PromotedIsFixed | hooks/use-auth.ts:46-52 | when the first special record already is admin the repair writes the list back unchanged |
| Auth.FirstWhereIs | hooks/use-auth.ts:110-115 | the first position satisfying the test is the one found |
| Auth.InitLeavesAdmin | hooks/use-auth.ts:70-72 | after initialisation some administrator exists |
| Auth.RegisterLeavesOneAdmin | hooks/use-auth.ts:187-205 | a successful registration leaves exactly one admin, the new last user |
| Auth.RegisterOnce | hooks/use-auth.ts:187-190 | a second registration on the stored result is refused |
| Auth.ResetThenLogin | hooks/use-auth.ts:110-125 | after a reset, signing in with the same name and the new password reaches the reset account and succeeds exactly when it is active |
| Auth.HookWithinContext | hooks/use-auth.ts:234-247 | the hook never grants what the context's permission table withholds from the same user |
| Auth.HookPermissionCases | hooks/use-auth.ts:234-247 | for `HookHasPermission`: no user has no permission, an admin has all, anyone else exactly the five basic ones |
| UserAdmin.AddUserHandler | components/user-management.tsx:180-195 | a form without name, full name or password, or a non-admin caller, changes nothing; otherwise the user is appended active, with a pending password change and no custom permissions |
| UserAdmin.ToggleStatus | components/user-management.tsx:205-212 | only the active flag of the account's record is flipped; other users are kept |
| UserAdmin.EditUser | components/user-management.tsx:214-224 | no selection changes nothing; otherwise each record with the id becomes the edited one, the special account kept admin |
| UserAdmin.ResetPasswordHandler | components/user-management.tsx:226-238 | no selection or an empty password changes nothing; otherwise the account gets the password and a pending change; other users are kept |
| UserAdmin.ForcePasswordChange | components/user-management.tsx:240-247 | only the pending-change flag is raised |
| UserAdmin.Remove | components/user-management.tsx:265 | the kept permissions are exactly those other than the removed one, with every occurrence of it gone; `UserAdmin.RemoveAppend` and `UserAdmin.RemoveSingle` give their order |
| UserAdmin.TogglePermission | components/user-management.tsx:262-270 | a checked permission loses every occurrence, an unchecked one is appended; membership flips for it and for no other |
| UserAdmin.ToggleAbsentTwice | components/user-management.tsx:262-270 | checking then unchecking a permission restores the list exactly |
| UserAdmin.TogglePresentTwice | components/user-management.tsx:262-270 | on a list without duplicates, unchecking then checking restores the same permissions, but the list itself only when the permission was already last |
| UserAdmin.ToggleStatusTwice | components/user-management.tsx:205-212 | switching an account twice from its listed record restores the store |
| UserAdmin.ForceIdempotent | components/user-management.tsx:240-247 | forcing a change again on the record it produced changes nothing |
| UserAdmin.ResetThenSignIn | components/user-management.tsx:226-238 | after an administrator's reset, signing in with the new password reaches the account, which must then change its password |
| UserAdmin.AddedAccountMustChangePassword | components/user-management.tsx:180-182 | a new account starts active with a pending password change, and an empty e-mail does not block it |
| UserAdmin.AddHandlerThenDelete | components/user-management.tsx:180-203 | a user added from the form with an unused id and then deleted leaves the list as it was, unless the deletion is refused |
| Text.Lower | hooks/use-auth.ts:112-113 | lower-casing keeps the length and maps each character on its own (ASCII and Latin-1 capitals to small letters, others unchanged) |
| Text.ContainsAt | components/reconciliacao-bancaria.tsx:195 | `includes` holds exactly when the pattern occurs at some position of the text |
| Text.ContainsSuffix | components/reconciliacao-bancaria.tsx:195 | a text contains anything it ends with, whatever comes before |
| Text.AppendNote | components/workflow-aprovacao.tsx:200 | an empty prior note gives the new note alone; otherwise the prior note, then a space, a vertical bar and a space, then the new note, which always ends the result |
| Text.NatToString | components/reconciliacao-bancaria.tsx:447 | the decimal spelling of a number: non-empty digits, no leading zero unless the number is zero, whose value read back as decimal is the number |
| Domain.AllPayments | components/reconciliacao-bancaria.tsx:163-169 | the flat list holds as many entries as the suppliers hold payments, each a payment of a supplier with the recorded id |
| Domain.AllPaymentsAppend | components/reconciliacao-bancaria.tsx:163-169 | the flat list of a concatenation of suppliers is the concatenation of their flat lists |
| Domain.AllPaymentsSingle | components/reconciliacao-bancaria.tsx:163-169 | one supplier contributes its payments in its own order, each tagged with its id and name |
| Domain.AllPaymentsSplit | components/reconciliacao-bancaria.tsx:163-169 | splitting one supplier's payments in two splits its flat list the same way |
| Domain.FindLocated | components/reconciliacao-bancaria.tsx:313 | a found entry is the first in the flat list with the id; no result means no entry has it |
| Domain.FindFornecedor | components/pagamentos-table.tsx:734 | a found supplier is stored and has the id; no result means none has it |
| Domain.FindPagamento | contexts/AppContext.tsx:242-247 | a found payment is in the list and has the id; no result means none has it |
| Domain.RoleNameInjective | types/user.ts:2 | two roles have the same stored spelling exactly when they are the same role |
| Domain.FindChequeByNumero | components/reconciliacao-bancaria.tsx:444 | a found cheque is registered with that number; no result means none has it |
| PettyCash.Signed | contexts/AppContext.tsx:412-415 | an entrada adds its amount and a saida subtracts it |
| PettyCash.FindBucket | contexts/AppContext.tsx:395-399 | the bucket found is the first stored bucket of the month; no result means no bucket is for the month |
| PettyCash.AdicionarMovimento | contexts/AppContext.tsx:366-441 | a missing type, a missing or zero amount, or a saida above an existing month's balance is turned away with nothing changed and no id; otherwise the id is returned, and either the month's bucket gains the movement last with its balance moved by the signed amount, other buckets unchanged, or a new bucket opens at 0 holding just the movement |
| PettyCash.NetOfAppend | contexts/AppContext.tsx:407-416 | appending a movement moves the net of a bucket by its signed amount |
| PettyCash.AddKeepsBalanced | contexts/AppContext.tsx:404-432 | every bucket's closing balance stays its opening balance plus the net of its movements |
| PettyCash.ExistingBucketStaysNonNegative | contexts/AppContext.tsx:400-404 | when the month's bucket exists, positive amounts cannot bring any balance below zero |
| PettyCash.NewBucketWithdrawalUnchecked | contexts/AppContext.tsx:420-432 | a saida for a month without a bucket is accepted and opens that bucket with a negative balance |
| PettyCash.MarchScenario | contexts/AppContext.tsx:366-441 | 5,000 in, then 6,000 out refused, then 4,000 out leaves 1,000 |
| Notifications.Send | components/workflow-aprovacao.tsx:285-316 | the stored list, read as empty when absent or unparseable, gains exactly one unread record at the end with the given texts, target, kind and time; it is high priority exactly when it is an approval |
| Notifications.VisibleOnly | components/notificacoes.tsx:45-48 | a notification is shown exactly when it is stored and is untargeted, targeted at "all" or at the user's role; `Notifications.VisibleOnlyAppend` and `Notifications.VisibleOnlySingle` give the stored order and multiplicity |
| Notifications.UnreadCount | components/notificacoes.tsx:57 | the count never exceeds the list and is zero exactly when every notification is read; `Notifications.UnreadCountAppend` and `Notifications.UnreadCountSingle` make it the number of unread entries |
| Notifications.Load | components/notificacoes.tsx:33-57 | an absent or unparseable store keeps the panel; otherwise it shows exactly `VisibleOnly` of the stored list, its unread count, and the urgency flag exactly when a visible unread one is urgent |
| Notifications.VisibleByRole | components/notificacoes.tsx:46-48 | for `Visible`: an untargeted notification or one for "all" is shown to everyone, and a targeted one exactly to its role |
| Notifications.VisibleOnlyAppend | components/notificacoes.tsx:46-48 | the role filter works piecewise over a concatenation |
| Notifications.VisibleOnlySingle | components/notificacoes.tsx:46-48 | one notification is shown exactly when it is visible to the role |
| Notifications.UnreadCountAppend | components/notificacoes.tsx:57 | the unread count adds up over a concatenation |
| Notifications.UnreadCountSingle | components/notificacoes.tsx:57 | one notification counts one exactly when unread |
| Notifications.SendThenLoad | components/notificacoes.tsx:33-57 | after a send, loading shows what it showed before plus the new notification exactly when visible to the role, counts it unread, and flags an approval as high priority |
| Notifications.MarkRead | components/notificacoes.tsx:96-101 | the records with the id become read; all others are kept |
| Notifications.MarkAll | components/notificacoes.tsx:130-132 | every record becomes read and nothing else changes |
| Notifications.MarkAsRead | components/notificacoes.tsx:91-123 | the id is marked read in the store and the panel, the count drops by one but not below zero, and the urgency flag is recomputed from the updated store for the user's role |
| Notifications.MarkAllAsRead | components/notificacoes.tsx:125-145 | with a readable store, the store and the panel hold the same notifications in the same order, each now read and otherwise unchanged; every one is read, the count is zero and nothing is urgent; an absent or unparseable store changes nothing |
| Notifications.Insert | components/notificacoes.tsx:187-200 | inserting adds the notification to the multiset of the list |
| Notifications.SortForDisplay | components/notificacoes.tsx:187-200 | the displayed list is a permutation of the panel's list ordered by the display comparator |
| Notifications.CompareAntisymmetric | components/notificacoes.tsx:187-200 | for `Compare`: swapping the two notifications negates the comparison |
| Notifications.BeforeTransitive | components/notificacoes.tsx:187-200 | the display order is transitive |
| Notifications.InsertKeepsSorted | components/notificacoes.tsx:187-200 | inserting into a list in display order keeps it in display order |
| Notifications.BeforeMeansOrder | components/notificacoes.tsx:187-200 | one notification precedes another exactly when it is unread and the other read, or else urgent and the other not, or else at least as recent |
| Notifications.MarkAllIdempotent | components/notificacoes.tsx:125-145 | marking all read a second time changes nothing |
| Notifications.ReloadAfterMarkAll | components/notificacoes.tsx:125-145 | after marking all read a reload shows nothing unread and nothing urgent |
| Notifications.MarkAsReadLowersUnread | components/notificacoes.tsx:96-101 | marking one id read never raises the unread count |
| PaymentActions.RequiredDocument | components/pagamentos-table.tsx:399 | a payment's required document is the one it records, an invoice when unset |
| PaymentActions.MarkedPaid | components/pagamentos-table.tsx:401-413 | the payment is paid today; an invoice resets the invoice and receipt flags, a sale document resets its flag, no document touches no flag, and nothing else changes |
| PaymentActions.HandleMarkAsPaid | components/pagamentos-table.tsx:396-415 | an unknown payment id changes nothing; otherwise the found payment, marked paid, is stored through the ledger update under the given supplier |
| PaymentActions.FindWorkflow | components/pagamentos-table.tsx:485 | a found workflow is stored and is for the payment; no result means none is |
| PaymentActions.VerificarWorkflowAprovacao | components/pagamentos-table.tsx:471-497 | an absent or unparseable store answers no; otherwise the answer is yes exactly when the first stored workflow for the payment is approved |
| PaymentActions.FirstWorkflowIndex | components/pagamentos-table.tsx:485 | the workflow found is the one at the first position holding the payment's id, and that position's workflow is always the one found |
| PaymentActions.MarkPaidGate | components/pagamentos-table.tsx:682-710 | for `RequiresApproval`: marking proceeds exactly when no approval is needed, or an approved workflow exists, or the user declines the offer and may approve bank operations; it redirects exactly when approval is needed, missing, and the offer is accepted |
| PaymentActions.TransactionFor | components/pagamentos-table.tsx:733-790 | the copy has id "pag-" + payment id, is a reconciled debit of the payment's amount and method dated on its payment date or today, described as "Pagamento por cheque - " for a cheque payment with non-empty observations, "Transferência bancária - " for a plain transfer, and "Pagamento - " otherwise (a cheque payment with empty observations included), then the supplier name, " - " and the reference; it carries a cheque number only for a cheque payment, read from its observations, and the id of a registered cheque with that number |
| PaymentActions.RegisteredId | components/pagamentos-table.tsx:757-770 | the id returned is that of the first registered cheque with the number; a registered cheque with the number always yields an id |
| PaymentActions.Upsert | components/pagamentos-table.tsx:792-807 | with no transaction linked to the payment the new one is appended; otherwise every linked one is replaced by it and the rest kept |
| PaymentActions.AdicionarTransacaoBancaria | components/pagamentos-table.tsx:733-815 | an unknown supplier changes nothing; otherwise the stored list holds the new transaction, upserted into a parseable list or replacing an absent or unparseable one |
| PaymentActions.MarcarComoPago | components/pagamentos-table.tsx:682-726 | unless the gate proceeds nothing changes; otherwise the payment is stored paid today and exactly cheque and unaccented transfer payments are copied to the bank transactions |
| PaymentActions.PagarComFundoManeio | components/pagamentos-table.tsx:499-554 | with no selection nothing changes; a withdrawal the petty-cash ledger turns away leaves the payment as it was; an accepted one stores the payment paid today from petty cash, pointing at the movement, with a note appended |
| PaymentActions.PagarKeepsBalanced | components/pagamentos-table.tsx:499-554 | paying from petty cash keeps every bucket balanced; when the withdrawal is accepted, the supplier's payments with the id are paid from petty cash and linked to the new movement |
| PaymentActions.WithdrawalFor | components/pagamentos-table.tsx:511-523 | the request is a saida of the payment's amount dated today, linked to the payment, its reference and its supplier, described by the given text or else "Pagamento a " + supplier name + " - Ref: " + reference |
| PaymentActions.WithCheque | components/pagamentos-table.tsx:639-643 | the payment becomes a cheque payment with the emission note appended to its observations; nothing else changes |
| PaymentActions.SalvarCheque | components/pagamentos-table.tsx:629-675 | missing selection, number or date changes nothing; otherwise the payment is updated and, unless the registry is unparseable, one pending cheque for it is appended to the registry |
| PaymentActions.RemoverReferenciaCheque | components/pagamentos-table.tsx:358-375 | every cheque pointing to the payment loses its payment reference; the other cheques are kept |
| PaymentActions.FirstMovement | components/pagamentos-table.tsx:335-344 | the position found is that of the first movement with the id, bucket by bucket; no result means no movement has it |
| PaymentActions.FirstIndex | components/pagamentos-table.tsx:336 | the index found is the first movement with the id; no result means none has it |
| PaymentActions.RemoverReferenciaFundoManeio | components/pagamentos-table.tsx:324-349 | only the first movement with the id loses its payment reference; every other movement and every bucket field is kept |
| PaymentActions.ClearChequeStore | components/pagamentos-table.tsx:358-375 | an unparseable registry throws; otherwise the registry is rewritten with the references cleared when some cheque pointed to the payment, and left as stored when none did |
| PaymentActions.ClearFundoStore | components/pagamentos-table.tsx:324-349 | unparseable buckets throw; otherwise they are rewritten with the first matching movement detached when one exists, and left as stored when none does |
| PaymentActions.FinishEdit | components/pagamentos-table.tsx:264-310 | the suppliers are updated exactly when no unguarded read throws and the old supplier is known, and then by the routing of the payment, stripped of its petty-cash id when it leaves petty cash; the petty-cash store is cleared exactly when the payment leaves it and the store parses; the cheque registry is cleared exactly when the payment leaves cheque and no earlier read threw |
| PaymentActions.UpsertIdempotent | components/pagamentos-table.tsx:792-807 | copying the same paid payment twice is the same as once |
| PaymentActions.UpsertGrowsIffNew | components/pagamentos-table.tsx:795-806 | the transaction list grows by one exactly when no transaction was linked to the payment, and keeps its length otherwise |
| PaymentActions.UpsertLinksOnlyNew | components/pagamentos-table.tsx:795-806 | afterwards every transaction linked to the payment is the new one |
| PaymentActions.RemoverReferenciaChequeClears | components/pagamentos-table.tsx:358-375 | afterwards no cheque points to the payment, and clearing again changes nothing |
| PaymentActions.RemoverReferenciaKeepsBalances | components/pagamentos-table.tsx:324-349 | clearing a movement's reference keeps every bucket's balance consistent with its movements |
| PaymentActions.FinishEditUnlinksCheques | components/pagamentos-table.tsx:296-310 | after a completed edit that moves a payment off cheque, no stored cheque points to it |
| PaymentActions.FinishEditKeepsBalances | components/pagamentos-table.tsx:264-275 | whatever the edit does to the petty-cash store, balanced buckets stay balanced |
| PaymentActions.NetOfSameAmounts | contexts/AppContext.tsx:412-415 | movements that agree on type and amount have the same net effect |
| PaymentActions.ChequeNumberReachesTransaction | components/pagamentos-table.tsx:733-756 | a cheque issued on a payment whose observations mention no cheque, once paid, has its number copied to the bank transaction |
| PaymentActions.TransferSpellingQuirk | components/pagamentos-table.tsx:684-720 | an accented transfer needs approval but is never copied to the bank transactions; an unaccented one needs no approval and is copied |
| ChequeText.WsEnd | components/pagamentos-table.tsx:748 | the run found is white space throughout and cannot be extended |
| ChequeText.DigitEnd | components/pagamentos-table.tsx:748 | the run found is digits throughout and cannot be extended |
| ChequeText.DigitsAfterWs | components/pagamentos-table.tsx:750 | a capture of optional white space then digits is a non-empty digit string |
| ChequeText.NumberedAt | components/pagamentos-table.tsx:748-749 | a match of the word, white space, "n", an optional ordinal sign and digits starts with the word, ignoring case, and captures a non-empty digit string |
| ChequeText.MatchAt | components/pagamentos-table.tsx:748-750 | a match of any of the three patterns captures a non-empty digit string and starts with "cheque" or "ch" as the pattern says |
| ChequeText.FirstSome | components/pagamentos-table.tsx:748-750 | the result is the first successful attempt from the starting position on; none means no attempt there succeeded |
| ChequeText.Attempts | components/pagamentos-table.tsx:748-750 | the pattern is tried at every position of the text, the end included |
| ChequeText.FirstMatch | components/pagamentos-table.tsx:748-750 | the result is the match at the leftmost position where the pattern matches, a digit string; no result means it matches nowhere |
| ChequeText.ExtractChequeNumber | components/pagamentos-table.tsx:746-753 | the number read is a non-empty digit string taken from the first pattern in priority order that matches anywhere, at its leftmost match; there is none exactly when no pattern matches anywhere |
| ChequeText.FirstSomeAt | components/pagamentos-table.tsx:748-750 | the first result is the one at the first position that has one |
| ChequeText.FirstMatchAt | components/pagamentos-table.tsx:748-750 | the leftmost match is the one at the first position where the pattern matches |
| ChequeText.WordAtChar | components/pagamentos-table.tsx:748 | a word found at a position agrees, ignoring case, with each of its characters there |
| ChequeText.WsEndIs | components/pagamentos-table.tsx:748 | any maximal white-space run is the one found |
| ChequeText.DigitEndIs | components/pagamentos-table.tsx:748 | any maximal digit run is the one found |
| ChequeText.EmissionNoteLayout | components/pagamentos-table.tsx:643 | the emission note begins "Cheque nº ", then the number, then a space |
| ChequeText.NoteMatches | components/pagamentos-table.tsx:746-748 | the first pattern matches at the start of an emission note and captures its number |
| ChequeText.PrefixMatches | components/pagamentos-table.tsx:746-748 | "Cheque nº " supplies the word, one white-space character, the "n", the ordinal sign and a space |
| ChequeText.DigitsMatch | components/pagamentos-table.tsx:746-748 | a space, then a digit string, then a space, captures exactly the digit string |
| ChequeText.ExtractAfterEmission | components/pagamentos-table.tsx:643-753 | issuing a cheque and reading the observations back recovers its number when the earlier observations never mention "cheque" |
| ChequeText.ShortPatternExample | components/pagamentos-table.tsx:750 | "CH 12" is read as 12, by the third pattern alone |
| Reconciliation.AtualizarEstadoCheque | components/reconciliacao-bancaria.tsx:263-293 | an absent or unparseable registry is left alone; otherwise every cheque with the id takes the new state and the given clearance date, keeping its own date when none is given, and every other cheque and field is kept |
| Reconciliation.Candidates | components/reconciliacao-bancaria.tsx:182 | the candidates are exactly the listed payments that are unpaid invoices; `Reconciliation.CandidatesAppend` and `Reconciliation.CandidatesSingle` keep the list order, which decides the first fit |
| Reconciliation.CandidatesAppend | components/reconciliacao-bancaria.tsx:182 | the candidate filter works piecewise over a concatenation |
| Reconciliation.CandidatesSingle | components/reconciliacao-bancaria.tsx:182 | one payment is a candidate exactly when it is an unpaid invoice |
| Reconciliation.FirstFit | components/reconciliacao-bancaria.tsx:193-216 | the candidate found is the first one that fits the path; no result means none fits |
| Reconciliation.Specific | components/reconciliacao-bancaria.tsx:192-208 | a debit naming a cheque is matched by cheque number; otherwise one whose lower-cased text mentions "transf" or "transfer" is matched as a transfer; otherwise there is no specific path |
| Reconciliation.FindMatch | components/reconciliacao-bancaria.tsx:189-217 | when a candidate fits the transaction's own path (cheque number or transfer text), the match is the first such candidate; otherwise, while no candidate is linked by any transaction of the batch, it is the first candidate of the same amount; a match off the own path has the same amount; there is no match exactly when neither search can succeed |
| Reconciliation.LinkedTo | components/reconciliacao-bancaria.tsx:220-225 | the transaction becomes reconciled, points to the payment and takes its method; nothing else changes |
| Reconciliation.Settled | components/reconciliacao-bancaria.tsx:228-235 | the payment becomes paid at the transaction date with a space, a vertical bar, a space and the reconciliation note appended, even to empty observations |
| Reconciliation.Step | components/reconciliacao-bancaria.tsx:187-242 | only the current transaction can change, and only when it is an unreconciled debit with a match; then it is linked, its payment is paid and its named cheque is cleared; nothing paid or cleared is undone |
| Reconciliation.Run | components/reconciliacao-bancaria.tsx:187-243 | the walk keeps the length, leaves earlier positions alone, undoes nothing, every changed transaction was eligible and is now linked to a candidate that is paid, with its cheque cleared; an eligible transaction with a fitting candidate by number or text is linked to the one that fits first; up to the first transaction it changes, every transaction is linked to exactly what `FindMatch` picks against the original statement (so, while nothing is linked, the value fallback gives the first candidate of the same amount) and is left alone when that finds nothing |
| Reconciliation.ReconciliarAutomaticamente | components/reconciliacao-bancaria.tsx:181-245 | ineligible transactions are untouched; every changed transaction is reconciled and linked to an invoice that was open before the walk and is now paid, with its named cheque cleared; nothing paid or cleared is undone; an eligible transaction with a candidate fitting by number or text is linked to the first such open invoice; up to the first transaction the walk changes, each one gets exactly `FindMatch`'s pick among the open invoices, which is open and ends up paid, or is left alone |
| Reconciliation.AutoValueFallback | components/reconciliacao-bancaria.tsx:210-217 | over the whole walk, up to its first change and while no statement transaction points at an open invoice, an eligible debit whose cheque number or transfer text places nowhere is linked to the first open invoice of the same amount, which ends up paid |
| Reconciliation.FindTransacao | components/reconciliacao-bancaria.tsx:297 | a found transaction is the first with the id; no result means none has it |
| Reconciliation.Relink | components/reconciliacao-bancaria.tsx:300-308 | every transaction with the id gets the link and is reconciled exactly when the link is set; nothing else changes |
| Reconciliation.ManuallySettled | components/reconciliacao-bancaria.tsx:316-340 | the payment becomes paid at the transaction date, takes the method the transaction implies and has the matching note appended |
| Reconciliation.ReconciliarManualmente | components/reconciliacao-bancaria.tsx:296-347 | an unknown transaction changes nothing; otherwise every transaction with the id is linked; if the payment is listed, the suppliers are exactly the ledger update storing it paid under the given supplier and a named cheque of a cheque transaction is cleared, else suppliers and cheques are kept |
| Reconciliation.Reopened | components/reconciliacao-bancaria.tsx:374-378 | the payment becomes pending with no paid date; nothing else changes |
| Reconciliation.RemoverReconciliacao | components/reconciliacao-bancaria.tsx:350-378 | a missing or unlinked transaction, or a vanished payment, changes nothing; otherwise every transaction with the id is unlinked and the suppliers are exactly the ledger update storing the payment pending under its own supplier; the cheques are never touched |
| Reconciliation.UpdatePays | contexts/AppContext.tsx:285-322 | a payment written back as paid is paid in its supplier, and no paid payment is unpaid by the update |
| Reconciliation.UpdateRecords | contexts/AppContext.tsx:285-322 | the update writes its record, up to the history, into every matching slot of every supplier with the id |
| Reconciliation.ClearingKeeps | components/reconciliacao-bancaria.tsx:238-240 | clearing a named cheque clears it and leaves every cleared cheque cleared |
| Reconciliation.ClearingIdempotent | components/reconciliacao-bancaria.tsx:263-293 | setting a cheque's state twice is the same as once |
| Reconciliation.FallbackDisabledOnceLinked | components/reconciliacao-bancaria.tsx:211-216 | once any candidate is linked in the batch, a transaction whose own path finds nothing stays unmatched, even with a candidate of the same amount |
| Reconciliation.FallbackFindsSameAmount | components/reconciliacao-bancaria.tsx:211-216 | while no candidate is linked, any candidate of the same amount guarantees a match |
| Reconciliation.StaleCandidatesSettleTwice | components/reconciliacao-bancaria.tsx:182-207 | because the candidates are fixed before the walk, two transfer debits of the same amount are both linked to the one open transfer invoice |
| Reconciliation.AllPaymentsSwap | components/reconciliacao-bancaria.tsx:163-169 | replacing one payment of one supplier replaces the same entry of the flat list and no other |
| Reconciliation.FindLocatedSwap | components/reconciliacao-bancaria.tsx:313 | after such a replacement the first entry with the id is the replaced form of the one found before |
| Reconciliation.UpdateKeepsFirstShown | components/reconciliacao-bancaria.tsx:313-355 | updating the payment shown first for an id, under its own supplier, keeps it first and shows the new record with only its history extended |
| Reconciliation.RelinkFirst | components/reconciliacao-bancaria.tsx:297-308 | after relinking, the first transaction with the id carries the new link |
| Reconciliation.RelinkTwice | components/reconciliacao-bancaria.tsx:300-308 | relinking twice is relinking once with the second link |
| Reconciliation.ManualShowsPayment | components/reconciliacao-bancaria.tsx:296-340 | a manual link under the payment's own supplier leaves that payment shown first and paid |
| Reconciliation.ReconcileThenUnreconcile | components/reconciliacao-bancaria.tsx:296-378 | linking by hand and then removing the link leaves the transactions unlinked and the payment shown for the id pending with no paid date |
| StatementImport.Amount | components/reconciliacao-bancaria.tsx:404-424 | in the signed layouts a non-negative amount is a credit and a negative one a debit, with its magnitude, and an unparseable amount stays unparseable; in the BIM layout a positive credit column makes a credit of that amount, otherwise a debit of the debit column |
| StatementImport.DetectMetodo | components/reconciliacao-bancaria.tsx:426-475 | cheque words give a cheque, otherwise transfer words a transfer, otherwise deposit words a deposit, otherwise "outro" |
| StatementImport.RegistryCheque | components/reconciliacao-bancaria.tsx:427-446 | a row names a registered cheque exactly when it has cheque words, the patterns read a number, the registry is readable and holds a cheque with that number |
| StatementImport.ImportRow | components/reconciliacao-bancaria.tsx:400-487 | a row is kept exactly when it has a valid date and a positive amount; a kept row has the position-based id, the row's date, text, kind and amount and the detected method; a row naming a registered cheque takes its id, number and payment link and is reconciled exactly when that link is set; any other row arrives unlinked |
| StatementImport.ImportRows | components/reconciliacao-bancaria.tsx:399-487 | every kept row appears in the result and every result entry is the mapping of some row; `StatementImport.ImportRowsLast` and `StatementImport.SomesAppend` give the sheet order |
| StatementImport.ImportRowsLast | components/reconciliacao-bancaria.tsx:399-487 | the import of a sheet is the import of all rows but the last, followed by the last row's transaction when it is kept |
| StatementImport.SomesAppend | components/reconciliacao-bancaria.tsx:487 | dropping the rows filtered out keeps the others in order over a concatenation |
| StatementImport.SignedAmountRecovered | components/reconciliacao-bancaria.tsx:407-409 | in the signed layouts the kind and amount give back the signed amount |
| StatementImport.ImportedArePositive | components/reconciliacao-bancaria.tsx:487 | every imported transaction has a positive amount |
| StatementImport.RowIdInjective | components/reconciliacao-bancaria.tsx:447-478 | different positions give different ids under the same import stamp |
| StatementImport.ImportedIdsBelow | components/reconciliacao-bancaria.tsx:400-478 | every imported id comes from a row position of the sheet |
| StatementImport.DistinctAppend | components/reconciliacao-bancaria.tsx:478 | appending a transaction with a fresh id keeps the ids distinct |
| StatementImport.ImportedIdsDistinct | components/reconciliacao-bancaria.tsx:400-487 | the transactions of one import carry pairwise different ids |
| StatementImport.RegisteredChequeArrivesReconciled | components/reconciliacao-bancaria.tsx:446-457 | a row whose registered cheque is tied to a payment arrives reconciled as a cheque, so the automatic matcher passes over it |
| StatementImport.ShortChequeNotDetected | components/reconciliacao-bancaria.tsx:427-434 | "CH12" holds a number the patterns would read, but without "cheque" or "ch " the row is not taken for a cheque and its method is "outro" |
| Grouping.IndexOf | components/demonstracao-resultados.tsx:157-159 | a found position holds the key; no result exactly when no bucket has it |
| Grouping.AddTo | components/demonstracao-resultados.tsx:157-160 | an amount under a known key raises that key's first bucket by the amount and keeps the length; under a new key it opens a bucket at the end; keys never change |
| Grouping.GroupBy | components/demonstracao-resultados.tsx:153-161 | the record has distinct keys, exactly the keys of the amounts, in the order the amounts first carry them, each holding the sum of its amounts, and its total is the total of the amounts |
| Grouping.Insert | components/demonstracao-resultados.tsx:168 | inserting adds the bucket to the multiset and its amount to the total |
| Grouping.SortDesc | components/demonstracao-resultados.tsx:168 | the sorted list is a permutation of the input with no bucket after a larger one, and the same total; it is stable: for every amount, the buckets holding it come in input order; distinct keys stay distinct |
| Grouping.Report | components/demonstracao-resultados.tsx:152-169 | the report is largest first, has one bucket per key, names exactly the keys of the amounts, gives each its sum, and adds up to the total of the amounts; buckets of equal total keep the record's first-seen key order |
| Grouping.TotalUpdate | components/demonstracao-resultados.tsx:160 | replacing one bucket changes the total by the difference |
| Grouping.KeyTotalAbsent | components/demonstracao-resultados.tsx:157-159 | a key no amount carries sums to zero |
| Grouping.GroupStep | components/demonstracao-resultados.tsx:156-161 | one step of the walk keeps the record's distinct keys, per-key sums, key set and total |
| Grouping.InsertKeepsSorted | components/demonstracao-resultados.tsx:168 | inserting into a largest-first list keeps it largest first |
| Grouping.InsertWithValue | components/demonstracao-resultados.tsx:168 | inserting into a largest-first list puts the new bucket after every bucket of its own amount, leaving the others of each amount in order |
| Grouping.InsertDistinct | components/demonstracao-resultados.tsx:168 | inserting a bucket with a new key keeps the keys distinct |
| Grouping.StepOrder | components/demonstracao-resultados.tsx:156-161 | one step of the walk keeps the record's keys in first-seen order, a new key going last |
| Grouping.IndexOfSnoc | components/demonstracao-resultados.tsx:157-159 | after appending a bucket an earlier bucket with the key is still found first; otherwise the appended one is found exactly when it carries the key |
| Grouping.ReportAddsUp | components/demonstracao-resultados.tsx:152-169 | the report adds up to the amounts, and every key that carries an amount appears with its sum |
| Budget.MonthIndex | components/previsao-orcamento.tsx:68-70 | the position found is the first bucket of the month; no result means no bucket is for it |
| Budget.Current | components/previsao-orcamento.tsx:68-70 | the bucket shown is the first stored bucket of the month; there is none exactly when no bucket is for the month |
| Budget.NewItem | components/previsao-orcamento.tsx:147-152 | the new item takes the fresh id, the department and the amount, and the description or an empty one |
| Budget.AddItem | components/previsao-orcamento.tsx:123-175 | a draft without a department or with a missing or zero amount changes nothing; otherwise the month's bucket gains the item last, other buckets unchanged, or a bucket for the month is appended holding just the item |
| Budget.ReplaceItem | components/previsao-orcamento.tsx:199 | every item with the edited id becomes the edited item; the others are kept |
| Budget.EditItem | components/previsao-orcamento.tsx:185-205 | no selection, an empty department or a zero amount changes nothing; otherwise the items of every bucket of the month are replaced by id, and other buckets and every bucket's month are kept |
| Budget.WithoutItem | components/previsao-orcamento.tsx:219 | the items kept are exactly those with another id; `Budget.WithoutItemAppend` and `Budget.WithoutItemSingle` give their order and multiplicity |
| Budget.Emptied | components/previsao-orcamento.tsx:215-223 | the month's buckets lose the item; other buckets are kept |
| Budget.DropEmpty | components/previsao-orcamento.tsx:226 | the buckets kept are exactly those with items; `Budget.DropEmptyAppend` and `Budget.DropEmptySingle` give their order |
| Budget.WithoutItemAppend | components/previsao-orcamento.tsx:219 | item removal works piecewise over a concatenation |
| Budget.WithoutItemSingle | components/previsao-orcamento.tsx:219 | one item is kept exactly when its id differs |
| Budget.DropEmptyAppend | components/previsao-orcamento.tsx:226 | dropping empty buckets works piecewise over a concatenation |
| Budget.DropEmptySingle | components/previsao-orcamento.tsx:226 | one bucket is kept exactly when it has items |
| Budget.DeleteItem | components/previsao-orcamento.tsx:214-228 | afterwards no bucket is empty and no bucket of the month holds the item; a bucket of another month survives exactly when it has items, even one emptied earlier; a bucket of the month survives, without the item, when items remain; `Budget.DeleteItemAppend` and `Budget.DeleteItemSingle` give the order of the surviving buckets |
| Budget.DeleteItemAppend | components/previsao-orcamento.tsx:214-228 | deleting an item works piecewise over a concatenation of buckets |
| Budget.DeleteItemSingle | components/previsao-orcamento.tsx:214-228 | one bucket survives exactly when it still has items after the item is removed from it if it is the month's, and then in that form |
| Budget.MonthInvoices | components/previsao-orcamento.tsx:73-84 | the month's list holds exactly the listed invoices, in any state, whose payment date, or its due date when it has none, falls in the month; `Budget.MonthInvoicesAppend` and `Budget.MonthInvoicesSingle` give their order and multiplicity |
| Budget.MonthInvoicesAppend | components/previsao-orcamento.tsx:73-84 | the month's invoice list works piecewise over a concatenation |
| Budget.MonthInvoicesSingle | components/previsao-orcamento.tsx:73-84 | one listed payment is kept exactly when it is an invoice dated in the month |
| Budget.ByDepartment | components/previsao-orcamento.tsx:87-97 | each invoice becomes its amount under its department |
| Budget.Realizado | components/previsao-orcamento.tsx:87-97 | a department's realised amount is the sum of the month's invoices of that department, 0 when it has none |
| Budget.TotalRealizado | components/previsao-orcamento.tsx:112 | the realised total is the sum of all the month's invoices, budgeted departments or not |
| Budget.TotalPrevisto | components/previsao-orcamento.tsx:111 | the planned total is the sum of the month's items, 0 when the month has no bucket |
| Budget.Execution | components/previsao-orcamento.tsx:452-453 | with nothing planned the percentage is 0; otherwise it is the whole number nearest to realised/planned × 100, halves rounding up |
| Budget.PercentualTotal | components/previsao-orcamento.tsx:113 | the page's percentage is the rounded ratio of the realised to the planned total, 0 with nothing planned |
| Budget.ItemPercentual | components/previsao-orcamento.tsx:451-453 | an item row's percentage is the rounded ratio of its department's realised amount to its planned amount, 0 when that is not positive |
| Budget.MonthIndexIsFirst | components/previsao-orcamento.tsx:68-70 | the first bucket of the month is the one found |
| Budget.ItemsTotalAppend | components/previsao-orcamento.tsx:111 | appending an item raises the planned total by its amount |
| Budget.AddKeepsUniqueMonths | components/previsao-orcamento.tsx:137-175 | adding never opens a second bucket for a month |
| Budget.AddShowsItem | components/previsao-orcamento.tsx:123-175 | after a valid add the month's bucket ends with the new item and the planned total grows by its amount |
| Budget.EditKeepsUniqueMonths | components/previsao-orcamento.tsx:195-203 | editing keeps the months unique |
| Budget.DeleteKeepsUniqueMonths | components/previsao-orcamento.tsx:214-228 | deleting keeps the months unique |
| Budget.DropEmptyKeepsUniqueMonths | components/previsao-orcamento.tsx:226 | dropping empty buckets keeps the months unique |
| Budget.InvoiceDepartmentListed | components/previsao-orcamento.tsx:87-112 | every invoice of the month puts its department into the realised record, budgeted or not |
| Revenue.Usuario | components/gestao-receitas.tsx:163 | the history's user is the signed-in username, or "Sistema" when there is none; never empty |
| Revenue.Logged | components/gestao-receitas.tsx:188-197 | the receita keeps every field and its history, read as empty when absent, gains one line at the end |
| Revenue.Created | components/gestao-receitas.tsx:147-168 | the new receita takes the fresh id and the draft's fields, today when no date is given, empty observations by default, a receipt date exactly when it is received (the given one or today), and a single "Criação" history line |
| Revenue.AddReceita | components/gestao-receitas.tsx:137-170 | a draft without description, value, category or source changes nothing; otherwise the new receita is appended after the existing ones |
| Revenue.EditReceita | components/gestao-receitas.tsx:183-200 | no selection changes nothing; otherwise each receita with the selection's id becomes the selection with an "Edição" line added; others are kept |
| Revenue.DeleteReceita | components/gestao-receitas.tsx:210-211 | the receitas kept are exactly those with another id; an absent id changes nothing; `Revenue.DeleteAppend` and `Revenue.DeleteSingle` give their order and multiplicity |
| Revenue.DeleteAppend | components/gestao-receitas.tsx:210-211 | deletion works piecewise over a concatenation |
| Revenue.DeleteSingle | components/gestao-receitas.tsx:210-211 | one receita is kept exactly when its id differs |
| Revenue.Received | components/gestao-receitas.tsx:222-237 | the receita becomes received today with a "Status" line added to its history; nothing else changes |
| Revenue.MarcarComoRecebida | components/gestao-receitas.tsx:219-241 | every receita with the id is received; the others are kept |
| Revenue.Filtradas | components/gestao-receitas.tsx:109-125 | a receita is shown exactly when it is dated in the month, the search term occurs, ignoring case, in its description, category or source, and the tab admits its status; `Revenue.FiltradasAppend` and `Revenue.FiltradasSingle` give the order |
| Revenue.FiltradasAppend | components/gestao-receitas.tsx:109-125 | the page filter works piecewise over a concatenation |
| Revenue.FiltradasSingle | components/gestao-receitas.tsx:109-125 | one receita is shown exactly when it passes the month, search and tab tests |
| Revenue.TotalsAddUp | components/gestao-receitas.tsx:128-134 | received plus pending-or-overdue is the total |
| Revenue.TotalsAppend | components/gestao-receitas.tsx:128-134 | for `Total`, `TotalRecebido` and `TotalPendente`: each total adds up over a concatenation |
| Revenue.TotalsSingle | components/gestao-receitas.tsx:128-134 | one receita adds its amount to the total, to the received total exactly when received, and to the pending total exactly when pending or overdue |
| Revenue.TabsPartition | components/gestao-receitas.tsx:118-122 | the "todas" tab admits every status and each other tab exactly its own |
| Revenue.EditAddsOneEntry | components/gestao-receitas.tsx:186-200 | editing keeps the selection's history as a prefix and adds exactly one "Edição" line |
| Revenue.MarkClearsPending | components/gestao-receitas.tsx:219-241 | after marking, the pending total is that of the other receitas alone |
| Revenue.MarkKeepsTotal | components/gestao-receitas.tsx:219-241 | marking changes no amount, so the total stays |
| IncomeStatement.ReceitaDate | components/demonstracao-resultados.tsx:128-131 | a received receita with a receipt date is filed under that date; any other under its own date |
| IncomeStatement.PaymentsWithin | components/demonstracao-resultados.tsx:103-114 | a payment is kept exactly when it is listed and its payment date, or its due date when it has none, lies in the interval; `IncomeStatement.PaymentsWithinAppend` and `IncomeStatement.PaymentsWithinSingle` give their order and multiplicity |
| IncomeStatement.PaymentsWithinAppend | components/demonstracao-resultados.tsx:103-114 | the period filter on payments works piecewise over a concatenation |
| IncomeStatement.PaymentsWithinSingle | components/demonstracao-resultados.tsx:103-114 | one payment is kept exactly when its effective date is in the range |
| IncomeStatement.Despesas | components/demonstracao-resultados.tsx:100-121 | an open period gives nothing; otherwise exactly the listed payments whose effective date lies in it; `IncomeStatement.DespesasAppend`, `IncomeStatement.DespesasSplit` and `IncomeStatement.DespesasSingle` give their order and multiplicity |
| IncomeStatement.DespesasAppend | components/demonstracao-resultados.tsx:100-121 | the period's payments of a concatenation of suppliers are the first part's followed by the second's |
| IncomeStatement.DespesasSingle | components/demonstracao-resultados.tsx:100-121 | a supplier with one payment contributes it exactly when the period is set and contains its effective date |
| IncomeStatement.DespesasSplit | components/demonstracao-resultados.tsx:100-121 | a supplier's payments count as if split over two suppliers with its id and name |
| IncomeStatement.ReceitasWithin | components/demonstracao-resultados.tsx:127-137 | a receita is kept exactly when its filing date lies in the interval; `IncomeStatement.ReceitasWithinAppend` and `IncomeStatement.ReceitasWithinSingle` give their order and multiplicity |
| IncomeStatement.ReceitasWithinAppend | components/demonstracao-resultados.tsx:127-137 | the period filter on receitas works piecewise over a concatenation |
| IncomeStatement.ReceitasWithinSingle | components/demonstracao-resultados.tsx:127-137 | one receita is kept exactly when the date it is filed under is in the range |
| IncomeStatement.Receitas | components/demonstracao-resultados.tsx:124-138 | an open period gives nothing; otherwise exactly the receitas filed in it; `IncomeStatement.ReceitasAppend` with the single case of `IncomeStatement.ReceitasWithinSingle` gives their order and multiplicity |
| IncomeStatement.ReceitasAppend | components/demonstracao-resultados.tsx:124-138 | the period's receitas of a concatenation are the first part's followed by the second's |
| IncomeStatement.Resultado | components/demonstracao-resultados.tsx:141-149 | the result plus the paid expenses is the received revenue |
| IncomeStatement.SumWhereAppend | components/demonstracao-resultados.tsx:145-147 | sums over payment states add up over a concatenation |
| IncomeStatement.TotalReceitasAppend | components/demonstracao-resultados.tsx:141-143 | for `TotalReceitas`: the received total adds up over a concatenation of receitas |
| IncomeStatement.TotalReceitasSingle | components/demonstracao-resultados.tsx:141-143 | one receita adds its amount exactly when it is received and filed inside a set period |
| IncomeStatement.TotalDespesasAppend | components/demonstracao-resultados.tsx:145-147 | for `TotalDespesas`: the paid total adds up over a concatenation of suppliers |
| IncomeStatement.TotalDespesasSplit | components/demonstracao-resultados.tsx:145-147 | the paid total adds up over a split of one supplier's payments |
| IncomeStatement.TotalDespesasSingle | components/demonstracao-resultados.tsx:145-147 | one payment adds its amount exactly when it is paid and its effective date lies inside a set period |
| IncomeStatement.ByCategoria | components/demonstracao-resultados.tsx:154-155 | each entry is a received receita's amount under its category; `IncomeStatement.ByCategoriaAppend` and `IncomeStatement.ByCategoriaSingle` make it one entry per received receita, in order |
| IncomeStatement.ByCategoriaAppend | components/demonstracao-resultados.tsx:154-155 | the category entries work piecewise over a concatenation |
| IncomeStatement.ByCategoriaSingle | components/demonstracao-resultados.tsx:154-155 | one receita gives one entry under its category exactly when received |
| IncomeStatement.ByDepartamento | components/demonstracao-resultados.tsx:175-176 | each entry is a paid payment's amount under its department; `IncomeStatement.ByDepartamentoAppend` and `IncomeStatement.ByDepartamentoSingle` make it one entry per paid payment, in order |
| IncomeStatement.ByDepartamentoAppend | components/demonstracao-resultados.tsx:175-176 | the department entries work piecewise over a concatenation |
| IncomeStatement.ByDepartamentoSingle | components/demonstracao-resultados.tsx:175-176 | one payment gives one entry under its department exactly when paid |
| IncomeStatement.ReceitasPorCategoria | components/demonstracao-resultados.tsx:152-170 | the category report is largest first, has one entry per category and exactly the categories of the received receitas, gives each the sum of its received receitas, and adds up to the received total; categories of equal total keep the order in which they were first met |
| IncomeStatement.DespesasPorDepartamento | components/demonstracao-resultados.tsx:173-191 | the department report is largest first, has one entry per department and exactly the departments of the paid payments, gives each the sum of its paid payments, and adds up to the paid total; departments of equal total keep the order in which they were first met |
| IncomeStatement.Indicators | components/demonstracao-resultados.tsx:238-265 | with nothing received both percentages are 0, otherwise they are the result and the expenses over the revenue, times 100; pending revenue counts pending and overdue receitas, pending expenses pending and overdue payments, and the projection is all receitas of the period less all non-cancelled payments |
| IncomeStatement.CategoriaTotal | components/demonstracao-resultados.tsx:141-161 | the category amounts add up to the received total |
| IncomeStatement.DepartamentoTotal | components/demonstracao-resultados.tsx:145-182 | the department amounts add up to the paid total |
| IncomeStatement.SumWhereSplit | components/demonstracao-resultados.tsx:246-256 | sums over disjoint sets of states add up |
| IncomeStatement.CancelledIgnored | components/demonstracao-resultados.tsx:145-256 | inserting a cancelled payment anywhere changes neither the paid total nor the projection |
| IncomeStatement.MarginComplementsRatio | components/demonstracao-resultados.tsx:240-243 | when something was received, the profit margin and the expense ratio add up to one hundred percent |
| IncomeStatement.OpenPeriodCountsNothing | components/demonstracao-resultados.tsx:100-138 | with an open period every total is 0 and both reports are empty |
| Documents.AwaitingIn | components/documentos-pendentes.tsx:22-37 | an entry is kept exactly when its payment is paid and its required documents, factura by default, have not all arrived; `Documents.AwaitingInAppend` and `Documents.AwaitingInSingle` give their order and multiplicity |
| Documents.AwaitingInAppend | components/documentos-pendentes.tsx:22-37 | the pending filter works piecewise over a concatenation |
| Documents.AwaitingInSingle | components/documentos-pendentes.tsx:22-37 | one entry is kept exactly when its payment awaits a document |
| Documents.Pendentes | components/documentos-pendentes.tsx:22-43 | the pending list holds exactly the awaiting payments of all suppliers, all of them paid; `Documents.PendentesAppend` and `Documents.PendentesSingle` give their order |
| Documents.PendentesAppend | components/documentos-pendentes.tsx:22-43 | the pending list of a concatenation of suppliers is the first part's followed by the second's |
| Documents.PendentesSingle | components/documentos-pendentes.tsx:22-43 | a supplier with one payment lists it exactly when it awaits its document |
| Documents.FacturaList | components/documentos-pendentes.tsx:46-48 | exactly the entries whose requirement, defaulted to factura, is factura; `Documents.FacturaListAppend` and `Documents.FacturaListSingle` give their order |
| Documents.FacturaListAppend | components/documentos-pendentes.tsx:46-48 | the factura tab works piecewise over a concatenation |
| Documents.FacturaListSingle | components/documentos-pendentes.tsx:46-48 | one entry is listed exactly when its required document, defaulted, is a factura |
| Documents.VdList | components/documentos-pendentes.tsx:50 | exactly the entries that explicitly require a sale document; `Documents.VdListAppend` and `Documents.VdListSingle` give their order |
| Documents.VdListAppend | components/documentos-pendentes.tsx:50 | the sale-document tab works piecewise over a concatenation |
| Documents.VdListSingle | components/documentos-pendentes.tsx:50 | one entry is listed exactly when it explicitly requires a sale document |
| Documents.Mostrar | components/documentos-pendentes.tsx:53-54 | the factura tab shows the pending facturas, the vd tab the pending sale documents, any other tab everything pending |
| Documents.KindsPartition | components/documentos-pendentes.tsx:46-50 | every pending entry is in exactly one of the two kind lists, so their counts add up |
| Documents.PendingCountsAddUp | components/documentos-pendentes.tsx:46-54 | the factura and vd tab counts add up to the count on the all tab |
| Documents.MarkedPaidAwaits | components/pagamentos-table.tsx:405-413 | a payment marked paid that needs a factura or a sale document becomes pending, since marking clears its document flags |
| Documents.NeverAwaiting | components/documentos-pendentes.tsx:25-36 | an unpaid payment, or one that needs no document, is never pending |
| Documents.ReceivedClears | components/documentos-pendentes.tsx:25-36 | for `Awaiting`: a paid payment whose required documents have all arrived is not pending |
| Documents.FacturaHalfAwaits | components/documentos-pendentes.tsx:25-36 | a paid factura payment missing its invoice or its receipt is pending |

## Left out

- Browser storage: every read and write of the stored lists is I/O. The lists are parameters and results. Where a modelled operation reads a stored list itself, the read is `Missing`, `Corrupt` or `Parsed`. Where the source parses without a guard, `Corrupt` is the throw and ends the handler (`SalvarCheque`, `ClearChequeStore`, `ClearFundoStore`, `FinishEdit`). `RemoverReferenciaCheque` and `RemoverReferenciaFundoManeio` are the list transformations on already-parsed lists; `ClearChequeStore` and `ClearFundoStore` add the read. Loading the suppliers, users and petty-cash buckets when the app starts is not modelled; the model starts from parsed lists. The effects that save a list only when it is non-empty are not modelled.
- React plumbing: state setters are applied as plain function results. Effects, toasts, dialogs, `confirm()`, routing and printing are not modelled.
- PettyCash.AdicionarMovimento: the source reads the new movement's id from a flag set inside a state updater. The model returns that id directly, as if the updater ran synchronously.
- Spreadsheets: the XLSX import and export and file reading are library calls. Only the per-row mapping of already-read cells is modelled (`StatementImport`).
- Number parsing: `parseFloat` and the comma-to-dot conversion are not modelled. An amount that does not parse arrives as `None`, which is how the source's `NaN` behaves in the row filter.
- Floating point: money is exact integer thousandths. `Budget.Execution` models `Math.round` of a percentage exactly; the source rounds a binary float. The income-statement percentages are exact ratios rather than floats.
- Formatting: `toFixed`, `toLocaleString` and date formatting are left out. Texts built from dates (the "emitido em" note, history descriptions) take the formatted date as a parameter.
- Dates and ids: `new Date()`, `Date.now()` ids and date-fns arithmetic are parameters. One batch shares one "now" and one id stamp.
- IncomeStatement: the period presets relative to today (components/demonstracao-resultados.tsx, lines 70-97) and the twelve-month trend chart (lines 193-235) are left out; the period is a parameter. An inverted period matches nothing.
- Budget: the chart series (components/previsao-orcamento.tsx, lines 99-108) are presentation and are left out.
- Timers: the notification poll and the toast-suppression timeout are timer-driven UI behaviour.
- Notifications.SortForDisplay: it states the sorted order and the same multiset of notifications. It does not state that equal-ranked notifications keep their stored order, which `Array.prototype.sort` guarantees.
- Search boxes: the free-text search filters of the tables are left out. The exception is the revenue page, whose search is modelled by `Revenue.MatchesSearch` inside `Revenue.Filtradas`.
- Ledger: `removerPagamento` also writes a log line. That line is console output and is left out.
- Ledger: the supplier id and name that some screens spread into stored payments are not part of `Pagamento`.
- Cheque check: `verificarChequeExistente` (components/pagamentos-table.tsx, lines 351-355) only decides whether the edit handler shows an informational toast (lines 277-294). `FinishEdit` models only its unguarded read, which throws on an unparseable registry.
- Edit handler start: the first part of `handleEditPagamento` (components/pagamentos-table.tsx, lines 201-262) finds or creates the new supplier and may withdraw from petty cash. `FinishEdit` takes the supplier ids and the payment as they stand after it; the withdrawal itself is `PettyCash.AdicionarMovimento`.
- Manual bank transactions: the reconciliation page can add and delete bank transactions by hand. This is plain list editing, and only the reconciliation operations are modelled.
- Reconciliation: the toast that reports how many items were reconciled is not modelled.
- Calendar: `atualizarEventoCalendarioFiscal` writes to a fiscal calendar that is not part of this model.
- Workflow: the approve handler writes the user's level into the step even when it is null. The model requires a user who may decide, as the buttons do, so a step without a level never arises.
- Auth: logging out (hooks/use-auth.ts, lines 174-178) only clears the session entries from storage and is left out. Loading at start-up is modelled by `Auth.Init`; the parse of the session entry is reduced to the three outcomes of `Auth.UserEntry`.
- Text.Lower: only ASCII and Latin-1 letters are lowered. JavaScript's `toLowerCase` also lowers letters such as Ł, Greek and Cyrillic, and expands İ to two code units. A stored username "Łukasz" signing in as "łukasz" is therefore accepted by the source but refused by `Auth.Login` here.
- User management: `handleSavePermissions` does nothing in the source (components/user-management.tsx, lines 272-280). The admin-only page gate (lines 47-65 and 99-178) and the auto-login effect (lines 67-96) are UI and are left out. `handleDeleteUser` (lines 197-203) only forwards to `Access.DeleteUser`, and the view and permission-dialog openers only open dialogs.
- UserAdmin.TogglePresentTwice: it shows that toggling a present permission twice restores the list as a multiset. The permission comes back at the end of the list, not at its old place, so the list is not restored in order.
- Grouping.Report: object key order. The income-statement grouping builds a JavaScript object and sorts its entries. `Grouping` keeps keys in first-seen order. That is JavaScript's insertion order for ordinary names. A category or department named by a canonical array index, such as "7", is listed by JavaScript before the other keys, in numeric order. The model does not reorder those keys, so among equal totals their order can differ.
- Security: plaintext passwords and fixed default credentials are modelled as data. Their security is not examined.
