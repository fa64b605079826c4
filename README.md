# VPS hosting dashboard: a verified model of its client-side logic

The dashboard is a web front end for renting virtual private servers. It
has two front ends: a client-routed one under `src/` and a file-routed one
under `app/` and `components/`. This project models the parts of both that
hold logic, as opposed to layout:

- the two resource stores: credit purchases of RAM and disk, and free
  top-ups of RAM, disk and CPU;
- the administrator's user editor and ticket queue;
- the price of the create-server form;
- the two simulated consoles;
- the alert panel;
- the credentials manager and the API key list;
- the file browser;
- the documentation sidebar;
- the ticket list and the ticket form;
- the server list;
- the breadcrumb and the top bar;
- the status page.

Each component is a Dafny module. State that the component updates in
place (a list it replaces, a draft it edits, an account row it writes) is
a class field. The class's methods state the new state in terms of
functions of the old one. Expressions (filters, price formulas,
conditional chains) are functions. The properties the code promises are
lemmas about those functions.

`common.dfy` holds the JavaScript string behaviour the components share:

- `toLowerCase`/`toUpperCase` on ASCII;
- `trim`;
- `includes` as a substring test;
- `split` on one character, `join`, and `.filter(Boolean)` on path segments;
- a decimal `parseInt` that returns `None` for NaN;
- `Array.prototype.filter`;
- the "remove if present, else append" toggle.

Backend reads and writes are parameters:

- a write is an "it succeeded" flag together with the record it writes;
- a fetch is the rows it returns, or `None` on failure.

Values read from the clock are parameters too (`ts`, `now`, `nowMs`,
`loadedAt`, `dateLine`).

## Model

| member | source | states |
|---|---|---|
| CreditStore.AfterPurchase | src/pages/StorePage.tsx:46-53 | credits fall by exactly the price; RAM products add their amount to RAM only, disk products to disk only |
| CreditStore.Rejects | src/pages/StorePage.tsx:38 | no contract of its own: the purchase guard (no user, or fewer credits than the price); PurchaseKeepsCreditsNonNegative, ExactCreditsAccepted and BuyDisabledMatchesGuard state its properties |
| CreditStore.PurchaseKeepsCreditsNonNegative | src/pages/StorePage.tsx:38-46 | a purchase that passes the guard leaves credits at 0 or more, and lowers them exactly when the price is positive |
| CreditStore.ExactCreditsAccepted | src/pages/StorePage.tsx:38-46 | credits equal to the price pass the strict guard and leave 0 |
| CreditStore.CustomPrice | src/pages/StorePage.tsx:76 | a custom amount costs 100 per GB of RAM and 5 per GB of disk |
| CreditStore.PackagesNeverDearerThanCustom | src/pages/StorePage.tsx:21-28 | no package in the product table costs more than its amount bought as a custom amount |
| CreditStore.CustomAttempt | src/pages/StorePage.tsx:72-92 | as written: nothing happens exactly when there is no user or the field is empty; a price above the credits is declined with that price; a price the credits cover is bought as product "custom" with the parsed amount at the computed price, with no check that the amount is at least 1 |
| CreditStore.NegativeCustomAmountMintsCredits | src/pages/StorePage.tsx:72-95 | "-10" RAM with 0 credits passes both checks and turns the balance (0, 0, 0) into 1000 credits and -10 GB RAM |
| CreditStore.IntendedCustomAttempt | src/pages/StorePage.tsx:72-92 | the same decision with amounts below 1 refused: a purchase happens exactly when the as-written one would and the amount is at least 1, and then the price is at least 5 |
| CreditStore.IntendedCustomPurchaseNeverMints | src/pages/StorePage.tsx:72-95 | with the intended guard a custom purchase lowers the credits, never below 0, and never lowers a resource balance |
| CreditStore.BuyDisabledMatchesGuard | src/pages/StorePage.tsx:142 | the Buy button is disabled exactly when that product is loading or the purchase guard would reject |
| CreditStore.BuyDisabled | src/pages/StorePage.tsx:142 | no contract of its own: the Buy button's disabled expression; BuyDisabledMatchesGuard ties it to the guard |
| CreditStore.CustomEnabledMeansBuy | src/pages/StorePage.tsx:218 | whenever the custom button is enabled, the handler goes on to buy |
| CreditStore.CustomDisabled | src/pages/StorePage.tsx:218 | no contract of its own: the custom button's disabled expression, with an empty field priced as 0; CustomEnabledMeansBuy ties it to the handler |
| CreditStore.StorePage.Purchase | src/pages/StorePage.tsx:37-70 | rejected with no change exactly when there is no user or too few credits; otherwise the account becomes AfterPurchase when the write succeeds and stays put when it fails; loading ends cleared |
| CreditStore.StorePage.CustomPurchase | src/pages/StorePage.tsx:72-95 | the handler as written: follows CustomAttempt, buys through Purchase, and clears the field after every attempt past the credit check, even a failed write |
| CreditStore.StorePage.IntendedCustomPurchase | src/pages/StorePage.tsx:72-95 | the handler with amounts below 1 refused; credits never rise |
| ResourceStore.PackageAmounts | app/store/page.tsx:53-80 | one package per kind, adding RAM 4, disk 50 and CPU 2 |
| ResourceStore.LoadedBalance | app/store/page.tsx:27-31 | no contract of its own: the loaded profile's balance, or 0 without a profile; UpdatePayload and UnloadedProfileOverwrites state its effect |
| ResourceStore.UpdatePayload | app/store/page.tsx:25-32 | the payload names only the purchased kind's field, set to the loaded balance (0 when absent) plus the amount |
| ResourceStore.ApplyUpdate | app/store/page.tsx:34-37 | a write replaces exactly the fields the payload names |
| ResourceStore.PurchaseAddsToOneBalance | app/store/page.tsx:25-37 | from an up-to-date profile, balance k rises by the amount and the other two stay unchanged |
| ResourceStore.UnloadedProfileOverwrites | app/store/page.tsx:27-31 | with no profile loaded, balance k is set to the amount itself |
| ResourceStore.ResourceStorePage.Purchase | app/store/page.tsx:17-51 | without a user nothing is written; otherwise the row gets the payload when the write succeeds, and the price is never debited; isPurchasing ends false |
| AdminUsers.FilteredUsers | app/admin/users/page.tsx:129-133 | an order-preserving subsequence holding exactly the rows whose username, full name (each when present) or id contains the term, ignoring case |
| AdminUsers.UserMatches | app/admin/users/page.tsx:129-133 | no contract of its own: username or full name when present, or id, contains the term, ignoring case; FilteredUsers and EmptySearchShowsAll are stated over it |
| AdminUsers.EmptySearchShowsAll | app/admin/users/page.tsx:129-133 | an empty search keeps every row, because every id contains "" |
| AdminUsers.DraftOf | app/admin/users/page.tsx:71-75 | the draft starts at the user's three balances |
| AdminUsers.EditDraft | app/admin/users/page.tsx:225-249 | typing sets one draft field to `parseInt(text) \|\| 0` and leaves the other two |
| AdminUsers.EditDraftReadsNumbers | app/admin/users/page.tsx:225-249 | for every field: typing changes that field only; empty text, or text that does not start with a number, stores 0; a decimal number is stored as that number; a negative number is accepted and stored as typed |
| AdminUsers.SaveDraft | app/admin/users/page.tsx:83-89 | rows with that id get the draft's balances and the new timestamp; the other rows are untouched |
| AdminUsers.SaveUntouchedDraftKeepsBalances | app/admin/users/page.tsx:69-89 | with unique ids, saving an unedited draft changes no balance |
| AdminUsers.SaveOverwrites | app/admin/users/page.tsx:83-89 | the saved values do not depend on the balances stored before: the save overwrites rather than adds |
| AdminUsers.AdminUsersPage.EditCredits | app/admin/users/page.tsx:69-76 | only that row is in editing and the draft becomes its balances |
| AdminUsers.AdminUsersPage.ChangeDraft | app/admin/users/page.tsx:225-249 | the draft becomes EditDraft of the old draft; nothing else changes |
| AdminUsers.AdminUsersPage.SaveCredits | app/admin/users/page.tsx:78-103 | a successful write applies SaveDraft and closes the editor; a failed one changes nothing; the updating flag ends false |
| AdminUsers.AdminUsersPage.Cancel | app/admin/users/page.tsx:267 | the editor closes and nothing is written |
| VpsPricing.BaseAndDefaultPrices | components/vps/create-vps-form.tsx:37-63 | the smallest configuration costs 8 and the default one (2 cores, 4 GB, 40 GB, no backups) costs 15 |
| VpsPricing.MonthlyPrice | components/vps/create-vps-form.tsx:58-63 | with at least 1 CPU and 2 GB the price is at least the base 8; with backups it is at least 3 above the CPU and RAM part |
| VpsPricing.OnSliders | components/vps/create-vps-form.tsx:111-160 | no contract of its own: the slider ranges and steps (CPU 1-8, RAM 2-32 in steps of 2, storage 20-500 in steps of 10); SliderPricesAreWholeDollars is stated over it |
| VpsPricing.StorageUpTo20IsFree | components/vps/create-vps-form.tsx:60 | storage at or below 20 GB costs the same as 20 GB, which is nothing |
| VpsPricing.BackupsAddThree | components/vps/create-vps-form.tsx:61 | backups add exactly 3 |
| VpsPricing.PriceMonotone | components/vps/create-vps-form.tsx:59-61 | more of any resource never costs less; more CPU or RAM always costs more |
| VpsPricing.SliderPricesAreWholeDollars | components/vps/create-vps-form.tsx:59-61 | every slider configuration costs a whole number of dollars between 8 and 118 |
| VpsPricing.SubmitNeedsVisibleName | components/vps/create-vps-form.tsx:277 | submit is disabled exactly while creating or when the name is white space only |
| VpsPricing.SubmitDisabled | components/vps/create-vps-form.tsx:277 | a name that starts with a visible character can be submitted when nothing is being created |
| Terminal.InitialEntries | src/components/Console.tsx:36-47 | the console opens with two output entries |
| Terminal.CommandOutput | src/components/Console.tsx:49-100 | a key has output exactly when it is "date" or in the table, and then that output |
| Terminal.CommandTable | src/components/Console.tsx:49-100 | "clear" is in the table with no lines, "pwd" prints the home directory, and the empty key is unknown |
| Terminal.CommandKey | src/components/Console.tsx:125 | the lookup key is empty exactly when the command is white space only |
| Terminal.OutputEntriesOf | src/components/Console.tsx:134-141 | one output entry per line, in order |
| Terminal.CommandExtendsLog | src/components/Console.tsx:108-154 | any command but "clear" keeps the log as a prefix and adds the prompt echo of the raw command; a known command then adds exactly one output entry per line of its output, in order; an unknown one adds one error "bash: cmd: command not found" |
| Terminal.AfterCommand | src/components/Console.tsx:108-154 | no contract of its own: the log after `executeCommand`; CommandExtendsLog, ClearEmptiesLog, BlankCommandOnlyEchoes and LookupIgnoresCaseAndSpace state what it does |
| Terminal.ClearEmptiesLog | src/components/Console.tsx:125-130 | "clear", in any case and with white space around it (" CLEAR " too), empties the log; every other command makes it longer |
| Terminal.BlankCommandOnlyEchoes | src/components/Console.tsx:116-150 | a blank command adds only the echo |
| Terminal.LookupIgnoresCaseAndSpace | src/components/Console.tsx:126 | " PWD " is looked up as "pwd" while the echo keeps the raw text |
| Terminal.KeyDown | src/components/Console.tsx:164-185 | the cursor stays -1 or a history index; other keys change nothing; ArrowUp on an empty history and ArrowDown at -1 change nothing; ArrowUp from -1 recalls the newest entry, then moves one back and stops at the oldest; ArrowDown moves one forward, and past the newest returns to -1 with an empty input; a recalled index always shows its entry |
| Terminal.RepeatedUpRecalls | src/components/Console.tsx:167-170 | from -1, k presses of ArrowUp recall the k-th newest command and stop at the oldest |
| Terminal.UpFromIndexRecalls | src/components/Console.tsx:167-170 | from an index, k presses of ArrowUp move k entries back, stopping at 0 |
| Terminal.DownUndoesUp | src/components/Console.tsx:164-185 | ArrowDown after ArrowUp returns to the starting position |
| Terminal.CopyTextRoundTrip | src/components/Console.tsx:192-196 | splitting the copied text at line breaks gives back the entry contents |
| Terminal.CopyText | src/components/Console.tsx:192-196 | no contract of its own: the entry contents joined by line breaks; CopyTextRoundTrip is its partner |
| Terminal.LogText | src/components/Console.tsx:198-201 | the log text is empty for no entries and the single "[timestamp] content" line for one |
| Terminal.LogTextRoundTrip | src/components/Console.tsx:198-201 | splitting the downloaded text at line breaks gives one "[timestamp] content" line per entry, in order, when no timestamp or content holds a line break |
| Terminal.Console.AppendOutput | src/components/Console.tsx:134-141 | the loop keeps the log as a prefix and adds one output entry per line, in order |
| Terminal.Console.ExecuteCommand | src/components/Console.tsx:108-154 | the raw command joins the history, even "clear"; the cursor resets to -1; the log becomes AfterCommand |
| Terminal.Console.Submit | src/components/Console.tsx:156-162 | a blank input changes nothing, the recall cursor included; any other input joins the history, resets the cursor to -1, updates the log as AfterCommand says and empties the input; the connection flag stays |
| Terminal.Console.Type | src/components/Console.tsx:301 | typing (in the input here or the one at line 317) sets the input; history, cursor, log and connection stay |
| Terminal.Console.CanSubmit | src/components/Console.tsx:323 | the submit button is enabled exactly when connected and the input is not white space only |
| Terminal.Console.PressKey | src/components/Console.tsx:164-185 | the cursor and input follow KeyDown; history and log are unchanged |
| Terminal.Console.ClearConsole | src/components/Console.tsx:187-190 | the log empties and nothing else changes |
| Terminal.Console.ToggleConnection | src/components/Console.tsx:256-258 | the connection flag flips and nothing else changes |
| VpsTerminal.Banner | components/vps/vps-console.tsx:17-22 | four opening lines, the first naming the server |
| VpsTerminal.ResetLines | components/vps/vps-console.tsx:52 | "clear" resets the lines to the first and last banner lines |
| VpsTerminal.Echo | components/vps/vps-console.tsx:35 | no contract of its own: the prompt echo `user@<id>:~$ <command>` that PressKey appends |
| VpsTerminal.Reply | components/vps/vps-console.tsx:41-56 | no contract of its own: `simulateCommand`; ReplyIgnoresCase and UpperCaseListing state its properties |
| VpsTerminal.ReplyIgnoresCase | components/vps/vps-console.tsx:41-56 | replies depend only on the lower-cased command; an unknown command is answered "bash: cmd: command not found" with the command as typed |
| VpsTerminal.UpperCaseListing | components/vps/vps-console.tsx:42-44 | "LS" is answered like "ls" |
| VpsTerminal.VpsConsole.Type | components/vps/vps-console.tsx:16 | typing sets the input and leaves the lines |
| VpsTerminal.VpsConsole.PressKey | components/vps/vps-console.tsx:31-39 | non-Enter keys change nothing; Enter always empties the input; a blank input adds nothing; otherwise the echo of the trimmed command and its reply are appended |
| AlertPanel.PendingCount | components/monitoring/alert-panel.tsx:118 | the badge count is 0 exactly when no alert needs attention |
| AlertPanel.NeedsAttention | components/monitoring/alert-panel.tsx:70 | no contract of its own: not acknowledged and not resolved; PendingCount, Visible and AcknowledgeCount are stated over it |
| AlertPanel.Acknowledge | components/monitoring/alert-panel.tsx:60-62 | alerts with that id become acknowledged; length, order and every other field are kept |
| AlertPanel.AcknowledgeIdempotent | components/monitoring/alert-panel.tsx:61 | acknowledging twice is acknowledging once |
| AlertPanel.AcknowledgeCount | components/monitoring/alert-panel.tsx:60-62 | with unique ids the count falls by one exactly when that alert needed attention, and is otherwise unchanged |
| AlertPanel.NoMatchUnchanged | components/monitoring/alert-panel.tsx:61 | an unknown id changes nothing |
| AlertPanel.Dismiss | components/monitoring/alert-panel.tsx:64-66 | exactly the alerts with that id are removed; the rest keep their order |
| AlertPanel.Visible | components/monitoring/alert-panel.tsx:68-73 | "all" shows every alert; the other view shows exactly the alerts that need attention, in order |
| AlertPanel.BadgeCountsFilteredList | components/monitoring/alert-panel.tsx:68-128 | the badge number equals the length of the unacknowledged view |
| AlertPanel.FormatTime | components/monitoring/alert-panel.tsx:105-116 | whole days from 24 h, else whole hours from 1 h, else whole minutes from 1 min, else "Just now" |
| AlertPanel.MockAlertAges | components/monitoring/alert-panel.tsx:19-54 | at load time the sample alerts read 5m, 10m, 1h and 2h ago |
| AlertPanel.MockAlertsPending | components/monitoring/alert-panel.tsx:19-54 | two of the sample alerts need attention |
| AlertPanel.AlertPanelState.AcknowledgeAlert | components/monitoring/alert-panel.tsx:60-62 | the list becomes Acknowledge of the old list |
| AlertPanel.AlertPanelState.DismissAlert | components/monitoring/alert-panel.tsx:64-66 | the list becomes Dismiss of the old list |
| AlertPanel.AlertPanelState.SetFilter | components/monitoring/alert-panel.tsx:138-146 | the filter takes the chosen view; the alerts stay |
| SecretVisibility.ToggleShown | src/components/CredentialsManager.tsx:126-131 | the eye button flips that id's flag and no other |
| SecretVisibility.StartsHidden | src/components/CredentialsManager.tsx:43 | every secret starts hidden |
| SecretVisibility.ToggleShownTwice | components/settings/api-keys.tsx:35-37 | toggling twice shows exactly what was shown before; an absent flag counts as hidden |
| Credentials.OptionalText | src/components/CredentialsManager.tsx:150-152 | empty text is stored as absent |
| Credentials.PortOf | src/components/CredentialsManager.tsx:151 | an empty port is absent; text that `parseInt` reads as NaN is NaN; otherwise the port is exactly the number `parseInt` reads |
| Credentials.DecimalPortIsKept | src/components/CredentialsManager.tsx:151 | a port typed in decimal is stored as that number |
| Credentials.PortIsParsedLeniently | src/components/CredentialsManager.tsx:151 | " 22" and "22abc" are stored as port 22, "-1" as -1, and "ssh" as NaN |
| Credentials.NewCredential | src/components/CredentialsManager.tsx:138-155 | rejected exactly when the name or the username is empty; otherwise the form's fields with optional ones absent when empty |
| Credentials.Remove | src/components/CredentialsManager.tsx:170-173 | every credential with that id is removed; the others keep their order |
| Credentials.Export | src/components/CredentialsManager.tsx:175-179 | same length and order, every password replaced by the marker, all other fields kept |
| Credentials.ExportRevealsNoPassword | src/components/CredentialsManager.tsx:175-179 | no exported password is anything but the marker, and exporting is idempotent |
| Credentials.EmptyPasswordHasNoRow | src/components/CredentialsManager.tsx:374-379 | a credential created without a password shows no password row |
| Credentials.PasswordRowShown | src/components/CredentialsManager.tsx:374 | no contract of its own: the password row shows for a non-empty password; EmptyPasswordHasNoRow is stated over it |
| Credentials.CredentialsPage.Create | src/components/CredentialsManager.tsx:138-168 | a rejected form changes nothing; an accepted one puts the new credential first, resets the form and closes the panel |
| Credentials.CredentialsPage.Delete | src/components/CredentialsManager.tsx:170-173 | the list becomes Remove of the old list |
| Credentials.CredentialsPage.TogglePassword | src/components/CredentialsManager.tsx:126-131 | the flags become ToggleShown of the old flags |
| Credentials.CredentialsPage.EditForm | src/components/CredentialsManager.tsx:235-307 | the form takes the edited fields; the credentials, the password flags and the panel state stay |
| Credentials.CredentialsPage.SetCreating | src/components/CredentialsManager.tsx:211 | the panel opens or closes as asked (the New button here, Cancel at line 313); credentials, flags and form stay |
| ApiKeys.RemoveKey | components/settings/api-keys.tsx:44-46 | exactly the keys with that id are removed; the others keep their order |
| ApiKeys.RemoveUnknownKey | components/settings/api-keys.tsx:45 | deleting an unknown id leaves the list unchanged |
| ApiKeys.RevealOnlyThatKey | components/settings/api-keys.tsx:35-37 | the eye button unmasks or masks that key only |
| ApiKeys.Masked | components/settings/api-keys.tsx:79 | no contract of its own: a key is masked unless its flag is set; RevealOnlyThatKey and the panel constructor are stated over it |
| ApiKeys.ApiKeysPanel.constructor | components/settings/api-keys.tsx:17-33 | every key starts masked |
| ApiKeys.ApiKeysPanel.ToggleKey | components/settings/api-keys.tsx:35-37 | the flags become ToggleShown of the old flags |
| ApiKeys.ApiKeysPanel.DeleteKey | components/settings/api-keys.tsx:44-46 | the list becomes RemoveKey of the old list |
| Common.PathSegments | src/components/FileManager.tsx:92 | no segment is empty or contains "/" |
| Common.PathSegmentsRoundTrip | components/layout/breadcrumb.tsx:11 | splitting "/" + the joined segments gives the segments back |
| Common.ToggleMembership | components/docs/doc-sidebar.tsx:88 | toggling flips membership of that element and keeps everyone else's |
| Common.ToggleNoDup | src/components/FileManager.tsx:75-79 | toggling keeps a duplicate-free list duplicate free |
| Common.ToggleTwice | components/docs/doc-sidebar.tsx:88 | toggling twice restores the original membership |
| Common.ParseIntNatToString | app/admin/users/page.tsx:225 | `parseInt` gives back every number written in decimal |
| Common.ParseIntReadsPrefix | app/admin/users/page.tsx:225 | `parseInt` skips leading white space, reads an optional sign and the digits after it, and ignores what follows them |
| Common.ParseIntWithoutDigits | app/admin/users/page.tsx:225 | without a digit after the white space and the sign, `parseInt` gives NaN |
| Common.ParseIntOrZero | app/admin/users/page.tsx:225 | no contract of its own: `parseInt(text) \|\| 0`, with NaN read as 0; EditDraftReadsNumbers is stated over it |
| FileManager.IconOf | src/components/FileManager.tsx:55-72 | folders get the folder icon whatever their extension; a file without an extension gets the generic one |
| FileManager.IconIgnoresCase | src/components/FileManager.tsx:58-59 | the extension is compared lower-cased, so "PNG" is an image |
| FileManager.HomeSegments | src/components/FileManager.tsx:92 | "/home/admin" has the segments "home" and "admin" |
| FileManager.Search | src/components/FileManager.tsx:94-96 | an order-preserving subsequence of exactly the items whose name contains the term, ignoring case |
| FileManager.EmptySearchListsAll | src/components/FileManager.tsx:94-96 | an empty term keeps every item in order |
| FileManager.FileBrowser.SelectFile | src/components/FileManager.tsx:74-80 | one run of the handler, as a click on a file's row outside its checkbox gives: the name leaves the selection when it is there, else is appended; the selection stays free of duplicates |
| FileManager.FileBrowser.ClickCheckbox | src/components/FileManager.tsx:225-230 | a click on the checkbox runs the handler for the box's change and again for the row's click, so the selection keeps exactly the same members |
| FileManager.CheckboxClickNeverSelects | src/components/FileManager.tsx:225-230 | a checkbox click on an empty selection leaves it empty, so the file is not selected |
| FileManager.FileBrowser.FileAction | src/components/FileManager.tsx:82-90 | an empty file list reports an error and keeps the selection; any other list reports its size and clears the whole selection |
| FileManager.FileBrowser.SetSearch | src/components/FileManager.tsx:179 | the search term takes the typed text; the selection stays |
| FileManager.ActionMessage | src/components/FileManager.tsx:88 | no contract of its own: "<action> <n> file(s) successfully"; FileAction states when it is reported |
| DocSidebar.VisibleLinksMembership | components/docs/doc-sidebar.tsx:99-113 | a link is listed exactly when it belongs to an expanded section |
| DocSidebar.NoneExpandedNoLinks | components/docs/doc-sidebar.tsx:100-111 | with no section expanded, no link is listed |
| DocSidebar.VisibleLinks | components/docs/doc-sidebar.tsx:99-113 | no contract of its own: the links of the expanded sections in order; VisibleLinksMembership is its partner |
| DocSidebar.IsActive | components/docs/doc-sidebar.tsx:114 | no contract of its own: the current path equals the link |
| DocSidebar.InitialLinks | components/docs/doc-sidebar.tsx:9-85 | at first only the links of "Getting Started" are listed |
| DocSidebar.Sidebar.ToggleSection | components/docs/doc-sidebar.tsx:87-89 | the expanded list becomes the toggle of the old one; only that title's membership flips; no duplicates appear |
| TicketList.Listed | components/support/ticket-list.tsx:74-82 | an order-preserving subsequence of exactly the tickets whose subject or id contains the term and whose status and priority match, "all" matching anything |
| TicketList.Shown | components/support/ticket-list.tsx:75-80 | no contract of its own: the search, status and priority tests; Listed is stated over it |
| TicketList.NoFilterListsAll | components/support/ticket-list.tsx:74-82 | no search and both filters at "all" list every ticket |
| TicketList.ChoosingStatusNarrows | components/support/ticket-list.tsx:78 | choosing a status lists a subsequence of what "all" lists |
| TicketList.NoTicketsMessageIsTrue | components/support/ticket-list.tsx:146-154 | "You haven't created any support tickets yet" is shown only when there are no tickets |
| TicketList.EmptyMessage | components/support/ticket-list.tsx:150-153 | no contract of its own: the empty-list text; NoTicketsMessageIsTrue is its partner |
| AdminTickets.Query | app/admin/tickets/page.tsx:84-90 | the rows equal to each constraint that is not "all", in order |
| AdminTickets.MessageCount | app/admin/tickets/page.tsx:100 | the first aggregate's count, or 0 when there is none |
| AdminTickets.Format | app/admin/tickets/page.tsx:98-101 | every row is kept unchanged, in order, with its message count attached |
| AdminTickets.Searched | app/admin/tickets/page.tsx:118-125 | an order-preserving subsequence of exactly the tickets whose subject, id, or owner username or full name (when present) contains the term, ignoring case |
| AdminTickets.Matches | app/admin/tickets/page.tsx:119-123 | no contract of its own: subject, id, and the owner's username or full name when present contain the term, ignoring case; Searched and EmptySearchListsAll are stated over it |
| AdminTickets.EmptySearchListsAll | app/admin/tickets/page.tsx:118-125 | an empty search keeps every ticket |
| AdminTickets.ErrorText | app/admin/tickets/page.tsx:106 | the failure's message, or "Failed to load tickets." when it has none |
| AdminTickets.AdminTicketsPage.FetchTickets | app/admin/tickets/page.tsx:58-110 | a viewer who is not a signed-in administrator fetches nothing; a successful fetch replaces the tickets with the formatted query result; a failure keeps them and sets the error; loading ends false |
| AdminTickets.AdminTicketsPage.SetFilters | app/admin/tickets/page.tsx:55-56 | the two filters take the chosen values; tickets, loading and error stay |
| VpsList.Searched | app/vps/page.tsx:18-22 | an order-preserving subsequence of exactly the servers whose name or id contains the term, ignoring case |
| VpsList.EmptySearchListsAll | app/vps/page.tsx:18-22 | an empty term keeps every server in order |
| VpsList.ErrorKeepsLoadedServers | app/vps/page.tsx:41-75 | after loading, an error shows its banner; the full-page error replaces the grid only when no server was ever loaded; no notice shows |
| VpsList.NoticesAreTruthful | app/vps/page.tsx:77-83 | "no match" shows exactly when the search hides every server and "no instances" exactly when there are none; never both, and only when loading ended without error |
| VpsList.PageView | app/vps/page.tsx:41-85 | the banner shows exactly for a non-empty error; while loading, placeholders and no notice show; a grid always holds exactly the search result |
| Breadcrumb.Capitalize | components/layout/breadcrumb.tsx:21 | the first character is upper-cased and the rest kept |
| Breadcrumb.SegmentName | components/layout/breadcrumb.tsx:20-27 | no contract of its own: the fixed names, else Capitalize; SegmentNames is its partner |
| Breadcrumb.SegmentNames | components/layout/breadcrumb.tsx:21-26 | "docs", "vps" and plain segments get their display names |
| Breadcrumb.PathOfIsJoin | components/layout/breadcrumb.tsx:16-18 | the accumulated path is "/" + the segments joined by "/" |
| Breadcrumb.PathOf | components/layout/breadcrumb.tsx:16-18 | the path accumulated over the segments, at least one character per segment; PathOfIsJoin states it is "/" plus the joined segments |
| Breadcrumb.Trail | components/layout/breadcrumb.tsx:11-33 | Home at "/" first, then one crumb per non-empty segment, named by SegmentName and linking to the path up to that segment |
| Breadcrumb.CrumbHrefsGrow | components/layout/breadcrumb.tsx:18-38 | each later href is at least two characters longer, so no two crumbs share an href |
| Breadcrumb.LastCrumbIsCurrentPage | components/layout/breadcrumb.tsx:11-41 | for a path without doubled or trailing slashes, the last crumb links to the path itself |
| Breadcrumb.IsLink | components/layout/breadcrumb.tsx:41 | no contract of its own: every crumb but the last is a link |
| TopBar.HeadingOf | components/layout/top-bar.tsx:22-49 | the breadcrumb shows exactly on paths starting with "/docs", "/admin", "/store" or "/vps/"; elsewhere the page title does |
| TopBar.ShowBreadcrumb | components/layout/top-bar.tsx:22 | no contract of its own: the four prefix tests; HeadingOf and ServerPages are stated over it |
| TopBar.PageTitle | components/layout/top-bar.tsx:23-44 | the title is always one of the ten titles of the chain |
| TopBar.PageTitleByTable | components/layout/top-bar.tsx:23-44 | listed paths get their fixed titles, other "/admin" paths "Admin Panel", everything else "Dashboard" |
| TopBar.UnreachableTitles | components/layout/top-bar.tsx:22-44 | "Create VPS", "Resource Store" and "Admin Panel" are never displayed, because their paths show the breadcrumb |
| TopBar.ServerPages | components/layout/top-bar.tsx:22-26 | "/vps" is titled "VPS Management"; every path below "/vps/" shows the breadcrumb |
| TopBar.InitialMatchesLabel | components/layout/top-bar.tsx:66-70 | once loaded, the avatar letter is one character: the upper-cased first letter of the label, or "U" for a guest |
| TopBar.UserLabel | components/layout/top-bar.tsx:70 | the label is never empty, and once loaded a non-empty username is shown as it is |
| TopBar.AvatarInitial | components/layout/top-bar.tsx:66 | the letter is empty while loading and one character once loaded |
| StatusPage.AllOperational | app/status/page.tsx:112 | true exactly when every service is operational |
| StatusPage.AnyDown | app/status/page.tsx:114 | true exactly when some service is down |
| StatusPage.OverallStatus | app/status/page.tsx:112-116 | operational exactly when all services are operational, down exactly when one is down, degraded exactly when one is not operational and none is down |
| StatusPage.ServicesAreDegraded | app/status/page.tsx:43-72 | the published services give "degraded" |
| StatusPage.StatusBadge | app/status/page.tsx:86-97 | the badge is "Unknown" exactly for a status other than operational, degraded or down |
| StatusPage.BadgeLabel | app/status/page.tsx:86-97 | each badge's text, with "Unknown" exactly for the fallback badge; OverallBadgeIsKnown states the page badge is one of the other three |
| StatusPage.OverallBadgeIsKnown | app/status/page.tsx:86-125 | the page-wide badge is never "Unknown" |
| StatusPage.OnlyFrankfurtWarns | app/status/page.tsx:206 | latency above 30 ms is a warning, and in the published table only Frankfurt shows one |
| StatusPage.LatencyWarning | app/status/page.tsx:206 | no contract of its own: latency above 30 ms is shown as a warning; OnlyFrankfurtWarns is stated over it |
| TicketForm.FindPriority | components/support/ticket-form.tsx:56 | none exactly when no level has the value; otherwise the first level with that value |
| TicketForm.PriorityValues | components/support/ticket-form.tsx:15-20 | the level values are low, medium, high and urgent, all distinct |
| TicketForm.ResponseHints | components/support/ticket-form.tsx:157-170 | the hint shows exactly for the four level values, with 1, 4, 24 and 48 hours, and not for an untouched form |
| TicketForm.ResponseTime | components/support/ticket-form.tsx:166-169 | a text appears exactly for the four level values, "Within 1 hour" for urgent and "Within 48 hours" for low; ResponseHints states all four times |
| TicketForm.ResponseHint | components/support/ticket-form.tsx:157-170 | no contract of its own: the response time of the chosen level; ResponseHints is its partner |
| TicketForm.SubmitIgnoresServerId | components/support/ticket-form.tsx:179-181 | the optional server id never affects the submit button; an untouched form cannot be sent |
| TicketForm.FilledFormCanBeSent | components/support/ticket-form.tsx:179-181 | with subject, a listed category, priority and description filled in, and no submission running, submit is enabled |
| TicketForm.SubmitEnabled | components/support/ticket-form.tsx:179-181 | no contract of its own: no submission running and the four starred fields filled; SubmitIgnoresServerId and FilledFormCanBeSent are stated over it |

## Left out

- Backend calls are parameters: a write is a success flag, a fetch its rows or a failure. The re-fetch after a successful write returns the stored row. Network latency, concurrent writes and races between two purchases are not modelled.
- The ticket queue's `order("created_at", descending)` is assumed to be applied by the store. `AdminTickets.Query` keeps the rows in the order they come in.
- Toasts, `console.log`, clipboard writes, Blob downloads, scrolling, router navigation and rendering details are left out. For the clipboard and the download, only the text they carry is modelled.
- The create-server submit only waits on a timer and navigates, so it is left out. So are the ticket form's submit (a timer that toggles `isSubmitting`) and the administrator's suspend action (a timer and a toast, with no state written).
- The status page's random uptime and response-time series are left out (random numbers and clock values).
- Icon and colour tables are left out beyond the file icon class and the status badge.
- Clock values are parameters throughout. Locale time and date formatting (`toLocaleTimeString`, `toLocaleDateString`, `toISOString`, `Date.toString`) is not modelled.
- Prices are exact reals. `toFixed(2)` formatting and floating-point rounding are not modelled.
- Case mapping and white space are ASCII only. JavaScript's Unicode `toLowerCase`, `toUpperCase` and `trim` are not modelled.
- `parseInt` is modelled for decimal text after leading white space, with an optional sign. Hexadecimal prefixes are not modelled. Text that is not a number gives `None`, which stands for NaN.
- The Console's command table is read as a map, so keys such as "constructor" that only exist on the object's prototype are not modelled.
- CreditStore.CustomAttempt: requires the field to be empty or numeric (`ReadableAmount`). A field that `parseInt` maps to NaN is not modelled, because NaN makes every comparison false and the purchase would go on with a NaN price.
- CreditStore.StorePage.CustomPurchase: has the same `ReadableAmount` requirement on the current field.
- VpsTerminal.VpsConsole.PressKey: "clear" both appends its echo and requests a reset from inside the state updater, and which wins depends on how React orders the two updates. The method takes that order as the parameter `resetWins`. The "date" reply is the parameter `now`.
- Terminal.Console.Submit: the input box and the submit button are also disabled while disconnected. That is modelled only as the `CanSubmit` predicate, not as a requirement on `Submit`.
- Session and login handling in the auth hook is not part of this model.
- Static pages and layout shells are left out; they hold no logic.

## Findings

| source | as written | input that shows it | evidently intended | confidence | as-written member | corrected member |
|---|---|---|---|---|---|---|
| src/pages/StorePage.tsx:72-95 | the custom purchase checks only that the field is non-empty and that the credits cover `amount * price per GB`; a negative amount gives a negative price that every balance covers | custom RAM amount "-10" with 0 credits: the price is -1000, the purchase goes through, credits become 1000 and RAM becomes -10 GB | amounts below 1 are refused, as the field's `min="1"` (line 201) suggests, so a purchase always costs at least 5 credits and never adds credits | not executed | CreditStore.NegativeCustomAmountMintsCredits | CreditStore.IntendedCustomPurchaseNeverMints |
| src/components/FileManager.tsx:225-230 | the checkbox's `onChange` and the enclosing row's `onClick` both call `handleFileSelect`, whose functional update toggles the name; a click on the box fires both, so the two toggles cancel | a click on the checkbox of "config.json" with nothing selected: both updates run and the selection is empty again | a click anywhere on the row, the box included, toggles the file once | not executed | FileManager.CheckboxClickNeverSelects | FileManager.FileBrowser.SelectFile |
