# shoot-scheduler-hub, modelled in Dafny

This project models the data core of the shoot-scheduler-hub dashboard, a web app for booking and tracking real-estate photo shoots.

**The shoot store** (`ShootsContext`) keeps the list of shoots, each of which is a `ShootData` record:
- It adds, updates and deletes shoots locally first.
- It then mirrors each change to a remote `shoots` table:
  - an insert for an add;
  - an update for an edit, but only when the shoot id is UUID-shaped and the translated payload is non-empty;
  - a delete for a deletion.
- It answers two kinds of query:
  - shoots by status, narrowed to the signed-in client;
  - one summary per distinct photographer, editor or client.

**The shoot-history page** has its own, different status query. It also has an address and photographer filter, and it sorts uploaded files into images, videos and documents.

**The invoice list** provides:
- the status tabs and their counts;
- the filter chips on mobile;
- the buttons each invoice offers;
- the admin-only handlers;
- the badge colour.

**The booking form** provides:
- the client-account and admin validation schemas;
- the default values;
- the client search;
- the selected client;
- the details submitted;
- the package highlight.

The model is laid out as follows:
- `common.dfy`: `Option`, an order-preserving `Filter` and its lemmas, and the sub-sequence relation.
- `text.dfy`: ASCII `toLowerCase`/`toUpperCase`, `startsWith` and `includes`.
- `shoot_data.dfy`: the shoot record, the partial record an update supplies, the spread merge `{ ...shoot, ...updates }`, and the translation between records and table rows.
- `shoot_queries.dfy`: the store's status query. It also holds the `getUnique*` grouping: a loop over a map, proved against a specification of first-seen order, first-seen fields and occurrence counts.
- `shoot_store.dfy`: the store as a class whose `shoots` field the methods replace. The remote side is made explicit:
  - each method returns the remote call it issues;
  - a `RemoteOutcome` parameter stands for the table's answer.
- `shoot_history.dfy`, `invoice_list.dfy`, `client_property_form.dfy`: the three pages.

JavaScript truthiness is written out:
- a string counts as supplied when it is non-empty;
- an object or array counts when it is present.

A field that an update may set to `undefined` is an `Option<Option<T>>`. `Some(None)` means the key is present with the value `undefined`.

Four behaviours of the code are worth stating outright, because the model follows them as written:
- **Ids are not checked on add.** `addShoot` appends without checking that the id is new. `AddKeepsUniqueIds` shows that ids stay distinct after an add exactly when the new id is fresh.
- **Any UUID version passes.** The regular expression at `ShootsContext.tsx:181` accepts any 8-4-4-4-12 hexadecimal form, whatever the version digit. `IsUuid` follows the regular expression.
- **Delete is never gated.** Only `updateShoot` checks the id's shape. `deleteShoot` issues the remote delete for any id, and `DeleteShoot` ensures that.
- **A rejected delete is shown.** `deleteShoot` shows an "Error deleting shoot" notification when the remote delete is rejected, and `DeleteShoot` returns it.

The two status queries really do differ, and the model states both side by side:
- The store's `'scheduled'` query also returns `'booked'` shoots; the history page's query does not.
- The history page matches a client with no company to every other shoot whose client has no company.

## Model

| member | source | states |
|---|---|---|
| Common.Filter | src/context/ShootsContext.tsx:220 | `Array.prototype.filter`: the result is no longer than the input and holds only input elements satisfying the predicate |
| Common.FilterMembership | src/context/ShootsContext.tsx:220 | an element is in the filtered list iff it is in the list and satisfies the predicate |
| Common.FilterSubsequence | src/context/ShootsContext.tsx:220 | filtering keeps the surviving elements in their original order |
| Common.FilterTwice | src/context/ShootsContext.tsx:250-288 | narrowing and then filtering by status equals one filter by the conjunction |
| Common.FilterDisjointLength | src/components/accounting/InvoiceList.tsx:75-93 | three mutually exclusive filters select at most the whole list, and exactly the whole list iff every element satisfies one |
| Common.FilterPartitionLength | src/pages/ShootHistory.tsx:107-121 | three filters of which exactly one holds of each element split the list completely |
| Text.Lower | src/components/accounting/InvoiceList.tsx:158 | `toLowerCase`: same length, each character lower-cased |
| Text.IncludesAt | src/pages/ShootHistory.tsx:82 | `includes` holds iff the substring occurs at some index |
| Text.IncludesEmpty | src/components/booking/ClientPropertyForm.tsx:127 | every string includes the empty string, so an empty search matches everything |
| Text.IncludesMiddle | src/components/accounting/InvoiceList.tsx:116-155 | a concatenation includes each of its middle parts |
| Text.Capitalize | src/pages/ShootHistory.tsx:175 | same length, first character upper-cased, rest unchanged |
| ShootData.MergeShoot | src/context/ShootsContext.tsx:146-149 | `{ ...shoot, ...updates }`: an empty partial record changes nothing, an update without `id` keeps the id, and a supplied status wins |
| ShootData.MergeFieldwise | src/context/ShootsContext.tsx:146-149 | in `{ ...shoot, ...updates }` every supplied key overrides and every omitted key is kept, for all fifteen fields |
| ShootData.MergeEmptyPatch | src/context/ShootsContext.tsx:146-149 | merging an empty partial record changes nothing |
| ShootData.MergeIdempotent | src/context/ShootsContext.tsx:146-149 | applying the same partial update twice equals applying it once |
| ShootData.MergeOverlay | src/context/ShootsContext.tsx:146-149 | two successive merges equal one merge of the overlaid partial records |
| ShootData.MergeFullPatch | src/context/ShootsContext.tsx:146-149 | a partial record supplying every key replaces the shoot outright |
| ShootData.NonEmpty | src/context/ShootsContext.tsx:118-120 | `x \|\| null` on an optional string keeps it iff present and non-empty |
| ShootData.ToRow | src/context/ShootsContext.tsx:107-123 | the inserted row keeps id and status, always has a services list, and never carries empty notes or an empty completion date |
| ShootData.FromRow | src/context/ShootsContext.tsx:55-71 | the loaded record keeps id and status, turns `null` services into `[]`, and never carries empty notes or an empty completion date |
| ShootData.RowRoundTrip | src/context/ShootsContext.tsx:107-123 | inserting a shoot and loading the row back yields the shoot with empty notes and completion date dropped, and the shoot itself iff neither is `""` |
| ShootData.RowLoadInsert | src/context/ShootsContext.tsx:55-71 | a loaded row written back is the same row except that `null` services become `[]` and empty notes or completion dates become `null` |
| ShootQueries.MatchesClient | src/context/ShootsContext.tsx:254-271 | with an absent or empty user company, a shoot matches only by client name or email |
| ShootQueries.StatusMatches | src/context/ShootsContext.tsx:278-285 | every status matches itself, and any query other than `'scheduled'` matches only its own status |
| ShootQueries.ClientShootsByStatus | src/context/ShootsContext.tsx:245-289 | the result is no longer than the store and holds only stored shoots that are visible to the user and match the status |
| ShootQueries.ClientShootsByStatusSpec | src/context/ShootsContext.tsx:245-289 | the query is one order-preserving filter: a shoot is returned iff it is in the store, visible to the user, and matches the status |
| ShootQueries.ScheduledIncludesBooked | src/context/ShootsContext.tsx:279-282 | the `'scheduled'` query returns exactly the visible `'scheduled'` and `'booked'` shoots |
| ShootQueries.OtherStatusIsLiteral | src/context/ShootsContext.tsx:283-285 | any other status is matched by equality |
| ShootQueries.NonClientSeesAll | src/context/ShootsContext.tsx:253 | users without the client role are not narrowed |
| ShootQueries.PhotographerKeys | src/context/ShootsContext.tsx:296-297 | only shoots whose photographer has a non-empty name take part in the grouping |
| ShootQueries.PhotographerKeysCount | src/context/ShootsContext.tsx:296 | one entry per shoot with a named photographer |
| ShootQueries.EditorKeys | src/context/ShootsContext.tsx:323-324 | only shoots with an editor whose name is non-empty take part |
| ShootQueries.EditorKeysCount | src/context/ShootsContext.tsx:323 | one entry per shoot with a named editor |
| ShootQueries.ClientKeys | src/context/ShootsContext.tsx:356-357 | only shoots whose client has a non-empty name take part |
| ShootQueries.ClientKeysCount | src/context/ShootsContext.tsx:356 | one entry per shoot with a named client |
| ShootQueries.GroupByName | src/context/ShootsContext.tsx:292-316 | the `Map` loop returns exactly the grouping specification `Grouped` |
| ShootQueries.NamesMembership | src/context/ShootsContext.tsx:315 | a name is listed iff some entry carries it |
| ShootQueries.NamesDistinct | src/context/ShootsContext.tsx:298-311 | each name is listed once (map keys) |
| ShootQueries.NamesPrefix | src/context/ShootsContext.tsx:315 | names are listed in first-seen order: the names of a prefix are a prefix of the names |
| ShootQueries.FirstInfoIsFirst | src/context/ShootsContext.tsx:305-311 | the carried fields are those of the first entry with that name |
| ShootQueries.OccurrencesCountsItems | src/context/ShootsContext.tsx:300-304 | a name's `shootCount` is the number of entries with that name |
| ShootQueries.GroupedCountsSum | src/context/ShootsContext.tsx:292-316 | the counts of all summaries add up to the number of entries |
| ShootQueries.GroupedSpec | src/context/ShootsContext.tsx:292-316 | one summary per distinct name, in first-seen order, with first-seen fields, exact counts and counts summing to the total |
| ShootStore.ColumnKeysDistinct | src/context/ShootsContext.tsx:160-172 | distinct columns have distinct names |
| ShootStore.ColumnValue | src/context/ShootsContext.tsx:158-172 | an empty partial record contributes to no column, and each column receives a value of its own kind |
| ShootStore.RemotePayload | src/context/ShootsContext.tsx:158-172 | the payload has a column iff the partial record supplies it under that column's rule, with the supplied value |
| ShootStore.PayloadKeys | src/context/ShootsContext.tsx:160-172 | per column: strings when non-empty; `client`, `location`, `photographer`, `services` and `payment` when present; `editor`, `notes` and `media` when not `undefined`; `completedDate` when non-empty; `tourLinks` when present |
| ShootStore.PayloadIgnoresIdentity | src/context/ShootsContext.tsx:158-172 | `id` and `createdBy` never reach the payload |
| ShootStore.IsUuid | src/context/ShootsContext.tsx:181 | an id passing the test has 36 characters, each a dash or a hexadecimal digit |
| ShootStore.UuidPositional | src/context/ShootsContext.tsx:181 | the UUID test holds iff the id has 36 characters, dashes at 8, 13, 18 and 23, and hex digits elsewhere |
| ShootStore.TimestampIdIsNotUuid | src/context/ShootsContext.tsx:181 | a timestamp-style id fails the UUID test |
| ShootStore.UpdateCall | src/context/ShootsContext.tsx:174-187 | a remote update is issued iff the payload is non-empty and the id is UUID-shaped, and it carries that payload |
| ShootStore.UpdateResultOf | src/context/ShootsContext.tsx:174-216 | `updateShoot` rejects iff a remote update was issued and failed, with the remote message; it shows no notice iff the payload is empty; a rejection carries the "Error updating shoot" toast with the remote message |
| ShootStore.NonUuidUpdateStaysLocal | src/context/ShootsContext.tsx:204-211 | a non-UUID id never reaches the table, and the update always resolves |
| ShootStore.MergeById | src/context/ShootsContext.tsx:147-149 | the updated list has the same length |
| ShootStore.MergeByIdSpec | src/context/ShootsContext.tsx:147-149 | shoots with another id are untouched, matching shoots are merged, and an unknown id changes nothing |
| ShootStore.RemoveById | src/context/ShootsContext.tsx:220 | the list after delete is no longer than before, and every remaining shoot was there and has another id |
| ShootStore.RemoveByIdSpec | src/context/ShootsContext.tsx:220 | deletion keeps, in order, exactly the shoots with another id, and removes as many shoots as carried the id |
| ShootStore.LoadedShoots | src/context/ShootsContext.tsx:46-77 | a failed or empty load keeps the local list; otherwise the list becomes the transformed rows |
| ShootStore.ShootStore.constructor | src/context/ShootsContext.tsx:32-35 | the list starts as the stored list, or empty |
| ShootStore.ShootStore.LoadFromRemote | src/context/ShootsContext.tsx:39-86 | the mount-time load sets the list to `LoadedShoots` |
| ShootStore.ShootStore.AddShoot | src/context/ShootsContext.tsx:93-140 | the shoot is appended and the insert of its row is issued, whatever the remote outcome |
| ShootStore.ShootStore.UpdateShoot | src/context/ShootsContext.tsx:142-217 | the list becomes the merged list, the remote call is `UpdateCall`, and the result is `UpdateResultOf` |
| ShootStore.ShootStore.DeleteShoot | src/context/ShootsContext.tsx:219-242 | the list loses every shoot with the id, the remote delete is always issued, and an error notice appears iff the remote fails |
| ShootStore.ShootStore.UniquePhotographers | src/context/ShootsContext.tsx:292-316 | the result is the first-seen grouping of named photographers |
| ShootStore.ShootStore.UniqueEditors | src/context/ShootsContext.tsx:319-343 | the result is the first-seen grouping of named editors |
| ShootStore.ShootStore.UniqueClients | src/context/ShootsContext.tsx:346-378 | the result is the first-seen grouping of named clients with email, company and phone |
| ShootStore.AddKeepsUniqueIds | src/context/ShootsContext.tsx:97-103 | ids stay pairwise distinct after an add iff the new id is fresh |
| ShootStore.RemoveKeepsUniqueIds | src/context/ShootsContext.tsx:220 | deletion preserves distinct ids |
| ShootStore.UpdateKeepsUniqueIds | src/context/ShootsContext.tsx:146-149 | an update that does not supply `id` preserves distinct ids |
| ShootStore.AddedShootIsListed | src/context/ShootsContext.tsx:97-103 | an added shoot visible to the user appears in that user's query for its status |
| ShootStore.DeletedShootIsGone | src/context/ShootsContext.tsx:220 | after deletion no query returns a shoot with that id |
| ShootStore.UpdatedStatusIsListed | src/context/ShootsContext.tsx:146-149 | a shoot whose update supplies a status, and which stays visible, appears in the query for that status (`'scheduled'` included) |
| ShootHistory.PageMatchesClient | src/pages/ShootHistory.tsx:64-68 | every shoot the store matches is matched on the page, and a user without a company matches every shoot whose client has none |
| ShootHistory.PageShootsByStatus | src/pages/ShootHistory.tsx:59-73 | the result is no longer than the store and holds only stored shoots visible under the page's matching with exactly that status |
| ShootHistory.PageShootsByStatusSpec | src/pages/ShootHistory.tsx:59-73 | a shoot is returned iff it is in the store, visible to the user under the page's matching, and has exactly that status; order is kept |
| ShootHistory.PageScheduledExcludesBooked | src/pages/ShootHistory.tsx:75 | the page's scheduled list never contains a booked shoot |
| ShootHistory.ScheduledQueriesDiffer | src/pages/ShootHistory.tsx:71-75 | a visible booked shoot is in the store's scheduled list and not in the page's |
| ShootHistory.PageMatchWidensStoreMatch | src/pages/ShootHistory.tsx:64-68 | the page accepts every shoot the store accepts, and the extra ones are exactly company matches on an absent or empty user company |
| ShootHistory.AbsentCompaniesMatchOnPage | src/pages/ShootHistory.tsx:66 | a client user without a company sees another company-less client's shoot on the page but not in the store's query |
| ShootHistory.FilteredScheduledShoots | src/pages/ShootHistory.tsx:80-88 | the filtered list is no longer than the scheduled list and holds only its shoots that pass both filters |
| ShootHistory.FilteredScheduledSpec | src/pages/ShootHistory.tsx:80-88 | the filtered list is an order-preserving sub-list holding exactly the shoots that pass both filters, and the whole list when both filters are empty |
| ShootHistory.AddressFilterIgnoresCase | src/pages/ShootHistory.tsx:81-82 | the address filter gives the same answer for case variants of the query |
| ShootHistory.MediaFiles | src/pages/ShootHistory.tsx:107-111 | one media entry per file, with its URL, name and upload stamp |
| ShootHistory.UploadedMedia | src/pages/ShootHistory.tsx:104-121 | every media entry carries the upload stamp, and an upload without image (video) files has no images (videos) |
| ShootHistory.ImageIsNotVideo | src/pages/ShootHistory.tsx:107-117 | no file is both an image and a video |
| ShootHistory.UploadPartition | src/pages/ShootHistory.tsx:107-121 | every file lands in exactly one of images, videos, documents, in order, and the group sizes sum to the number of files |
| ShootHistory.UploadRequest | src/pages/ShootHistory.tsx:100-125 | no update without a selected shoot; otherwise an update of that shoot's id whose partial record supplies only the media bundle built from the files, so the merged shoot differs only in `media` |
| ShootHistory.UploadReplacesMedia | src/pages/ShootHistory.tsx:104-125 | the upload replaces the shoot's whole media bundle and nothing else, its payload is exactly the `media` column, and a UUID-identified shoot is always sent to the table |
| ShootHistory.UploadOutcome | src/pages/ShootHistory.tsx:127-141 | the dialog closes iff the update resolved; "Upload failed" iff it rejected |
| ShootHistory.UploadFailsOnlyRemotely | src/pages/ShootHistory.tsx:125-141 | an upload fails iff the shoot has a UUID and the table rejects the update |
| ShootHistory.StatusColor | src/pages/ShootHistory.tsx:26-31 | the colour is `bg-gray-500` iff the status is not one of the four known statuses |
| ShootHistory.KnownStatusLabels | src/pages/ShootHistory.tsx:175 | the four known statuses read "Scheduled", "Booked", "Completed", "Pending" |
| InvoiceList.FilteredInvoices | src/components/accounting/InvoiceList.tsx:67-69 | the `'all'` tab shows the list unchanged |
| InvoiceList.FilteredInvoicesSpec | src/components/accounting/InvoiceList.tsx:67-69 | a tab shows, in order, exactly the invoices it selects |
| InvoiceList.FilterOptions | src/components/accounting/InvoiceList.tsx:71-96 | four options with keys all/pending/paid/overdue and their labels |
| InvoiceList.FilterOptionCountsMatchRows | src/components/accounting/InvoiceList.tsx:71-96 | each option's count is the number of rows its tab shows |
| InvoiceList.StatusCountsWithinTotal | src/components/accounting/InvoiceList.tsx:75-93 | pending + paid + overdue never exceeds the total, and equals it iff every status is one of the three |
| InvoiceList.NextExpanded | src/components/accounting/InvoiceList.tsx:106-113 | on mobile a tap collapses the chip iff it was expanded and otherwise expands it; off mobile nothing changes |
| InvoiceList.TwoTapsOnOneChip | src/components/accounting/InvoiceList.tsx:106-113 | two taps on the same chip leave it expanded only if it was before |
| InvoiceList.InvoiceListState.constructor | src/components/accounting/InvoiceList.tsx:61-66 | the list starts on the `'all'` tab, nothing expanded or selected |
| InvoiceList.InvoiceListState.HandleFilterClick | src/components/accounting/InvoiceList.tsx:104-114 | the tapped key becomes the active tab, the chip toggles on mobile, and on mobile the expanded chip is always the active one |
| InvoiceList.InvoiceListState.SelectTab | src/components/accounting/InvoiceList.tsx:263 | a desktop tab changes only the active tab |
| InvoiceList.InvoiceListState.HandleViewInvoice | src/components/accounting/InvoiceList.tsx:98-102 | the invoice is selected, the dialog opens, and the parent's `onView` is called |
| InvoiceList.ShowMarkAsPaid | src/components/accounting/InvoiceList.tsx:433 | "Mark as Paid" is shown only to admins and never for a paid or draft invoice |
| InvoiceList.RowActions | src/components/accounting/InvoiceList.tsx:318-353 | a list row starts with View and Download, never offers Print, Send or Delete, and offers Edit iff the user is an admin |
| InvoiceList.CardActions | src/components/accounting/InvoiceList.tsx:433-527 | a card always offers View, Download and Print, and offers Send and Delete iff the user is an admin |
| InvoiceList.OfferedActions | src/components/accounting/InvoiceList.tsx:433-527 | non-admins are offered only view, download and print; "Mark as Paid" is offered iff admin and the status is pending or overdue |
| InvoiceList.DownloadEffects | src/components/accounting/InvoiceList.tsx:116-122 | one non-destructive toast naming the invoice number, then `onDownload` |
| InvoiceList.SendEffects | src/components/accounting/InvoiceList.tsx:124-130 | nothing for a non-admin; for an admin one non-destructive toast naming the invoice number and the client, and no callback |
| InvoiceList.PrintEffects | src/components/accounting/InvoiceList.tsx:132-137 | one non-destructive toast naming the invoice number, and no callback |
| InvoiceList.EditEffects | src/components/accounting/InvoiceList.tsx:139-146 | nothing for a non-admin; for an admin one non-destructive toast naming the invoice number, then `onEdit` |
| InvoiceList.DeleteEffects | src/components/accounting/InvoiceList.tsx:148-155 | nothing for a non-admin; for an admin one destructive toast naming the invoice number, and no callback |
| InvoiceList.AdminGuards | src/components/accounting/InvoiceList.tsx:124-155 | for non-admins send, edit and delete have no effect; for admins each raises exactly one toast, only delete's is destructive, only edit calls the parent, and delete removes nothing |
| InvoiceList.ToastsNameTheInvoice | src/components/accounting/InvoiceList.tsx:116-155 | every handler's toast names the invoice's number |
| InvoiceList.StatusColor | src/components/accounting/InvoiceList.tsx:157-170 | the default blue class is chosen iff the lower-cased status is none of paid/overdue/pending/draft |
| InvoiceList.StatusColorIgnoresCase | src/components/accounting/InvoiceList.tsx:158 | case variants of a status get the same class |
| InvoiceList.CapitalisedStatusBadgedButNotCounted | src/components/accounting/InvoiceList.tsx:67-96 | a `"Paid"` invoice gets the paid badge but is not shown or counted under the case-sensitive 'Paid' tab |
| ClientPropertyForm.Parse | src/components/booking/ClientPropertyForm.tsx:48-67 | a successful parse returns the values, without `clientId` under the client-account schema; a failure has at least one issue |
| ClientPropertyForm.ClientSchemaAccepts | src/components/booking/ClientPropertyForm.tsx:48-56 | the client-account schema accepts iff address, city, state, ZIP and package are non-empty and the type is residential or commercial |
| ClientPropertyForm.AdminSchemaAccepts | src/components/booking/ClientPropertyForm.tsx:58-67 | the admin schema accepts iff the client-account schema does and the client id is present and non-empty |
| ClientPropertyForm.IssuesName | src/components/booking/ClientPropertyForm.tsx:48-67 | each empty field yields its own message, and the admin schema reports the client id first |
| ClientPropertyForm.OrEmpty | src/components/booking/ClientPropertyForm.tsx:106 | a missing string becomes `''` and a present one is kept |
| ClientPropertyForm.TypeOrResidential | src/components/booking/ClientPropertyForm.tsx:110 | a missing or empty type becomes `'residential'`, and a non-empty one is kept |
| ClientPropertyForm.DefaultValues | src/components/booking/ClientPropertyForm.tsx:102-124 | only the admin form carries a client id; the type is never empty and the info always present; a supplied address or package is kept |
| ClientPropertyForm.DefaultValuesSpec | src/components/booking/ClientPropertyForm.tsx:102-124 | only the admin form carries a client id; a missing type is residential; a missing address or package makes the defaults fail; the defaults pass the client schema iff the initial fields are complete |
| ClientPropertyForm.MatchesSearch | src/components/booking/ClientPropertyForm.tsx:127-128 | a client without a company, or with an empty one, is found by name only |
| ClientPropertyForm.FilteredClients | src/components/booking/ClientPropertyForm.tsx:126-129 | the result is no longer than the client list and holds only clients that match the search |
| ClientPropertyForm.FilteredClientsSpec | src/components/booking/ClientPropertyForm.tsx:126-129 | the search keeps, in order, exactly the clients whose lower-cased name or present company includes the lower-cased query, and keeps everyone for an empty query |
| ClientPropertyForm.SearchIgnoresCase | src/components/booking/ClientPropertyForm.tsx:127-128 | case variants of the query select the same clients |
| ClientPropertyForm.Find | src/components/booking/ClientPropertyForm.tsx:132 | `find` returns a client with the id, and nothing iff no client has it |
| ClientPropertyForm.FindIsFirst | src/components/booking/ClientPropertyForm.tsx:132 | the client found is the first with that id |
| ClientPropertyForm.SelectedClient | src/components/booking/ClientPropertyForm.tsx:131-132 | the client-account form selects nobody; a selected client carries the form's client id |
| ClientPropertyForm.HandleSubmit | src/components/booking/ClientPropertyForm.tsx:134-152 | every property field and the package come from the form; the client id and name come from the initial data in client-account mode, and from the form and the selected client in admin mode |
| ClientPropertyForm.ClientAccountSubmit | src/components/booking/ClientPropertyForm.tsx:135-143 | in client-account mode the client id and details come from the initial data whatever the form holds, and address, city, state, ZIP, type, info and package come from the form |
| ClientPropertyForm.AdminSubmit | src/components/booking/ClientPropertyForm.tsx:144-151 | in admin mode the details are the first matching client's, with missing phone or company as `''`, or all `''` when no client matches |
| ClientPropertyForm.PackageHighlight | src/components/booking/ClientPropertyForm.tsx:159-163 | a highlight exists iff the name is `Premium` or `Standard` |
| ClientPropertyForm.PackageHighlightSpec | src/components/booking/ClientPropertyForm.tsx:159-163 | Premium reads "Most Popular", Standard reads "Best Value", and the match is case-sensitive |

## Left out

- **Local storage.** Reading and writing `localStorage`, and JSON (de)serialisation, are persistence side effects. The constructor takes the stored list as a parameter.
- **Network calls.** The remote table calls are network I/O. Each store method returns the call it would issue; a `RemoteOutcome` parameter stands for the answer. A transport error is treated like a rejected call. The `beta_waitlist` insert in `src/components/auth/BetaWaitlistForm.tsx` is not part of this model.
- **Concurrency.** The order of asynchronous completions relative to later local changes is a concurrency matter. Each method is modelled as one atomic step.
- **Presentation.** Toasts in the store are modelled only as the notice a method or its result carries; `updateShoot`'s "Error updating shoot" toast is the `error` of a `Failed` result. Console logging, navigation and all JSX rendering are left out. The notice texts of `addShoot` do not exist: it logs only.
- **Presentation-only files.** `calendar.tsx`, `FloatingActionButton.tsx`, `BookingStepIndicator.tsx`, `NavLink.tsx` and `LoginForm.tsx` are not part of this model.
- **Authentication.** `src/services/authService.ts` is not part of this model. Its token plumbing rests on `btoa`, `JSON.stringify` and `Date.now`.
- **`createNewShoot`.** It relies on a UUID generator, the current date and floating-point payment defaults, and it is never exported.
- **Browser calls in the upload.** `date-fns` formatting, `URL.createObjectURL` and `new Date()` are foreign calls. The object URL is a function parameter. One upload stamp stands for every file's `toISOString()` time.
- **Upload toast description.** The description of the upload toast, which interpolates the file count, is not modelled.
- **Email validation.** Zod's own email validation in the waitlist form is a library regular expression.
- **Invoice dates and amounts.** The `InvoiceData` type lives in `src/utils/invoiceUtils`, which is not part of this model. Dates and amounts are carried, never interpreted.
- **Tour links.** The tour-link bundle is carried as an opaque list of links.
- **Client type.** The `Client` type lives in `src/types/clients`, which is not part of this model. Its fields are those the form reads.
- **`null` values.** Values that the TypeScript types rule out, such as `null` in a partial update or a missing photographer object, are not modelled.
- ShootData.MergeShoot: a partial record that supplies a required key with the value `undefined` (for example `{ scheduledDate: undefined }`) is not modelled. The spread would overwrite that field with `undefined`; `ShootPatch`, and so `MergeFieldwise`, can say "supplied with `undefined`" only for the five optional fields.
- **Case mapping.** `toLowerCase`/`toUpperCase` are modelled for ASCII letters only.
- **`statusColors` lookup.** The history page indexes `statusColors` with the raw status. Inherited object keys such as `"constructor"` would be found by that lookup; the model treats them as unknown statuses.
- ClientPropertyForm.SelectedClient: computed from the form values at submission. The source uses the value read during the last render, which is the same unless the form changed without a re-render.
- ClientPropertyForm.Parse: an invalid `propertyType` is reported with the validation library's default message, whose exact wording belongs to that library.
