# Dash wallet screens: a Dafny model

This project models the logic behind several screens of the Dash Android
wallet:

- `ColorUtil` (module `ColorUtil`) packs and unpacks ARGB colour ints and
  formats them as `#aarrggbb`. Java's 32-bit `int` is modelled as `bv32`,
  with Java's arithmetic `>>` written out.
- The invitation history adapter (module `Invites`, class `InvitesAdapter`)
  keeps the rows of the invitations list: a create row, a header, the
  invites, and an "empty history" placeholder. The `history` setter and the
  ALL / PENDING / CLAIMED filter rebuild those rows in place.
- The contacts screen (module `Contacts`, class `ContactsActivity`) turns
  username search results into list rows. Up to three pending contact
  requests come first, under a header with the full count, then the
  established contacts under their header. The screen also tracks the single
  accept that may be in flight and reacts to the contact-request answer.
- The frequent-contacts feed (module `FrequentContacts`) scores each
  established contact by the transactions sent to it, and then received from
  it, in the last 90 days. It publishes up to four of the best-scored ones.
- The PIN screen (module `SetPinScreen`, class `PinActivity`) is a state
  machine over eight states. It sets and confirms a PIN, enters one to
  decrypt the wallet, and changes it. The keyboard, the buttons and the
  wallet's encrypt/decrypt answers drive it.
- The identity-creation notification (module `IdentityNotification`) maps the
  stored creation record to the step the foreground notification shows, with
  its progress bar.

`SearchResults` holds the search-result record both contact modules share,
and `Wrappers` holds `Option`.

Handlers that change the screens' fields are methods of classes. Each is
proved equal to a specification function of the old state (`Layout`,
`IntendedFilteredRows`, `Next`, `Digit`, `Answer`, ...). The lemmas state
what those functions guarantee. Loops the source runs (the truncation, the
row building, the scoring and picking, the invite filter) are methods with
loop invariants.

## Model

| member | source | states |
|---|---|---|
| ColorUtil.Asr | wallet/src/de/schildbach/wallet/ui/dashpay/utils/ColorUtil.java:107 | Java's arithmetic `>>` on an `int`: below the vacated top bits the result agrees with a logical shift, and a non-negative value shifts exactly as under a logical shift |
| ColorUtil.AsrCopiesSign | wallet/src/de/schildbach/wallet/ui/dashpay/utils/ColorUtil.java:107 | the vacated top bits of Java's `>>` all copy the sign bit: all clear for a non-negative `int`, all set for a negative one |
| ColorUtil.Argb | wallet/src/de/schildbach/wallet/ui/dashpay/utils/ColorUtil.java:63-65 | each byte of the packed colour is the low byte of the matching argument, alpha in the top byte and blue in the bottom one |
| ColorUtil.Rgb | wallet/src/de/schildbach/wallet/ui/dashpay/utils/ColorUtil.java:92-94 | the colour is opaque (alpha 0xff) and its red, green and blue are the low bytes of the arguments |
| ColorUtil.Alpha | wallet/src/de/schildbach/wallet/ui/dashpay/utils/ColorUtil.java:106-108 | the result is a byte (0..255, hence a non-negative `int`) even when the colour is negative: the top byte of the word |
| ColorUtil.Red | wallet/src/de/schildbach/wallet/ui/dashpay/utils/ColorUtil.java:120-122 | the result is a byte: bits 16-23 of the colour |
| ColorUtil.Green | wallet/src/de/schildbach/wallet/ui/dashpay/utils/ColorUtil.java:134-136 | the result is a byte: bits 8-15 of the colour |
| ColorUtil.Blue | wallet/src/de/schildbach/wallet/ui/dashpay/utils/ColorUtil.java:148-150 | the result is a byte: bits 0-7 of the colour |
| ColorUtil.ComponentsRoundTrip | wallet/src/de/schildbach/wallet/ui/dashpay/utils/ColorUtil.java:63-65 | unpacking a colour packed from components in 0..255 gives back each component |
| ColorUtil.ColorRoundTrip | wallet/src/de/schildbach/wallet/ui/dashpay/utils/ColorUtil.java:106-150 | every 32-bit colour, negative ones included, is rebuilt exactly by `argb` from its four components |
| ColorUtil.LowBytesOnly | wallet/src/de/schildbach/wallet/ui/dashpay/utils/ColorUtil.java:64 | only the low byte of each argument reaches the packed colour |
| ColorUtil.HexDigit | wallet/src/de/schildbach/wallet/ui/dashpay/utils/ColorUtil.java:157 | each nibble becomes a lower-case hexadecimal digit that reads back as the same nibble |
| ColorUtil.ToString | wallet/src/de/schildbach/wallet/ui/dashpay/utils/ColorUtil.java:156-158 | the text is `#` followed by exactly eight lower-case hexadecimal digits, whatever the sign of the colour |
| ColorUtil.NibblesAssemble | wallet/src/de/schildbach/wallet/ui/dashpay/utils/ColorUtil.java:157 | the eight nibbles `%08x` prints, most significant first, put back together give the word |
| ColorUtil.ToStringRoundTrip | wallet/src/de/schildbach/wallet/ui/dashpay/utils/ColorUtil.java:156-158 | reading back the eight digits after `#` gives the colour: `toString` loses nothing, negative colours included |
| SearchResults.Filter | wallet/src/de/schildbach/wallet/ui/dashpay/ContactsActivity.kt:207-209 | Kotlin's `filter`: an element is kept exactly when it is in the input and satisfies the predicate, and the result is no longer than the input |
| SearchResults.FilterConcat | wallet/src/de/schildbach/wallet/ui/dashpay/ContactsActivity.kt:191-193 | `filter` keeps the input order: filtering a concatenation concatenates the filtered parts |
| Invites.SetterRows | wallet/src/de/schildbach/wallet/ui/invite/InvitesAdapter.kt:36-47 | the `history` setter's rows: the create row and the header first, then the new history, or the single empty-history placeholder when it is empty |
| Invites.Kept | wallet/src/de/schildbach/wallet/ui/invite/InvitesAdapter.kt:115-130 | `filter()` keeps no more rows than the history has (which rows: `KeptMembers`) |
| Invites.FilteredRows | wallet/src/de/schildbach/wallet/ui/invite/InvitesAdapter.kt:110-138 | `filter()` as written: a result exactly when no `invitation!!` read throws, and it starts with the create row and the header |
| Invites.CollectFiltered | wallet/src/de/schildbach/wallet/ui/invite/InvitesAdapter.kt:111-131 | the loop of `filter()` yields nothing exactly when some `invitation!!` read would throw, and otherwise the create row, the header and the kept invites in history order |
| Invites.Unfilterable | wallet/src/de/schildbach/wallet/ui/invite/InvitesAdapter.kt:119-128 | an INVITE row without an invitation makes the PENDING and CLAIMED filters throw |
| Invites.KeptTypes | wallet/src/de/schildbach/wallet/ui/invite/InvitesAdapter.kt:115-116 | every row `filter()` keeps is an INVITE row |
| Invites.KeptMembers | wallet/src/de/schildbach/wallet/ui/invite/InvitesAdapter.kt:115-130 | a row is kept exactly when it is an INVITE row of the history that passes the filter |
| Invites.FilterMeaning | wallet/src/de/schildbach/wallet/ui/invite/InvitesAdapter.kt:117-128 | PENDING keeps exactly the unclaimed invites (`acceptedAt == 0`), CLAIMED exactly the claimed ones, ALL every invite |
| Invites.KeptConcat | wallet/src/de/schildbach/wallet/ui/invite/InvitesAdapter.kt:115-130 | filtering works row by row and keeps order: the rows kept from a concatenation are the rows kept from each part |
| Invites.PendingClaimedPartition | wallet/src/de/schildbach/wallet/ui/invite/InvitesAdapter.kt:117-128 | PENDING and CLAIMED split the ALL list: their lengths and their multisets add up to those of ALL |
| Invites.KeptAllInvites | wallet/src/de/schildbach/wallet/ui/invite/InvitesAdapter.kt:118 | under ALL, a history made only of invites is kept whole |
| Invites.FilterNeverAddsPlaceholder | wallet/src/de/schildbach/wallet/ui/invite/InvitesAdapter.kt:132-136 | as written, the filtered list is the two fixed rows plus the kept invites and never contains the empty-history placeholder |
| Invites.EmptyHistoryDisagreement | wallet/src/de/schildbach/wallet/ui/invite/InvitesAdapter.kt:134-136 | as written, an empty history shows the placeholder after the `history` setter but not after filtering with ALL |
| Invites.IntendedFilteredRows | wallet/src/de/schildbach/wallet/ui/invite/InvitesAdapter.kt:110-136 | the corrected filter result: defined exactly when no `invitation!!` read throws, starts with the create row and the header, and contains the placeholder exactly when no invite passes |
| Invites.IntendedAgreesWithSetter | wallet/src/de/schildbach/wallet/ui/invite/InvitesAdapter.kt:36-47 | for a history of invites, the corrected filter under ALL lays out exactly the rows the `history` setter lays out |
| Invites.InvitesAdapter.constructor | wallet/src/de/schildbach/wallet/ui/invite/InvitesAdapter.kt:29-48 | the adapter starts with the ALL filter, an empty history and no rows |
| Invites.InvitesAdapter.SetHistory | wallet/src/de/schildbach/wallet/ui/invite/InvitesAdapter.kt:36-47 | the history is replaced and the filter kept; the rows become the create row, the header, then the new history or the placeholder when it is empty |
| Invites.InvitesAdapter.OnFilter | wallet/src/de/schildbach/wallet/ui/invite/InvitesAdapter.kt:105-138 | the filter is recorded and the history untouched; the rows become the (corrected) filter result, or stay as they were when `filter()` throws; the placeholder is shown exactly when no invite passes; the rows still start with the two fixed rows |
| Invites.InvitesAdapter.ItemCount | wallet/src/de/schildbach/wallet/ui/invite/InvitesAdapter.kt:64-66 | the number of rows, which is 0 before any history and at least 2 afterwards |
| Invites.InvitesAdapter.GetItem | wallet/src/de/schildbach/wallet/ui/invite/InvitesAdapter.kt:68-70 | the row at the position; position 0 is the create row and position 1 the header |
| Invites.InvitesAdapter.ItemViewType | wallet/src/de/schildbach/wallet/ui/invite/InvitesAdapter.kt:100-103 | the view type of the row at the position; INVITE_CREATE at 0, INVITE_HEADER at 1 |
| Contacts.IndexOf | wallet/src/de/schildbach/wallet/ui/dashpay/ContactsActivity.kt:198 | the position `remove(element)` acts on: the element is there and nowhere before it |
| Contacts.RemoveFirst | wallet/src/de/schildbach/wallet/ui/dashpay/ContactsActivity.kt:198 | Kotlin's `remove(element)`: the first copy of the element is taken out and the others keep their order; one element and one copy fewer |
| Contacts.Truncated | wallet/src/de/schildbach/wallet/ui/dashpay/ContactsActivity.kt:196-200 | the truncation loop as written leaves at most three requests, all drawn from the pending ones |
| Contacts.TruncatedFromEnd | wallet/src/de/schildbach/wallet/ui/dashpay/ContactsActivity.kt:196-200 | dropping the last request while more than three remain leaves the first three |
| Contacts.RemoveLastUnique | wallet/src/de/schildbach/wallet/ui/dashpay/ContactsActivity.kt:198 | when no result repeats, removing the element equal to the last one removes the last one |
| Contacts.TruncatedKeepsFirstThree | wallet/src/de/schildbach/wallet/ui/dashpay/ContactsActivity.kt:196-200 | when no pending request repeats, the loop as written keeps exactly the first three |
| Contacts.TruncatedWithRepeat | wallet/src/de/schildbach/wallet/ui/dashpay/ContactsActivity.kt:196-200 | with a repeated result, `[a, b, c, a]` is cut to `[b, c, a]`, not to the first three `[a, b, c]` |
| Contacts.TruncatedHidesRepeated | wallet/src/de/schildbach/wallet/ui/dashpay/ContactsActivity.kt:196-200 | with `[a, b, c, d, a]`, `a` none of `b`, `c`, `d`, the loop as written shows `[b, c, d]`: the request `a` disappears altogether, where keeping the first three would show `[a, b, c]` |
| Contacts.WithOutgoingRequest | wallet/src/de/schildbach/wallet/ui/dashpay/ContactsActivity.kt:159 | only a request or contact row can take the accepted request (a header row throws); the row keeps its kind and its result gets the request as `toContactRequest` |
| Contacts.ShownRequests | wallet/src/de/schildbach/wallet/ui/dashpay/ContactsActivity.kt:191-200 | outside VIEW_REQUESTS at most three requests are shown, in VIEW_REQUESTS every pending one; the shown ones are always drawn from the pending ones |
| Contacts.Sections | wallet/src/de/schildbach/wallet/ui/dashpay/ContactsActivity.kt:202-213 | the row count is the request header, the requests, a contact header exactly when there are contacts, and the contacts; the first row is the request header, or the first request when there is none |
| Contacts.Layout | wallet/src/de/schildbach/wallet/ui/dashpay/ContactsActivity.kt:187-216 | the row count adds up from the request header, the shown requests, the contact header and the shown contacts; outside VIEW_REQUESTS with requests shown the first row is a header carrying the full pending count |
| Contacts.SectionsReadBack | wallet/src/de/schildbach/wallet/ui/dashpay/ContactsActivity.kt:202-213 | the rows can be read back: they hold the request header when there is one, the requests, one contact header exactly when there are contacts, and the contacts |
| Contacts.LayoutSections | wallet/src/de/schildbach/wallet/ui/dashpay/ContactsActivity.kt:187-216 | the list shows the shown requests, the shown contacts, one request header carrying the full pending count when requests are shown outside VIEW_REQUESTS, and a contact header exactly when contacts are shown |
| Contacts.SelectModeListsNoRequests | wallet/src/de/schildbach/wallet/ui/dashpay/ContactsActivity.kt:191-193 | picking a contact to pay lists no request and no request header |
| Contacts.AtMostThreeRequests | wallet/src/de/schildbach/wallet/ui/dashpay/ContactsActivity.kt:196-200 | outside VIEW_REQUESTS at most three request rows are listed, and the first three pending ones when no request repeats |
| Contacts.ViewRequestsListsAllPending | wallet/src/de/schildbach/wallet/ui/dashpay/ContactsActivity.kt:191-213 | VIEW_REQUESTS lists every pending request in order, with no header and no contact |
| Contacts.ContactSection | wallet/src/de/schildbach/wallet/ui/dashpay/ContactsActivity.kt:207-213 | outside VIEW_REQUESTS the contacts listed are exactly the established contacts, under a header exactly when one exists |
| Contacts.AnyContactIff | wallet/src/de/schildbach/wallet/ui/dashpay/ContactsActivity.kt:211 | the contact list is non-empty exactly when some result is an established contact |
| Contacts.SectionsOrdered | wallet/src/de/schildbach/wallet/ui/dashpay/ContactsActivity.kt:202-213 | in rows built section by section no request row or header follows a contact row or header |
| Contacts.RequestsPrecedeContacts | wallet/src/de/schildbach/wallet/ui/dashpay/ContactsActivity.kt:187-216 | in the list `processResults` builds, requests and their header come before contacts and theirs |
| Contacts.CollectRequests | wallet/src/de/schildbach/wallet/ui/dashpay/ContactsActivity.kt:189-200 | the requests kept are those the layout shows, and the count is the number of pending requests before truncation |
| Contacts.AppendSections | wallet/src/de/schildbach/wallet/ui/dashpay/ContactsActivity.kt:202-213 | appending the rows one by one builds exactly the sectioned list |
| Contacts.AssembleRows | wallet/src/de/schildbach/wallet/ui/dashpay/ContactsActivity.kt:187-214 | the rows built are the layout of the results for the mode |
| Contacts.ContactsActivity.constructor | wallet/src/de/schildbach/wallet/ui/dashpay/ContactsActivity.kt:77-87 | the screen starts in the mode it was opened with, with no accept in flight (position -1) and no rows |
| Contacts.ContactsActivity.ProcessResults | wallet/src/de/schildbach/wallet/ui/dashpay/ContactsActivity.kt:187-216 | the rows become the layout of the new results; the mode and the pending position are unchanged |
| Contacts.ContactsActivity.OnAcceptRequest | wallet/src/de/schildbach/wallet/ui/dashpay/ContactsActivity.kt:282-287 | an accept is started only when none is in flight: the position is recorded and a request goes to the result's user; otherwise nothing happens |
| Contacts.ContactsActivity.OnContactRequestChanged | wallet/src/de/schildbach/wallet/ui/dashpay/ContactsActivity.kt:143-184 | no answer, no accept in flight or a LOADING answer change nothing, an ERROR answer only shows an error; a SUCCESS fills in the accepted row's outgoing request, then removes that row in VIEW_REQUESTS, searches again in SEARCH_CONTACTS, keeps the rows in SELECT_CONTACT and throws for any other mode, clearing the position unless it threw |
| FrequentContacts.Score | wallet/src/de/schildbach/wallet/ui/dashpay/FrequentContactsLiveData.kt:63-72 | a contact's score never exceeds the number of its transactions |
| FrequentContacts.ScorePositive | wallet/src/de/schildbach/wallet/ui/dashpay/FrequentContactsLiveData.kt:63-72 | a contact's score is positive exactly when one of its transactions goes the asked-for way and was updated in the last three months, and it never exceeds the number of transactions |
| FrequentContacts.InsertPerm | wallet/src/de/schildbach/wallet/ui/dashpay/FrequentContactsLiveData.kt:79 | inserting into the sorted list adds exactly the one element |
| FrequentContacts.InsertSorted | wallet/src/de/schildbach/wallet/ui/dashpay/FrequentContactsLiveData.kt:79 | inserting keeps the list sorted by descending key |
| FrequentContacts.SortDescSorted | wallet/src/de/schildbach/wallet/ui/dashpay/FrequentContactsLiveData.kt:79 | `sortByDescending` yields a permutation of its input sorted by descending score |
| FrequentContacts.SortDescStable | wallet/src/de/schildbach/wallet/ui/dashpay/FrequentContactsLiveData.kt:79 | `sortByDescending` is stable: ids with the same score keep their relative order |
| FrequentContacts.SortKeysAgree | wallet/src/de/schildbach/wallet/ui/dashpay/FrequentContactsLiveData.kt:79 | the sort depends only on the scores of the ids being sorted |
| FrequentContacts.FindById | wallet/src/de/schildbach/wallet/ui/dashpay/FrequentContactsLiveData.kt:83 | Kotlin's `find`: a result exactly when some item has the id, and then the first item with that id |
| FrequentContacts.RankedIds | wallet/src/de/schildbach/wallet/ui/dashpay/FrequentContactsLiveData.kt:59-79 | the ranked ids are a permutation of the established contacts' ids, sorted by descending score, each the id of some item |
| FrequentContacts.PickedSound | wallet/src/de/schildbach/wallet/ui/dashpay/FrequentContactsLiveData.kt:80-88 | every picked result is an item whose id was ranked and which is eligible (non-zero score, not ignored) |
| FrequentContacts.PickedBound | wallet/src/de/schildbach/wallet/ui/dashpay/FrequentContactsLiveData.kt:84-86 | the loop picks no more than the number left to reach its limit |
| FrequentContacts.PickedOrdered | wallet/src/de/schildbach/wallet/ui/dashpay/FrequentContactsLiveData.kt:79-88 | picked results follow the ranking: their scores never increase |
| FrequentContacts.PickedTop | wallet/src/de/schildbach/wallet/ui/dashpay/FrequentContactsLiveData.kt:80-88 | an eligible id the loop did not pick scores no more than any picked one |
| FrequentContacts.PickedFacts | wallet/src/de/schildbach/wallet/ui/dashpay/FrequentContactsLiveData.kt:80-88 | from the start of the loop: the picks are eligible items, in score order, and no more than the limit |
| FrequentContacts.PickedAbove | wallet/src/de/schildbach/wallet/ui/dashpay/FrequentContactsLiveData.kt:80-88 | from the start of the loop: an eligible id passed over scores no more than any pick |
| FrequentContacts.ScoreContacts | wallet/src/de/schildbach/wallet/ui/dashpay/FrequentContactsLiveData.kt:61-75 | the ids are those of the contacts in order, each is in the score map, and each maps to its count of qualifying transactions |
| FrequentContacts.PickTop | wallet/src/de/schildbach/wallet/ui/dashpay/FrequentContactsLiveData.kt:80-88 | the results are the picks of the ranked ids up to `TOP_CONTACT_COUNT - ignore.size` |
| FrequentContacts.GetTopContacts | wallet/src/de/schildbach/wallet/ui/dashpay/FrequentContactsLiveData.kt:49-90 | the results are the top contacts of the items |
| FrequentContacts.TopContactsProperties | wallet/src/de/schildbach/wallet/ui/dashpay/FrequentContactsLiveData.kt:49-90 | each result is an item with a positive score that is not ignored; there are at most `TOP_CONTACT_COUNT - ignore.size` of them when that is positive; scores never increase down the list |
| FrequentContacts.ContactRanked | wallet/src/de/schildbach/wallet/ui/dashpay/FrequentContactsLiveData.kt:59-74 | every established contact among the items is ranked |
| FrequentContacts.TopContactsAreTop | wallet/src/de/schildbach/wallet/ui/dashpay/FrequentContactsLiveData.kt:77-88 | the list is a real top list: an established contact with a positive score that is neither ignored nor listed scores no more than every listed one |
| FrequentContacts.PickedSubseq | wallet/src/de/schildbach/wallet/ui/dashpay/FrequentContactsLiveData.kt:80-88 | the loop takes users in ranking order, skipping some |
| FrequentContacts.TopContactsSubseq | wallet/src/de/schildbach/wallet/ui/dashpay/FrequentContactsLiveData.kt:79-88 | the users `getTopContacts` returns appear in the order of the ranking by score |
| FrequentContacts.TopContactsTiesKeepOrder | wallet/src/de/schildbach/wallet/ui/dashpay/FrequentContactsLiveData.kt:79-83 | the results follow the ranking, and results with equal scores keep the order in which their contacts came in the search results (the sort is stable) |
| FrequentContacts.Frequent | wallet/src/de/schildbach/wallet/ui/dashpay/FrequentContactsLiveData.kt:27-47 | nothing is published exactly when the search succeeded and there is no identity; a failed or loading search is passed on unchanged; a success is published only after a successful search with an identity |
| FrequentContacts.GetFrequentContacts | wallet/src/de/schildbach/wallet/ui/dashpay/FrequentContactsLiveData.kt:27-47 | the value published is the frequent-contacts outcome: the search passed on when it failed or is loading, nothing without an identity, the top payees topped up with the top payers otherwise |
| FrequentContacts.FrequentProperties | wallet/src/de/schildbach/wallet/ui/dashpay/FrequentContactsLiveData.kt:31-43 | after a successful search with an identity a success is published with at most four results, each a search result with a transaction counted in one direction or the other |
| FrequentContacts.SecondPassDisjoint | wallet/src/de/schildbach/wallet/ui/dashpay/FrequentContactsLiveData.kt:37-40 | the second pass adds nobody the first pass already listed |
| IdentityNotification.Bar | wallet/src/de/schildbach/wallet/ui/dashpay/CreateIdentityNotification.kt:63-67 | indeterminate exactly for maximum -1; a positive maximum shows the given progress; any other maximum an empty bar |
| IdentityNotification.CreateNotification | wallet/src/de/schildbach/wallet/ui/dashpay/CreateIdentityNotification.kt:56-70 | the given title and message, with an indeterminate bar exactly for maximum -1 |
| IdentityNotification.InitialNotification | wallet/src/de/schildbach/wallet/ui/dashpay/CreateIdentityNotification.kt:27-29 | the processing title, no text and an indeterminate bar |
| IdentityNotification.Display | wallet/src/de/schildbach/wallet/ui/dashpay/CreateIdentityNotification.kt:31-49 | never indeterminate; the error text exactly for the failed step; a bar out of 4 exactly for steps 1 to 3, at the step's number |
| IdentityNotification.StepFor | wallet/src/de/schildbach/wallet/ui/dashpay/CreateIdentityNotification.kt:72-97 | the failed step exactly for an erroneous record; no step exactly when there is no record, or an error-free record in an unlisted state |
| IdentityNotification.OnRecord | wallet/src/de/schildbach/wallet/ui/dashpay/CreateIdentityNotification.kt:72-97 | a notification exactly when a step is selected, never with an indeterminate bar |
| IdentityNotification.BarModes | wallet/src/de/schildbach/wallet/ui/dashpay/CreateIdentityNotification.kt:63-67 | the progress bar is indeterminate exactly for maximum -1 (then 100, 0); a positive maximum shows the progress; anything else shows an empty determinate bar |
| IdentityNotification.ErrorWins | wallet/src/de/schildbach/wallet/ui/dashpay/CreateIdentityNotification.kt:74-75 | an erroneous record shows the error notification, whatever its state |
| IdentityNotification.StepsOfStates | wallet/src/de/schildbach/wallet/ui/dashpay/CreateIdentityNotification.kt:76-96 | the five funding states show step 1, the two identity states step 2, the preorder and username-registering states step 3, the registered username the done notification, an unlisted state nothing |
| IdentityNotification.StepBars | wallet/src/de/schildbach/wallet/ui/dashpay/CreateIdentityNotification.kt:31-41 | steps 1 to 3 show a determinate bar at n of 4 under the processing title, with a message |
| IdentityNotification.StepsMonotone | wallet/src/de/schildbach/wallet/ui/dashpay/CreateIdentityNotification.kt:76-96 | as the creation advances without error the step shown never goes back |
| IdentityNotification.InitialAndDone | wallet/src/de/schildbach/wallet/ui/dashpay/CreateIdentityNotification.kt:27-45 | the initial notification has an indeterminate bar and no text, the done one has no text, and no record posts nothing |
| SetPinScreen.Enter | wallet/src/de/schildbach/wallet/ui/SetPinActivity.kt:207-300 | `setState`: the new state with the PIN-change flag kept; the digits either cleared or as they were, the stored PIN either cleared or kept |
| SetPinScreen.Next | wallet/src/de/schildbach/wallet/ui/SetPinActivity.kt:187-205 | `nextStep` keeps the flag and calls out nothing, encrypt with the flag, or decrypt; calling nothing means the digits were cleared in CONFIRM_PIN for another try |
| SetPinScreen.Digit | wallet/src/de/schildbach/wallet/ui/SetPinActivity.kt:146-165 | `onNumber` does nothing while locked, keeps the flag, and calls out at most once |
| SetPinScreen.Backspace | wallet/src/de/schildbach/wallet/ui/SetPinActivity.kt:167-172 | one digit fewer (none stays none), the remaining digits a prefix of the old ones, and nothing else changes |
| SetPinScreen.Confirm | wallet/src/de/schildbach/wallet/ui/SetPinActivity.kt:178-184 | nothing with no digits; the flag kept and at most one call out |
| SetPinScreen.BackPressed | wallet/src/de/schildbach/wallet/ui/SetPinActivity.kt:378-386 | the only call out is finishing, and it happens only with no digits, leaving the screen as it was; the flag is kept |
| SetPinScreen.Answer | wallet/src/de/schildbach/wallet/ui/SetPinActivity.kt:304-336 | a failed attempt with the stored PIN is recorded first exactly on an error; loading calls nothing and shows ENCRYPTING or DECRYPTING; the flag is kept |
| SetPinScreen.Create | wallet/src/de/schildbach/wallet/ui/SetPinActivity.kt:110-129 | an unencrypted wallet changes nothing; an encrypted one takes the intent's PIN-change flag and calls out exactly when a password is passed, to decrypt with it |
| SetPinScreen.PinCapPreserved | wallet/src/de/schildbach/wallet/ui/SetPinActivity.kt:146-386 | every handler keeps at most four digits outside DECRYPT and DECRYPTING |
| SetPinScreen.LockedIgnoresDigits | wallet/src/de/schildbach/wallet/ui/SetPinActivity.kt:147-149 | while the retry controller is locked a digit changes nothing |
| SetPinScreen.DigitOutsideDecrypt | wallet/src/de/schildbach/wallet/ui/SetPinActivity.kt:151-164 | outside DECRYPT a digit is appended; the fourth one runs `nextStep`; a digit beyond the fourth is not appended |
| SetPinScreen.DigitInDecrypt | wallet/src/de/schildbach/wallet/ui/SetPinActivity.kt:151-159 | in DECRYPT a digit is always appended, and `nextStep` runs only when the digits reach the length of the stored PIN; the CONFIRM_PIN test there never holds |
| SetPinScreen.BackAndConfirm | wallet/src/de/schildbach/wallet/ui/SetPinActivity.kt:167-184 | the keyboard's back removes the last digit only and keeps state and stored PIN; with no digits neither back nor confirm does anything |
| SetPinScreen.NextStepCases | wallet/src/de/schildbach/wallet/ui/SetPinActivity.kt:187-205 | in CONFIRM_PIN a match asks to encrypt and a mismatch clears the digits; elsewhere the digits are stored, then the entry screens decrypt and the others ask for confirmation |
| SetPinScreen.EnterClears | wallet/src/de/schildbach/wallet/ui/SetPinActivity.kt:207-300 | `setState` switches to the new state; the entry screens clear digits and stored PIN, CONFIRM_PIN only the digits, ENCRYPTING and DECRYPTING neither |
| SetPinScreen.BackPressedCases | wallet/src/de/schildbach/wallet/ui/SetPinActivity.kt:378-386 | the system back re-enters the state when digits are entered, goes from CONFIRM_PIN to SET_PIN, never finishes while encrypting or decrypting, and finishes otherwise |
| SetPinScreen.ResultCases | wallet/src/de/schildbach/wallet/ui/SetPinActivity.kt:304-336 | an error records a failed attempt with the stored PIN and locks when the controller is locked, else returns to INVALID_PIN or DECRYPT from DECRYPTING or to CONFIRM_PIN with a toast; loading moves to ENCRYPTING or DECRYPTING; success after decrypting asks for a new PIN, otherwise finishes or initialises the wallet |
| SetPinScreen.TypedConcat | wallet/src/de/schildbach/wallet/ui/SetPinActivity.kt:146-165 | typing two runs of digits is typing the first run and then the second, with the calls out concatenated |
| SetPinScreen.TypeThree | wallet/src/de/schildbach/wallet/ui/SetPinActivity.kt:151-164 | three digits typed from an empty entry outside DECRYPT are just recorded |
| SetPinScreen.TypeFour | wallet/src/de/schildbach/wallet/ui/SetPinActivity.kt:161-163 | four digits typed from an empty entry outside DECRYPT run `nextStep` on them |
| SetPinScreen.SetThenConfirm | wallet/src/de/schildbach/wallet/ui/SetPinActivity.kt:146-205 | four digits in SET_PIN store the PIN and move to CONFIRM_PIN; typing the same four then asks to encrypt, any other four leaves CONFIRM_PIN cleared with the PIN still stored |
| SetPinScreen.PinActivity.constructor | wallet/src/de/schildbach/wallet/ui/SetPinActivity.kt:57-70 | the screen starts in SET_PIN, with no digits, nothing stored and no PIN change |
| SetPinScreen.PinActivity.SetState | wallet/src/de/schildbach/wallet/ui/SetPinActivity.kt:207-300 | the screen moves to the new state; entry states clear the digits and the stored PIN, CONFIRM_PIN clears only the digits, and ENCRYPTING and DECRYPTING keep both (the effect `Enter` gives, whose cases `EnterClears` proves) |
| SetPinScreen.PinActivity.NextStep | wallet/src/de/schildbach/wallet/ui/SetPinActivity.kt:187-205 | in CONFIRM_PIN a matching entry asks to encrypt and a mismatch clears the digits; elsewhere the entry is stored and the screen decrypts from DECRYPT, CHANGE_PIN and INVALID_PIN or moves to CONFIRM_PIN (`Next`, whose cases `NextStepCases` proves) |
| SetPinScreen.PinActivity.OnNumber | wallet/src/de/schildbach/wallet/ui/SetPinActivity.kt:146-165 | a digit is ignored while locked; otherwise it is appended (outside DECRYPT only below four digits) and the fourth digit runs the next step (`Digit`); at most four digits are ever held outside DECRYPT and DECRYPTING |
| SetPinScreen.PinActivity.OnBack | wallet/src/de/schildbach/wallet/ui/SetPinActivity.kt:167-172 | the last digit, if any, is removed and nothing else changes (`Backspace`); the digit cap is kept |
| SetPinScreen.PinActivity.OnConfirm | wallet/src/de/schildbach/wallet/ui/SetPinActivity.kt:178-184 | with no digits nothing happens, otherwise the next step runs (`Confirm`); the digit cap is kept |
| SetPinScreen.PinActivity.OnBackPressed | wallet/src/de/schildbach/wallet/ui/SetPinActivity.kt:378-386 | the state is re-entered when digits are entered, CONFIRM_PIN goes back to SET_PIN, and otherwise the screen finishes unless encrypting or decrypting (`BackPressed`); the digit cap is kept |
| SetPinScreen.PinActivity.OnResult | wallet/src/de/schildbach/wallet/ui/SetPinActivity.kt:304-336 | the wallet's answer moves the screen as `Answer` gives: a failed attempt recorded and LOCKED, DECRYPT, INVALID_PIN or CONFIRM_PIN on error, ENCRYPTING or DECRYPTING while loading, SET_PIN, finish or wallet initialisation on success; the digit cap is kept |
| SetPinScreen.PinActivity.OnCreate | wallet/src/de/schildbach/wallet/ui/SetPinActivity.kt:110-129 | an unencrypted wallet stays in SET_PIN; an encrypted one decrypts with the password passed in, or opens LOCKED or CHANGE_PIN when changing the PIN, or DECRYPT otherwise (`Create`); the digit cap is kept |

## Left out

- The float overloads `argb(float…)` and `rgb(float…)`, and `float2int`, are not modelled: they involve floating-point rounding.
- Android views, toasts, shaking, the PIN preview, page titles, adapter `notify…` calls, `getItemId`, `onCreateViewHolder` and `onBindViewHolder` are not modelled. The only toast kept is the encrypting-error one, as an effect.
- LiveData, coroutines, handlers and threads are left out. Each observer is a method called with the value it receives.
- `postDelayed` before `encryptKeys` is treated as an immediate call.
- The wallet, the view models and the platform repository are not part of this model. Their calls are recorded as effects (`EncryptKeys`, `DecryptKeys`, `FailedAttempt`, `InitWallet`, a sent contact request, a new search).
- `SetPinViewModel.setPin` is taken to store a copy of the digits; SetPinViewModel is not part of this model.
- `PinRetryController` is not modelled. Its `isLocked` is an input, and after `failedAttempt` its answer is the input `lockedNow`.
- Reading the mnemonic seed, fingerprint dialogs, `performNextStep` and `startNextActivity` are not modelled.
- How `UsernameSearchResult` derives `requestSent`, `requestReceived` and `isPendingRequest` is outside this model. They are plain fields.
- Contacts.ContactsActivity.OnContactRequestChanged: models only the effect of the error message, not its text. It does not model the `exception!!` null dereference when the message is missing.
- Contacts.ContactsActivity.OnContactRequestChanged: a successful answer always carries its contact request, so the `it.data!!` null case (ContactsActivity.kt:159) is not modelled.
- Contacts.ContactsActivity.OnAcceptRequest: reads the requesting user's id without modelling the null `fromContactRequest` that would throw.
- `onIgnoreRequest` is empty in the source and has no model.
- `searchContacts` and its debouncing are modelled only as the `SearchAgain` reaction.
- `tx.getValue(wallet)` is not computed. Each transaction carries its value to this wallet as an integer, of which only the sign matters, and its update time in milliseconds.
- `Date().time` is the parameter `now`, and the identity is an optional ledger of transactions per user id.
- In `getTopContacts` the map lookups `contactScores[it]` and the outer `!!` on the result of `items.find { … }` are proved never to fail: every id looked up is the id of a contact among the items and has a score.
- FrequentContacts.GetTopContacts: every search result is taken to carry a `fromContactRequest`, so the `fromContactRequest!!` reads (FrequentContactsLiveData.kt:62, 73-74) and those inside the `ignore.find` and `items.find` lambdas (82-83) never throw in the model; a result without one is not modelled.
- FrequentContacts.GetFrequentContacts: a successful search always carries its list, so the `contactRequests.data!!` null case (FrequentContactsLiveData.kt:35) is not modelled.
- Posting the notification (`notify`, `startForeground`) is not modelled, and creation states the observer does not list are one value, `Unlisted`.
- Invites.InvitesAdapter.GetItem: requires a position in range, where Kotlin would throw.
- Invites.InvitesAdapter.ItemViewType: requires a position in range, where Kotlin would throw.
- Invites.InvitesAdapter.OnFilter: follows the corrected placeholder rule (see Findings). The rule as written is `Invites.FilteredRows`.

## Findings

| source | as written | input that shows it | evidently intended | confidence | as-written member | corrected member |
|---|---|---|---|---|---|---|
| wallet/src/de/schildbach/wallet/ui/invite/InvitesAdapter.kt:134-136 | after `filter()` adds the create row and the header, the placeholder is added only when the list has one row, which never happens | an empty history, or one where no invite passes the filter: `filter()` leaves only the create row and the header, with no placeholder, while the `history` setter shows the placeholder for an empty history | add the placeholder when no invite passes, i.e. when the list has the two fixed rows only | medium, not executed | Invites.FilteredRows, Invites.FilterNeverAddsPlaceholder, Invites.EmptyHistoryDisagreement | Invites.IntendedFilteredRows, Invites.IntendedAgreesWithSetter, Invites.InvitesAdapter.OnFilter |
