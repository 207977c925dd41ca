# PantyHub core, modelled in Dafny

PantyHub is a Next.js marketplace application. This project models its
behavioural core: the state updates of the React hooks (messages,
conversations, presence, uploads, checkout, reviews, comments, reactions,
toasts), the request decisions of the middleware and of the search and media
API routes, the string builders (storage paths, SEO metadata, entity routes,
email templates), and the small registries (navigation, icons, error codes,
theme, search provider slot, storage buckets).

Every network or SDK outcome is an explicit input: a `fetch` answer is an
`Outcomes.Reply` (OK body, non-OK with the server's message, or a rejection),
a database answer is the rows or the error, and clocks, random fragments and
object URLs are parameters. Each hook callback and route handler is then a
pure function from (state, inputs) to (state, request made, response), and
its contract states what the source promises about it. Each module follows
one source file; `Outcomes`, `Seqs` and `Text` hold the shared vocabulary
(`??`, truthiness, `filter`, `map`-update, `[...new Set()]`, `trim`,
`join`/`split`).

`hooks/use-messages.ts` performs no de-duplication, no re-sorting and no
check for stale responses. Pages are prepended or replaced as they arrive,
and a sent message is appended once at the tail
(`MessageStream.CompletionSeesInterleavedAppend` and
`MessageStream.SendAppendsOnce` state what happens).

JavaScript strings are sequences of UTF-16 code units, while a Dafny
`string` is a sequence of Unicode scalar values. Wherever the source counts
or cuts by `length` (`truncateDescription`, the search query gate, the
file-name sanitiser's regular expression without the `u` flag), the model
counts code units with `Text.Utf16Length`, so that a character outside the
Basic Multilingual Plane counts twice.

Behaviours of the code worth knowing, stated as lemmas:
- `Reviews.NoTargetKeepsLoading`: with an empty target the review list stays
  in its loading state forever, because the guard returns before loading is
  cleared.
- `Reviews.SubmitThenDeleteRestores`: a delete lowers the total but keeps
  the average as it was.
- `Comments.AddComment`, `Comments.EditComment`, `Comments.DeleteComment`,
  `Reactions.Toggle` and `MessageStream.Send` have no `catch`, so a rejected
  request reaches the caller (`rejected` in the result).
- `Reactions.OnlyFirstGroupCounts`: `hasReacted` looks only at the first
  group with that emoji.
- `Icons.ConstructorIsNotAnIcon`: a key that names an `Object.prototype`
  member defeats the icon fallback (see Findings).
- `StorageConfig.ConstructorBucketThrows`: the same holds for the storage
  bucket lookup, and validation then throws (see Findings).

## Model

| member | source | states |
|---|---|---|
| StorageConfig.BucketsKeyedByName | lib/storage-config.ts:13-56 | every bucket in `STORAGE_BUCKETS` is registered under its own name |
| StorageConfig.GetBucketConfigAsWritten | lib/storage-config.ts:61-63 | the `??` lookup as written: a registered bucket, a member inherited from `Object.prototype`, or the attachments fallback |
| StorageConfig.ValidateAsWritten | lib/storage-config.ts:68-76 | `validateFile` on the looked-up value throws a TypeError exactly for an inherited member, and otherwise gives the verdict of the bucket check |
| StorageConfig.ConstructorBucketThrows | lib/storage-config.ts:61-76 | for the bucket name "constructor" validation throws instead of falling back to attachments, whatever the file |
| StorageConfig.GetBucketConfig | lib/storage-config.ts:58-63 | the corrected own-key lookup: a registered name gives that bucket, any other name the attachments bucket; the result is always a registered bucket |
| StorageConfig.BucketLookupsAgreeOffPrototype | lib/storage-config.ts:61-63 | away from inherited member names the corrected lookup returns what the written one does |
| StorageConfig.TypeErrorMessage | lib/storage-config.ts:77-80 | the type error quotes the rejected MIME type verbatim, then lists the accepted types joined by ", " |
| StorageConfig.SizeErrorMessage | lib/storage-config.ts:83-89 | the size error holds the limit in decimal megabytes, which reads back as the bucket's maxFileSizeMB |
| StorageConfig.ValidateFile | lib/storage-config.ts:68-93 | valid iff the type is admitted (literally or via `*/*`) and size <= maxFileSizeMB*1024*1024; an error is present iff invalid; the type error wins when both checks fail |
| StorageConfig.SizeLimitIsInclusive | lib/storage-config.ts:84-90 | a file of exactly the byte limit passes, one byte more fails |
| StorageConfig.AttachmentsAcceptAnyType | lib/storage-config.ts:50-55 | with the corrected lookup, an unknown name or "attachments" selects the attachments bucket, which accepts every type up to 100 MB |
| StorageConfig.AvatarsRejectPdf | lib/storage-config.ts:14-19 | the avatar bucket rejects a PDF of any size with the type error |
| Storage.Sanitize | lib/storage.ts:21 | one underscore per UTF-16 unit of a replaced character: the result has the name's UTF-16 length, holds only `[a-zA-Z0-9._-]`, and on names without surrogate pairs keeps allowed characters in place and puts `_` for the others |
| Storage.SanitizeChar | lib/storage.ts:21 | a safe character is kept; any other becomes one `_` per UTF-16 unit, so an astral character becomes "__" |
| Storage.SanitizeConcat | lib/storage.ts:21 | the replacement works character by character, so it distributes over concatenation |
| Storage.SanitizeAstral | lib/storage.ts:21 | a leading emoji (any astral character) becomes "__", one underscore per surrogate |
| Storage.SanitizedIsSafe | lib/storage.ts:21 | every character of a sanitised name is in `[a-zA-Z0-9._-]`, so it holds no `/` |
| Storage.SanitizeIdempotent | lib/storage.ts:21 | sanitising twice is sanitising once |
| Storage.SanitizeKeepsSafe | lib/storage.ts:21 | a name of safe characters only is left unchanged |
| Storage.FolderPrefix | lib/storage.ts:22 | `folder/` for a non-empty folder, from which the folder reads back; nothing for a missing or empty one |
| Storage.GeneratePath | lib/storage.ts:18-24 | the path reads back, left to right, as the folder prefix, the decimal timestamp, `-`, the random fragment, `-` and the sanitised name, whose UTF-16 length is the name's |
| Storage.PathStaysInFolder | lib/storage.ts:18-24 | no `/` follows the folder prefix, whatever the file name |
| Storage.UploadFile | lib/storage.ts:29-82 | invalid files give VALIDATION with no storage call; valid ones are uploaded with upsert defaulting to false; storage errors give UPLOAD_FAILED; success gives path, URL and fullPath falling back to `bucket/path`; exactly one of data and error |
| Storage.UploadCalledIffValid | lib/storage.ts:40-60 | the storage service is called iff the file passes validation |
| Storage.DeleteFiles | lib/storage.ts:128-143 | an empty list resolves without any storage call; otherwise one removal of all paths, with DELETE_FAILED iff it fails |
| Storage.DeleteFailsIffStorageFails | lib/storage.ts:128-143 | deleting succeeds iff the list is empty or storage reports no error; for an empty list the storage answer is irrelevant |
| MessageStream.FetchStart | hooks/use-messages.ts:33-37 | without a conversation nothing happens; otherwise loading starts and the error is cleared |
| MessageStream.FetchComplete | hooks/use-messages.ts:39-62 | a cursor page is put in front of the current list, an uncursored one replaces it; hasMore iff the page held >= 50; a failure sets the error and keeps list and hasMore; loading ends |
| MessageStream.FetchMessages | hooks/use-messages.ts:33-65 | without a conversation nothing happens; otherwise loading ends, a success leaves the error cleared, and a failure sets it and keeps list and hasMore |
| MessageStream.PrependKeepsOldSuffix | hooks/use-messages.ts:51-52 | after a cursor page the old list is intact as the suffix |
| MessageStream.FailedLoadKeepsList | hooks/use-messages.ts:58-59 | a failed page load sets the error and leaves the list untouched |
| MessageStream.CompletionSeesInterleavedAppend | hooks/use-messages.ts:51-55 | a message appended while a cursor fetch is in flight survives it; an uncursored fetch discards it |
| MessageStream.ConversationChanged | hooks/use-messages.ts:67-72 | with a conversation the list is cleared before its first page loads, so it ends as that page, or empty with the error set; without one nothing happens |
| MessageStream.SwitchForgetsOldList | hooks/use-messages.ts:67-72 | two states that differ only in their messages end a conversation switch identical |
| MessageStream.LoadMoreCursor | hooks/use-messages.ts:96-100 | a cursor exists iff the list is non-empty and hasMore, and it is the oldest message's timestamp |
| MessageStream.LoadMore | hooks/use-messages.ts:96-100 | without a cursor loadMore changes nothing |
| MessageStream.LoadMorePrepends | hooks/use-messages.ts:96-100 | a successful loadMore puts the older page in front of the held messages |
| MessageStream.LoadMoreStopsAfterShortPage | hooks/use-messages.ts:57 | after a page shorter than 50, loadMore does nothing |
| MessageStream.SendRequest | hooks/use-messages.ts:75-86 | a request is made iff there is a conversation and the body is not blank; it carries the trimmed body and the given type, "text" when the type is omitted |
| MessageStream.OmittedTypeIsText | hooks/use-messages.ts:75 | leaving the type out sends the same request as passing "text" |
| MessageStream.Send | hooks/use-messages.ts:74-94 | a request is made iff there is a conversation and the body is not blank, carrying the trimmed body and the type ("text" when omitted); an OK answer appends the returned message at the tail; no request or any other answer leaves the state unchanged; the promise rejects iff the request was made and the fetch rejected |
| MessageStream.BlankSendIsNoop | hooks/use-messages.ts:76 | a whitespace-only body makes no request, no change and no rejection |
| MessageStream.SendAppendsOnce | hooks/use-messages.ts:88-91 | a successful send grows the list by exactly the server's record, with the old list as prefix |
| Messaging.FetchInto | hooks/use-messaging.ts:30-43 | success replaces the list with `json.data` or `[]`; failure keeps it and records the server's message, "Failed to fetch" or the thrown message; loading ends |
| Messaging.FetchConversations | hooks/use-messaging.ts:30-43 | success replaces the conversations with `json.data` or `[]` and clears the error; failure keeps them and sets the error; loading ends |
| Messaging.FetchSuccessForgetsPrior | hooks/use-messaging.ts:30-43 | a successful fetch does not depend on what the list held before |
| Messaging.FailedRefreshKeepsList | hooks/use-messaging.ts:30-43 | a failed refresh keeps the list the previous successful fetch loaded, and shows an error |
| Messaging.CreateConversation | hooks/use-messaging.ts:49-68 | an OK answer refreshes and returns the created conversation; a failure returns null without refreshing |
| Messaging.CreateSurvivesFailedRefresh | hooks/use-messaging.ts:61-63 | a failed refresh after a creation still returns the created conversation |
| Messaging.FetchMessages | hooks/use-messaging.ts:78-92 | an empty conversation id changes nothing; otherwise the list becomes `json.data` or `[]`, or the error is set |
| Messaging.RequestType | hooks/use-messaging.ts:98-106 | the message_type sent: "text" when omitted, none (the key dropped by JSON) for an explicit `undefined`, else the given type |
| Messaging.RequestTypeAbsentIffUndefined | hooks/use-messaging.ts:98-106 | the request lacks a message_type iff the caller passed `undefined` explicitly |
| Messaging.SendMessage | hooks/use-messaging.ts:98-117 | the request carries the content and RequestType's message_type; success appends the server record at the tail and returns it; failure returns null and changes nothing |
| Messaging.SendAppendsOnce | hooks/use-messaging.ts:110-112 | a successful send grows the list by exactly the returned record, with the old list as prefix, and touches neither loading nor error |
| Messaging.MarkRead | hooks/use-messaging.ts:119-132 | when the request resolves, only messages with that id get read_at; length, order and all other messages are unchanged; a rejection changes nothing |
| Messaging.MarkReadAbsentIsNoop | hooks/use-messaging.ts:124-128 | marking an id that is not in the list changes nothing |
| Messaging.MarkReadIdempotent | hooks/use-messaging.ts:124-128 | marking twice with the same time is marking once |
| Presence.Flatten | hooks/use-presence.ts:45-53 | every entry under every key, and nothing else, is an online user |
| Presence.FlattenLength | hooks/use-presence.ts:45-53 | the online list has exactly as many entries as the snapshot |
| Presence.FlattenSingle | hooks/use-presence.ts:45-53 | a single key contributes exactly its entries, in their order |
| Presence.FlattenConcat | hooks/use-presence.ts:45-53 | keys are visited in snapshot order: flattening two snapshots end to end concatenates their online lists |
| Presence.TypingUsers | hooks/use-presence.ts:75-77 | exactly the typing entries of other users, in order: a subsequence of the online list holding only those, and dropping exactly the entries that are not typing or are the current user's |
| Presence.TypingUsersOfSnapshot | hooks/use-presence.ts:45-53 | after a sync, the typing list is exactly the typing entries of other users found under some key of the snapshot |
| Presence.TypingUsersIdempotent | hooks/use-presence.ts:75-77 | filtering the typing list again changes nothing |
| Presence.TypingScenario | hooks/use-presence.ts:75-77 | a typing user sees nobody typing; another user sees them |
| Presence.AtMostOneLive | hooks/use-presence.ts:38-56 | under the hook invariant, the only live channel is the held one |
| Presence.ReleaseHeld | hooks/use-presence.ts:38-40 | the held channel, if any, is removed and forgotten |
| Presence.Subscribe | hooks/use-presence.ts:35-57 | no channel is opened without both ids; otherwise the old channel is removed before the new one is held |
| Presence.Cleanup | hooks/use-presence.ts:58-63 | cleanup leaves no held channel |
| Presence.Sync | hooks/use-presence.ts:45-53 | each sync rebuilds the online users from scratch and touches nothing else |
| Presence.InitialValid | hooks/use-presence.ts:32-33 | the hook starts with no channel |
| Presence.SubscribePreservesValid | hooks/use-presence.ts:38-56 | subscribing never leaves two live channels |
| Presence.CleanupPreservesValid | hooks/use-presence.ts:58-63 | after cleanup no channel is live |
| Presence.SetTyping | hooks/use-presence.ts:66-73 | a publish happens iff a channel is held and there is a user id |
| Presence.SetTypingUsesLiveChannel | hooks/use-presence.ts:58-71 | under the hook invariant a typing update goes to the one live channel, and after cleanup none is sent |
| Upload.NewItem | hooks/use-upload.ts:29-39 | a new item carries the given id and file, is pending at 0 with no url or error, and has the given object URL as preview exactly when the file is an image |
| Upload.AddFiles | hooks/use-upload.ts:27-41 | existing items untouched; the k-th file becomes the item right after them at offset k: pending, 0%, its id, a preview exactly for images |
| Upload.RemoveItem | hooks/use-upload.ts:43-49 | exactly the items with that id go, the rest keep their order |
| Upload.AddThenRemove | hooks/use-upload.ts:27-49 | adding one file under a fresh id and then removing that id gives back the original list |
| Upload.RemoveItemIdempotent | hooks/use-upload.ts:43-49 | removing an id twice is removing it once, and removing an absent id changes nothing |
| Upload.StartUpload | hooks/use-upload.ts:53-57 | only the targeted item becomes uploading at 10 |
| Upload.Tick | hooks/use-upload.ts:60-68 | only an uploading targeted item advances by 15, capped at 90 |
| Upload.FinishUpload | hooks/use-upload.ts:75-106 | only the items with the id change, keeping file, id and preview; a returned URL makes them complete at 100 with that URL, a returned error failed at 0 with its message, a throw failed at 0 with the thrown message or "Upload failed" |
| Upload.StartPreservesWellFormed | hooks/use-upload.ts:53-57 | starting keeps progress within 0..100 and equal to 100 only when complete |
| Upload.TickPreservesWellFormed | hooks/use-upload.ts:60-68 | a tick keeps that invariant |
| Upload.FinishPreservesWellFormed | hooks/use-upload.ts:75-106 | settling keeps that invariant |
| Upload.TicksStayBelowComplete | hooks/use-upload.ts:60-68 | any number of ticks keeps the invariant and never completes an item |
| Upload.Ids | hooks/use-upload.ts:113-115 | the ids of the items, in order |
| Upload.StartAll | hooks/use-upload.ts:113-117 | every item whose id is being uploaded becomes uploading at 10% with nothing else changed; every other item is untouched |
| Upload.StartAllKeepsIds | hooks/use-upload.ts:53-57 | starting uploads never changes an id |
| Upload.FinishAll | hooks/use-upload.ts:113-117 | every uploaded item ends complete or failed; the others are untouched |
| Upload.IdListed | hooks/use-upload.ts:113-115 | every item's id is among the ids |
| Upload.StartAllPreservesWellFormed | hooks/use-upload.ts:113-117 | starting all keeps the progress invariant |
| Upload.FinishAllPreservesWellFormed | hooks/use-upload.ts:113-117 | settling all keeps the progress invariant |
| Upload.CollectedUrls | hooks/use-upload.ts:91-119 | one URL per outcome that returned a URL, so the list is empty exactly when no upload returned one |
| Upload.CollectedUrlsMembers | hooks/use-upload.ts:91 | a URL is collected iff some outcome returned it |
| Upload.CollectedUrlsConcat | hooks/use-upload.ts:91 | the URLs of two batches of outcomes are the first batch's followed by the second's |
| Upload.UploadAll | hooks/use-upload.ts:112-121 | non-pending items are untouched; `onAllComplete` is called iff some upload returned a URL, and with exactly the collected URLs |
| Upload.UploadAllSettlesPending | hooks/use-upload.ts:112-121 | every pending item ends complete or failed |
| Upload.UploadAllSettlesInOrder | hooks/use-upload.ts:112-116 | with distinct ids, the item whose id is the k-th pending one ends as settled by the k-th outcome |
| Upload.UploadAllPreservesWellFormed | hooks/use-upload.ts:112-121 | uploadAll keeps the progress invariant |
| Upload.ClearCompleted | hooks/use-upload.ts:123-132 | exactly the complete items go, the rest keep their order |
| Upload.ClearCompletedCounts | hooks/use-upload.ts:123-142 | afterwards completedCount is 0 and totalCount dropped by the old completedCount |
| Upload.ClearCompletedIdempotent | hooks/use-upload.ts:123-132 | clearing twice is clearing once |
| Upload.IsUploading | hooks/use-upload.ts:140 | true iff some item is uploading |
| Upload.CompletedCount | hooks/use-upload.ts:141 | at most the number of items, and zero iff no item is complete |
| Upload.TotalCount | hooks/use-upload.ts:142 | every item is counted once, as complete or as not complete |
| Checkout.InitialState | hooks/use-checkout.ts:18-21 | the hook starts at review with the given items or none, not loading, no error |
| Checkout.ComputeTotal | hooks/use-checkout.ts:23 | the left-to-right reduction equals the sum of unitPrice*quantity |
| Checkout.AddItem | hooks/use-checkout.ts:25-27 | the item goes at the end; existing items unchanged |
| Checkout.AddItemTotal | hooks/use-checkout.ts:23-27 | adding raises the total by that line's amount |
| Checkout.RemoveAt | hooks/use-checkout.ts:29-31 | exactly index i goes; an out-of-range index changes nothing |
| Checkout.RemoveAtTotal | hooks/use-checkout.ts:23-31 | removing lowers the total by that line's amount |
| Checkout.ClampQuantity | hooks/use-checkout.ts:35 | at least 1 and at least q; a quantity of 1 or more is kept, any smaller one becomes 1 |
| Checkout.UpdateQuantity | hooks/use-checkout.ts:33-37 | only item i changes, and only its quantity, to max(1, q) |
| Checkout.UpdateQuantityTotal | hooks/use-checkout.ts:23-37 | the total changes by the unit price times the quantity change |
| Checkout.EditsKeepQuantitiesPositive | hooks/use-checkout.ts:25-37 | no edit produces a quantity below 1 from positive quantities |
| Checkout.TotalNonNegative | hooks/use-checkout.ts:23 | non-negative prices and quantities give a non-negative total |
| Checkout.CheckoutLines | hooks/use-checkout.ts:44-52 | one request line per item, in order, with name, unit price and quantity |
| Checkout.RequestChargesTotal | hooks/use-checkout.ts:23-52 | the request charges exactly the displayed total |
| Checkout.ProcessCheckout | hooks/use-checkout.ts:39-73 | a truthy url redirects; OK without one moves to confirmation; failure records the message or "Checkout failed" and keeps the step; loading ends; items untouched |
| Checkout.FailedCheckoutKeepsCart | hooks/use-checkout.ts:62-72 | a failed checkout differs from the start only in its error |
| Reviews.FetchErrorText | hooks/use-reviews.ts:44-50 | the server's message or "Failed to fetch reviews", or the thrown message |
| Reviews.FetchReviews | hooks/use-reviews.ts:37-53 | skipped when the target type or id is empty; success replaces reviews and meta; failure keeps both; loading ends |
| Reviews.NoTargetKeepsLoading | hooks/use-reviews.ts:38 | with no target the first render's loading flag is never cleared |
| Reviews.RoundToTenth | hooks/use-reviews.ts:75-78 | the result is a multiple of 0.1 within (x - 0.05, x + 0.05] |
| Reviews.RoundToTenthIsTheOnlyTenth | hooks/use-reviews.ts:75-78 | any multiple of 0.1 in that band is the rounded value, so the rounding is determined by its contract |
| Reviews.WholeIsTenth | hooks/use-reviews.ts:78 | a whole rating is already a multiple of 0.1 |
| Reviews.NextAverage | hooks/use-reviews.ts:74-79 | with no previous average it is the rating; otherwise a multiple of 0.1 within 0.05 of the running mean (avg × total + rating) / (total + 1) |
| Reviews.MeanInRange | hooks/use-reviews.ts:74-79 | the running mean of values on a scale stays on that scale |
| Reviews.NextAverageInRange | hooks/use-reviews.ts:74-79 | ratings in 1..5 keep the rounded average in 1..5 |
| Reviews.MetaAfterSubmit | hooks/use-reviews.ts:70-81 | a null meta stays null; otherwise total+1 and the new average, limit and offset kept |
| Reviews.Submit | hooks/use-reviews.ts:59-87 | success prepends the review and updates meta; failure returns null and changes nothing |
| Reviews.DeleteReview | hooks/use-reviews.ts:89-101 | on OK the reviews with that id leave the list (order kept, count drops by their number), total becomes max(0, total - 1), the average stays, true is returned; a failure returns false with no change |
| Reviews.SubmitThenDeleteRestores | hooks/use-reviews.ts:59-101 | submitting a new review and deleting it restores the list and the total |
| Comments.FetchComments | hooks/use-comments.ts:38-53 | success replaces the list with `data.items` or `[]`; failure sets the error and keeps the list; loading ends |
| Comments.FailedRefreshKeepsThread | hooks/use-comments.ts:38-53 | a failed refresh keeps the thread the previous successful fetch loaded, and shows an error |
| Comments.AddComment | hooks/use-comments.ts:59-78 | an OK answer appends the returned comment; anything else changes nothing; a rejection propagates |
| Comments.Merge | hooks/use-comments.ts:87-91 | `{ ...c, ...updated }`: each of the nine fields comes from the answer when the answer carries it, otherwise from the comment |
| Comments.MergeIdempotent | hooks/use-comments.ts:87-91 | merging the same answer twice is merging once; an empty answer changes nothing |
| Comments.MergeTwice | hooks/use-comments.ts:87-91 | merging two answers in turn equals merging their overlay, the later answer winning field by field |
| Comments.EditComment | hooks/use-comments.ts:80-93 | on an OK answer exactly the comments with that id become Merge(comment, answer); other comments, and all comments on any other answer, are unchanged; a rejection rejects the promise |
| Comments.DeleteComment | hooks/use-comments.ts:95-98 | the DELETE names the id; the comments with that id leave the thread and exactly those, the rest keep their order, whatever the answer; a rejection rejects the promise |
| Comments.DeleteIgnoresAnswer | hooks/use-comments.ts:95-98 | two different answers to the DELETE leave the same thread |
| Comments.AddThenDeleteRestores | hooks/use-comments.ts:59-98 | adding a comment with a new id and deleting it restores the thread |
| Reactions.FetchReactions | hooks/use-reactions.ts:28-43 | success replaces the groups with `data.reactions` or `[]`; failure keeps them and sets the error; loading ends |
| Reactions.FailedRefreshKeepsGroups | hooks/use-reactions.ts:28-43 | a failed refresh keeps the groups the previous successful fetch loaded, and shows an error |
| Reactions.FindGroup | hooks/use-reactions.ts:71 | the first group with that emoji, or none iff no group has it |
| Reactions.HasReacted | hooks/use-reactions.ts:69-75 | true iff the first group with that emoji lists the user; false when there is none |
| Reactions.OnlyFirstGroupCounts | hooks/use-reactions.ts:71-72 | a user listed only in a later duplicate group has not reacted |
| Reactions.Toggle | hooks/use-reactions.ts:49-67 | the POST carries target and emoji; a refetch follows iff the answer is OK; no local edit; a rejected fetch rejects the promise |
| Reactions.ToggleThenRefetch | hooks/use-reactions.ts:61-64 | after a toggle the groups are exactly the refetched ones, or the old ones |
| Toasts.Ids | components/ui/toast.tsx:38-48 | the ids of the shown toasts |
| Toasts.AddToast | components/ui/toast.tsx:38-44 | one toast appended with the id, the message and the variant (default "default") |
| Toasts.RemoveToast | components/ui/toast.tsx:46-48 | the toasts with that id are gone, the rest keep their order, and the count drops by their number |
| Toasts.RemoveAbsentIsNoop | components/ui/toast.tsx:47 | removing an absent id changes nothing |
| Toasts.RemoveIdempotent | components/ui/toast.tsx:41-48 | a manual dismissal followed by the auto-dismiss timer removes once |
| Toasts.AddThenRemove | components/ui/toast.tsx:38-48 | adding under a fresh id and removing it restores the list |
| Toasts.RemovalsCommute | components/ui/toast.tsx:46-48 | dismissals of different ids may happen in any order |
| Toasts.UseToast | components/ui/toast.tsx:76-80 | outside a provider it throws "useToast must be used within ToastProvider" |
| Toasts.UseToastActsOnProvider | components/ui/toast.tsx:76-80 | outside a provider no list is handed out; inside one, adding then removing a fresh toast gives back the provider's list |
| Middleware.Decide | middleware.ts:8-67 | no Supabase config passes through; signed out on a non-public path redirects to /login with redirectTo; signed in on /login or /signup redirects to /dashboard; everything else passes |
| Middleware.ThrowIsSignedOut | middleware.ts:37-40 | a throwing session check is treated as signed out |
| Middleware.PublicRouteExamples | middleware.ts:43-46 | the match is by prefix: "/authors" and "/login-help" are public, "/dashboard" is not |
| Middleware.PublicRouteExtends | middleware.ts:43-46 | the match is by prefix: a public path other than "/" stays public under any suffix |
| Middleware.Target | middleware.ts:49-65 | the path each redirect sends the browser to |
| Middleware.NoRedirectLoop | middleware.ts:43-65 | following a redirect never leads to another one |
| Seo.SiteUrl | lib/seo.ts:4 | NEXT_PUBLIC_APP_URL, or http://localhost:3000 when unset |
| Seo.PageTitle | lib/seo.ts:93-95 | the title followed by " \| PantyHub" |
| Seo.PageTitleInjective | lib/seo.ts:93-95 | different titles give different page titles |
| Seo.SliceEnd | lib/seo.ts:102 | `slice`'s end index: kept when in [0, len], clamped to len above, counted from the end when negative, and 0 when that is still negative |
| Seo.TruncateDescription | lib/seo.ts:100-103 | lengths in UTF-16 units, default 160: a text within the limit is returned as is; a longer one becomes the trimmed prefix of SliceEnd(length, max - 3) units followed by "...", at most max units long when max >= 3 |
| Seo.TruncatedShape | lib/seo.ts:102 | over the limit the result is exactly the trimmed cut followed by "..." |
| Seo.TruncateIsFixpoint | lib/seo.ts:100-103 | truncating a truncated description changes nothing |
| Seo.TruncateKeepsPrefix | lib/seo.ts:102 | without spaces at the cut the result is exactly the prefix plus "..." |
| Seo.TruncateKeepsBmpPrefix | lib/seo.ts:102 | for text without astral characters, unit and character counts agree and the cut is the plain prefix of max - 3 characters |
| Seo.ThreeEmojiAreTruncated | lib/seo.ts:101-102 | three emoji are six units, so with a limit of 5 they are cut to one emoji and "..." |
| Seo.AbsoluteImage | lib/seo.ts:53-77 | an image starting with "http" is kept; any other is prefixed with the site URL |
| Seo.AbsoluteImageIsAbsolute | lib/seo.ts:56 | under an absolute site URL every image URL produced is absolute |
| Seo.ArticleBlock | lib/seo.ts:63-68 | the article fields exist iff an article is given; authors iff an author is |
| Seo.GenerateSeoMetadata | lib/seo.ts:25-88 | one page title feeds title, openGraph and twitter; canonical and og url are site URL + path; images and the large twitter card iff an image; robots no-index/no-follow iff noIndex |
| Seo.MetadataUrlsAreAbsolute | lib/seo.ts:36-62 | with an absolute site URL, metadataBase is absolute, the canonical and Open Graph URLs lie under the site, and every Open Graph and Twitter image is absolute |
| Navigation.EntityItem | lib/navigation.ts:24-59 | an entity entry links to "/" + slug in the entities group with its icon |
| Navigation.EntityItems | lib/navigation.ts:24-59 | one entity entry per slug, in order |
| Navigation.Registry | lib/navigation.ts:19-63 | Dashboard first, Settings last, the entity entries between |
| Navigation.NavItems | lib/navigation.ts:19-63 | the registry starts with Dashboard and ends with Settings |
| Navigation.GetNavItemsByGroup | lib/navigation.ts:68-70 | exactly the items of that group, in registry order |
| Navigation.Groups | lib/navigation.ts:75-77 | the group of each item, in order |
| Navigation.GetNavGroups | lib/navigation.ts:75-77 | each present group once, and only present groups |
| Seqs.Dedup | lib/navigation.ts:76 | `[...new Set(xs)]`: no repeated element, the same members as the input, and never longer |
| Seqs.DedupRun | lib/navigation.ts:75-77 | de-duplicating a value followed by a run of a second value gives the two values |
| Seqs.DedupAppendNew | lib/navigation.ts:75-77 | appending a value not seen yet appends it to the de-duplicated sequence |
| Seqs.DedupRunThenNew | lib/navigation.ts:75-77 | a value, a run of a second one, then a third de-duplicate to the three values |
| Navigation.DedupLayout | lib/navigation.ts:19-77 | core, a run of entities, then settings de-duplicate to [core, entities, settings] |
| Navigation.RegistryGroups | lib/navigation.ts:19-77 | any registry of this shape has groups core, entities, settings |
| Navigation.NavGroupsOfRegistry | lib/navigation.ts:19-77 | getNavGroups() is [core, entities, settings], without modules |
| Navigation.GroupsPartition | lib/navigation.ts:68-70 | the four group lists have lengths summing to the list's length |
| Navigation.RegistryPartition | lib/navigation.ts:19-70 | the per-group lists partition NAV_ITEMS |
| Navigation.RegistryIconsAreUsed | lib/navigation.ts:19-63 | every entry's icon is in USED_ICONS |
| Navigation.NavIconsAreUsed | lib/navigation.ts:19-63 | every NAV_ITEMS icon is in USED_ICONS |
| Icons.RegistryIconsAreUsed | lib/icons.ts:8-78 | every ENTITY_ICONS value is in USED_ICONS |
| Icons.GetEntityIconAsWritten | lib/icons.ts:53-55 | the `??` lookup as written: mapped keys, inherited prototype members, fallback otherwise |
| Icons.ConstructorIsNotAnIcon | lib/icons.ts:53-55 | "constructor" does not yield an icon name |
| Icons.GetEntityIcon | lib/icons.ts:53-55 | the mapped name for a known key, "FileText" otherwise; always in USED_ICONS |
| Icons.LookupsAgreeOffPrototype | lib/icons.ts:53-55 | away from prototype member names both lookups agree |
| Icons.PluralUsersFallsBack | lib/icons.ts:10-47 | the plural "users" falls back to FileText |
| Icons.PluralCommentsFallsBack | lib/icons.ts:10-47 | the plural "comments" falls back to FileText |
| Icons.DashboardIcon | lib/icons.ts:9 | "dashboard" maps to LayoutDashboard |
| Routes.EntityRoutes.Detail | lib/routes.ts:20-247 | detail(id) is list + "/" + id |
| Routes.EntityRoutes.Edit | lib/routes.ts:20-247 | edit(id) is detail(id) + "/edit" |
| Routes.RoutesFor | lib/routes.ts:20-247 | list is "/" + key and create is "/" + key + "/new" |
| Routes.GetEntityRoutes | lib/routes.ts:297-299 | every listed key has its entry with the list, create, detail and edit strings |
| Routes.DetailInjective | lib/routes.ts:20-247 | detail is injective in id |
| Routes.EditInjective | lib/routes.ts:20-247 | edit is injective in id |
| Routes.DetailOfNewIsCreate | lib/routes.ts:20-247 | detail("new") coincides with create |
| Routes.DetailDeterminesKeyAndId | lib/routes.ts:20-247 | for slash-free keys a detail path determines both key and id |
| Routes.KeysAreDistinct | lib/routes.ts:251-290 | ENTITY_ROUTE_KEYS has no duplicates, and distinct keys have distinct list paths |
| Routes.KeyPositionsMatch | lib/routes.ts:251-290 | each key of the list is found at its own position, so no key repeats |
| Routes.ListPathsDiffer | lib/routes.ts:20-247 | different keys give different list paths |
| ApiError.Status | lib/api/error.ts:14-24 | every code maps into 400..500, and only DB_ERROR and INTERNAL_ERROR map to 500 |
| ApiError.StatusDistinguishesClientErrors | lib/api/error.ts:14-24 | no two codes share a 4xx status |
| ApiError.CodeNamesDistinct | lib/api/error.ts:3-12 | the code strings are distinct |
| ApiError.ApiErrorResponse | lib/api/error.ts:26-31 | the body is { error: { code, message } } with status STATUS_MAP[code] |
| ApiError.ApiSuccess | lib/api/error.ts:33-35 | the data is the body, with status 200 by default |
| ApiError.DefaultSuccessIsNoError | lib/api/error.ts:14-35 | a default success carries its data with a status below that of every error response |
| ApiError.StatusExamples | lib/api/error.ts:14-24 | NOT_FOUND is 404, VALIDATION_ERROR 422, RATE_LIMITED 429 |
| SearchProvider.SetSearchProvider | lib/search/provider.ts:37-39 | the slot holds the given provider |
| SearchProvider.GetSearchProvider | lib/search/provider.ts:41-48 | returns the stored provider, or throws the not-initialized error when there is none |
| SearchProvider.GetBeforeSetThrows | lib/search/provider.ts:35-46 | before any set, get throws |
| SearchProvider.GetAfterSet | lib/search/provider.ts:37-47 | after set(p), get returns p; a later set overwrites |
| Theme.ResolveMode | lib/theme.ts:26-32 | a stored mode wins; with none the mode is dark whatever the system preference |
| Theme.ResolveModeFacts | lib/theme.ts:17-32 | the system preference never matters; resolving is idempotent; resolveMode(null) equals themeConfig.defaultMode |
| Billing.Derive | hooks/use-billing.ts:35-41 | status is present iff non-empty; isActive iff "active" or "trialing"; isPro equals isActive |
| Billing.LoadSubscription | hooks/use-billing.ts:22-41 | a rejected user lookup changes nothing; otherwise loading ends, and with no user the subscription is unchanged while with one it is derived from the status |
| Billing.LoadingEndsIffLookupSettles | hooks/use-billing.ts:22-44 | from the first render, loading ends exactly when the user lookup does not reject, as the call has no catch |
| Billing.NoUserOrStatusIsInactive | hooks/use-billing.ts:13-39 | with no user only loading ends, leaving {null, false, false}; a missing status derives the same |
| SearchRoute.TrimmedQuery | app/api/search/route.ts:6 | the q parameter trimmed, absent when missing |
| SearchRoute.AstralCharIsSearched | app/api/search/route.ts:9 | one character outside the Basic Multilingual Plane is two UTF-16 units, so it passes the `q.length < 2` gate |
| SearchRoute.NarrowCharIsGated | app/api/search/route.ts:9 | any other single character is gated |
| SearchRoute.Limit | app/api/search/route.ts:7 | `Math.min(limit ?? 10, 50)`: 10 when absent, the given value up to 50, and exactly 50 above it |
| SearchRoute.Queries | app/api/search/route.ts:18-396 | one query per table in the fixed order, each with the pattern and the limit |
| SearchRoute.Collect | app/api/search/route.ts:18-396 | at most one group per table, every group non-empty |
| SearchRoute.CollectComplete | app/api/search/route.ts:22-25 | every table whose answer has rows contributes its group, with that table's label and exactly those rows |
| SearchRoute.CollectSound | app/api/search/route.ts:22-25 | every group is some table's non-empty answer under that table's label |
| SearchRoute.Search | app/api/search/route.ts:4-399 | a query whose trimmed length is below 2 UTF-16 units (or which is absent) gets no results and makes no queries; any other query makes one query per table with `%q%` and the limit, and answers with the collected groups and the trimmed query |
| SearchRoute.Handle | app/api/search/route.ts:4-399 | over the route's own table list: a gated query reaches no table, an accepted one reaches every table and answers with the collected groups |
| SearchRoute.Labels | app/api/search/route.ts:16 | the type of each group, in order |
| SearchRoute.TableLabels | app/api/search/route.ts:18-396 | the type label of each table, in order |
| SearchRoute.CollectInTableOrder | app/api/search/route.ts:18-396 | groups appear in table order |
| SearchRoute.SubsequenceKeepsDistinct | app/api/search/route.ts:18-396 | dropping tables cannot create a repeated type |
| SearchRoute.SubsequenceMembers | app/api/search/route.ts:18-396 | every kept type is one of the tables' types |
| SearchRoute.TypeLabelsOfTables | app/api/search/route.ts:18-396 | the type labels of the 38 tables |
| SearchRoute.TypePositionsMatch | app/api/search/route.ts:18-396 | each type label is found at its own position in the list |
| SearchRoute.TypeLabelsDistinct | app/api/search/route.ts:18-396 | no two tables share a type label |
| SearchRoute.TableLabelsDistinct | app/api/search/route.ts:18-396 | each table has its own type label |
| SearchRoute.EachTypeAtMostOnce | app/api/search/route.ts:18-396 | each type appears at most once, in table order |
| SearchRoute.RouteGroupsDistinct | app/api/search/route.ts:18-398 | the route never returns two groups of the same type |
| SearchRoute.GroupsRespectLimit | app/api/search/route.ts:22 | when the database honours the limit, no group exceeds the capped limit |
| MediaRoute.ListQuery | app/api/media/route.ts:21-34 | the caller's rows, newest first by created_at, limit 100, with a filename filter `%search%` iff search is non-empty and a folder filter iff folder is non-empty |
| MediaRoute.List | app/api/media/route.ts:4-44 | 401 without a user and no query; otherwise the files, or FETCH_FAILED 500 |
| MediaRoute.ListIsScopedToCaller | app/api/media/route.ts:21-34 | when the database answers the query, every listed file is the caller's; the bound of 100 is assumed of the database's answer |
| MediaRoute.EmptyParametersAreIgnored | app/api/media/route.ts:27-32 | an empty search or folder is the same as none |
| MediaRoute.NewRow | app/api/media/route.ts:71-79 | size 0, alt null and folder "" by default, user_id the caller |
| MediaRoute.Create | app/api/media/route.ts:46-91 | 401 without a user; 400 VALIDATION when filename, url or mime_type is missing or empty, with no insert; otherwise the insert and 201 with the file, or CREATE_FAILED 500 |
| MediaRoute.CreatedRowIsCallers | app/api/media/route.ts:62-79 | a row is inserted iff the body is valid, and it is always the caller's |
| MediaRoute.Delete | app/api/media/route.ts:93-145 | 401, then 400 without id, then 404 unless the caller owns exactly one row with that id, then DELETE_FAILED 500; on success exactly the caller's rows with that id are deleted |
| MediaRoute.DeleteKeepsOthersRows | app/api/media/route.ts:116-135 | another user's row always survives a delete |
| MediaRoute.DeleteRemovesOneRow | app/api/media/route.ts:116-144 | a successful delete removes exactly one row |
| MediaRoute.AuthenticationComesFirst | app/api/media/route.ts:4-104 | every handler answers 401 without a user, whatever else the request holds |
| EmailTemplates.WelcomeEmail | lib/email-templates.ts:14-38 | subject "Welcome to PantyHub!", the name placed into both bodies |
| EmailTemplates.WelcomeNameIsVerbatim | lib/email-templates.ts:14-38 | the name can be read back unchanged from both bodies |
| EmailTemplates.WelcomeEmailInjective | lib/email-templates.ts:14-38 | different names give different emails |
| EmailTemplates.DigestLine | lib/email-templates.ts:55-59 | "- " + title, then ": " + body only when the body is non-empty, then " (" + link + ")" only when the link is non-empty, each read back at its place in the line |
| EmailTemplates.DigestHtmlItem | lib/email-templates.ts:47-51 | the list entry is the bold title, a line break, the body part, a line break, the link part and `</li>`, each read back at its place; longer than the bare frame exactly when the body is non-empty |
| EmailTemplates.HtmlBody | lib/email-templates.ts:49 | empty iff the body is missing or empty; otherwise the body value, verbatim, between the grey span's opening and closing tags |
| EmailTemplates.HtmlLink | lib/email-templates.ts:50 | empty iff the link is missing or empty; otherwise the link value, verbatim, as the href of the View anchor |
| EmailTemplates.HtmlEntryReadsBack | lib/email-templates.ts:47-51 | the body and the link values read back, verbatim, from the whole HTML entry at their offsets |
| EmailTemplates.DigestHtmlItems | lib/email-templates.ts:44-53 | `join("")` of the entries: empty iff there are no items, otherwise starting with the first entry |
| EmailTemplates.DigestHtmlItemsConcat | lib/email-templates.ts:44-53 | the entries of two item lists are the first list's entries followed by the second's |
| EmailTemplates.ItemsText | lib/email-templates.ts:55-60 | `join("\n")` of the lines: empty for no items, the single line for one item |
| EmailTemplates.EmptyFieldsAreAbsent | lib/email-templates.ts:44-60 | an empty body or link renders as a missing one, in html and text |
| EmailTemplates.DigestLines | lib/email-templates.ts:55-59 | one line per item, in input order |
| EmailTemplates.DigestEmail | lib/email-templates.ts:40-80 | the fixed subject; the text body is the fixed frame around the name and the item lines, and the HTML body the fixed frame around the name and the list entries, each piece read back at its place |
| EmailTemplates.DigestSubjectIsConstant | lib/email-templates.ts:63 | the subject depends on neither the name nor the items |
| EmailTemplates.DigestLineSingleLine | lib/email-templates.ts:58 | single-line fields give a single line |
| EmailTemplates.ItemsTextLines | lib/email-templates.ts:55-60 | with single-line fields, n >= 1 items give exactly n lines, in order |
| DigestLayout.DigestTextLines | lib/email-templates.ts:78 | with single-line fields, the text body splits at newlines into the header lines, one line per item in order (one empty line when there are none), then an empty line and the signature |
| DigestLayout.SplitTextBody | lib/email-templates.ts:78 | the text layout around any middle part splits into the fixed lines and the middle part's own lines |
| Text.Trim | app/api/search/route.ts:6 | `String.prototype.trim`: the result is the input with whitespace-only runs removed from both ends, and it neither starts nor ends with whitespace |
| Text.TrimIdempotent | hooks/use-messages.ts:76 | trimming a trimmed string changes nothing |
| Text.TrimOfTrimmed | hooks/use-messages.ts:76 | a string without whitespace at either end is its own trim |
| Text.Utf16Length | lib/seo.ts:101 | JavaScript's `length`: between the number of characters and twice that, two units per character outside the Basic Multilingual Plane |
| Text.Utf16LengthConcat | lib/seo.ts:101 | the unit length of a concatenation is the sum of the unit lengths |
| Text.Utf16LengthOfTrim | lib/seo.ts:102 | trimming never makes a string longer in units |
| Text.Utf16Prefix | lib/seo.ts:102 | `slice(0, n)`: the longest prefix of at most n units, which is the whole string when it fits |
| Text.Utf16PrefixOfBmp | lib/seo.ts:102 | without astral characters the unit prefix is the plain prefix of n characters |
| Text.TrimEmptyIffBlank | hooks/use-messages.ts:77 | trimming gives "" iff the string is whitespace only |
| Text.SplitJoin | lib/email-templates.ts:60 | joining lines with "\n" and splitting again gives the lines back when none holds a newline |
| Text.SplitAtSeparator | lib/email-templates.ts:78 | splitting at a separator splits each side independently |
| Text.NatToString | lib/storage.ts:19 | decimal digits without a leading zero |
| Text.ParseNatToString | lib/storage.ts:19 | the decimal digits read back to the number |
| Seqs.CountZeroIffNone | hooks/use-upload.ts:141 | a filter's count is zero iff no element satisfies the predicate |
| Seqs.FilterPartition | hooks/use-upload.ts:141-142 | every element is kept either by a filter or by its negation, never both |
| Seqs.NoDuplicatesByPosition | lib/routes.ts:251-290 | a list whose every element maps back to its own position has no repeats |

## Left out

- I/O of every kind: fetch, Supabase auth, storage, realtime channels and database queries. Their outcomes are inputs (`Reply`, `DbResult`, row oracles) and the requests are outputs.
- Which columns each search table matches with `ilike`: the table's answer is an oracle of (table, pattern, limit).
- The case-insensitive `ilike` of the media listing: it is a parameter of `MediaRoute.Selects`.
- `Number()` parsing of the search limit, including NaN and negative values: the limit arrives as an optional integer.
- Timers and concurrency: the upload progress interval is the explicit `Upload.Tick` step, and the toast timer is the same removal as a manual dismissal.
- Upload.UploadAll: settles pending items in list order, whereas `Promise.all` lets them finish in any order. The final items do not depend on that order when the ids are distinct (`Upload.UploadAllSettlesInOrder`), but the URLs handed to `onAllComplete` do: the source pushes them in completion order (hooks/use-upload.ts:91), the model in queue order. The model promises the same URLs, not the same order.
- Upload.CollectedUrls: lists the URLs in the order of the outcomes it is given, which is queue order, not completion order.
- Seo.TruncateDescription: when the cut falls between the two halves of a surrogate pair the source keeps a lone high surrogate. A Dafny string cannot hold one, so the model's cut stops before the pair and the result is one unit shorter.
- Storage.UploadFile: validates against the corrected bucket lookup. For a bucket name inherited from `Object.prototype` the source throws instead (see Findings).
- Comments.EditComment: the PATCH request `{ id, body }` is not part of the result; only the effect of the answer is modelled.
- Clock and randomness: `Date.now`, `Math.random`, `crypto.randomUUID`, `toISOString` and `URL.createObjectURL` values are parameters. `URL.revokeObjectURL` has no visible effect and is not modelled.
- Floating point: prices and sizes are integers. The review average is computed over the reals, so binary rounding of `Math.round(x * 10) / 10` is not modelled.
- `encodeURIComponent` of the login redirect: the decision carries the raw pathname.
- Refreshing of session cookies in the middleware, and `new URL` failures in the SEO metadataBase.
- `console.error` logging, the UI components and pages, the sitemap, the Next.js configuration and the logger. This includes the middleware's `config.matcher` (middleware.ts:70-74): requests for `_next/static`, `_next/image`, `favicon.ico` and image files never reach the middleware, so `Middleware.Decide` describes only the requests the matcher lets through.
- The abstract `SearchProvider` methods, which have no implementation.
- The styling markup of the emails is kept as fixed strings; only the interpolated values are reasoned about.
- SearchRoute.Search: the response is `{ results }` or `{ results, query }`; the JSON serialisation itself is not modelled.
- MediaRoute.Delete: `.single()` is modelled as "exactly one owned row with that id". The database error it returns for zero or several rows is not distinguished from a missing row, which is also how the handler treats it.

## Findings

| source | as written | input that shows it | evidently intended | confidence | as-written member | corrected member |
|---|---|---|---|---|---|---|
| lib/icons.ts:53-55 | `ENTITY_ICONS[entityKey] ?? "FileText"` reads through the object's prototype, so a key naming an `Object.prototype` member returns that inherited member instead of the fallback | `getEntityIcon("constructor")` returns the `Object` constructor function, not an icon name | every key outside the map returns "FileText", so every result is in USED_ICONS | not executed | Icons.GetEntityIconAsWritten (counterexample Icons.ConstructorIsNotAnIcon) | Icons.GetEntityIcon |
| lib/storage-config.ts:61-63 | `STORAGE_BUCKETS[bucketName] ?? STORAGE_BUCKETS.attachments` reads through the object's prototype, so a bucket name naming an `Object.prototype` member returns that inherited member instead of the attachments bucket | `getBucketConfig("constructor")` returns the `Object` constructor function; `validateFile` then reads `allowedMimeTypes.includes` of `undefined` at lib/storage-config.ts:74, so `uploadFile(f, "constructor")` rejects with a TypeError | every name outside the map falls back to the attachments bucket | not executed | StorageConfig.GetBucketConfigAsWritten (counterexample StorageConfig.ConstructorBucketThrows) | StorageConfig.GetBucketConfig |
