# Cafoli CRM core, modelled in Dafny

This project models the core of the Cafoli CRM (`cafoli-crm-2.0`), a TypeScript application on the Convex
backend that talks to the WhatsApp Cloud API, Brevo email and Gemini. It states and proves the
rules that the CRM's server functions and a few of its screens follow:

- **WhatsApp media.** The file-type sniffing of the storage migration, the media-handle cache
  (`whatsappMediaCache`), and the media send path with its cache hit, invalidation, upload and
  retry. Also the cache-less send of the internal module, text and welcome sends, and
  read receipts.
- **Lead rules.** Phone standardisation, search text, role checks, follow-up closing, cold-caller
  marking and allocation, the intervention-request state machine, and the Pharmavends import
  with its skipped / new / reactivated / duplicate classification.
- **Keyed tables.** Tags with unique names and colours, WhatsApp templates upserted on name and
  language, range PDFs, and the activity log with its indexed query and per-category statistics.
- **Campaigns.** Default block data, the builder's block and connection edits, the save checks,
  wait delays, and the executor's dispatch and successor scheduling.
- **Batch loops.** Bulk WhatsApp sends, welcome-template sends, and the AI batch with its retry
  queue and stop flag. Each keeps its counters balanced.
- **Small functions.** The `salt:hash` password format, HTML tag stripping, CSV export, lead
  selection, follow-up reminder windows, template components and formatting, and initials.

Every call to a hosted service is a parameter of the model:

- an HTTP request becomes its outcome, as an ok or fail reply with the id it returns;
- a query into another module becomes the table or map it would read;
- a scheduled job or fire-and-forget call becomes a recorded effect.

Tables the source never deletes from are sequences (id = position). Where it deletes, ids stay
stable in one of three ways: range PDFs are a map with a fresh-id counter; the file storage is a
map whose new ids come from the upload as a parameter; the media cache is a sequence of rows that
carry their own row id, with a fresh-id counter. An optional string the source tests for
truthiness is `""` when absent.
Where the source updates state step by step, the model is a class or a method with a loop, proved
against a specification function. Lemmas then prove the promised properties about that function.

## Model

| member | source | states |
|---|---|---|
| Common.ContainsPrefixOf | src/components/LeadSelector.tsx:36-41 | `includes` finds a text at the start |
| Common.NotContainsShorter | src/components/LeadSelector.tsx:36-41 | `includes` never finds a longer text |
| Common.TrimStart | src/components/whatsapp/ChatWindow.tsx:80 | the leading white space, and only it, is removed |
| Common.TrimEnd | src/components/whatsapp/ChatWindow.tsx:80 | the trailing white space, and only it, is removed |
| Common.Trim | src/components/whatsapp/ChatWindow.tsx:80 | `trim()` is empty exactly for all-white-space text |
| Common.NonEmpty | src/convex/pharmavendsMutations.ts:53-61 | `filter(Boolean)` keeps exactly the non-empty parts |
| Common.JoinLength | src/pages/Logs.tsx:86-88 | a join is the parts plus one separator between each two |
| Common.ContainsInSuffix | src/convex/pharmavendsMutations.ts:53-61 | what the end of a text contains, the text contains |
| Common.JoinContainsPart | src/convex/pharmavendsMutations.ts:53-61 | every part occurs in the joined text |
| Common.JoinEmpty | src/convex/pharmavendsMutations.ts:53-61 | non-empty parts join to the empty text only when there are none |
| Common.ToLowerChar | src/components/LeadSelector.tsx:35 | an upper-case ASCII letter becomes the same letter in lower case, which `ToUpperChar` turns back; any other character stays |
| Common.ToUpperChar | src/components/whatsapp/ChatWindow.tsx:138 | a lower-case ASCII letter becomes the same letter in upper case; any other character stays |
| Common.ToLower | src/components/LeadSelector.tsx:35 | `toLowerCase()` maps each character and keeps the length |
| Common.ToUpper | src/components/whatsapp/ChatWindow.tsx:138 | `toUpperCase()` maps each character and keeps the length |
| Common.ReplaceAllLength | src/pages/Logs.tsx:85 | a global replace changes the length by the difference once per occurrence |
| Common.ReplaceAllAbsent | src/convex/campaignExecutor.ts:103-105 | a global replace of an absent pattern changes nothing |
| Common.ReplaceAllSelf | src/convex/campaignExecutor.ts:103-105 | replacing a pattern by itself changes nothing |
| Common.SubstitutePlain | src/convex/campaignExecutor.ts:103-105 | a replacement without `$` goes in as it is, whatever surrounds the match |
| Common.ReplaceLiteral | src/convex/campaignExecutor.ts:103-105 | with a replacement free of `$`, JavaScript's global `replace` is the literal replace-all |
| Common.ReplaceAbsent | src/convex/campaignExecutor.ts:103-105 | a global `replace` of a pattern that does not occur changes nothing |
| Common.DollarsCollapse | src/convex/campaignExecutor.ts:103-105 | `$$` in a replacement puts in a single `$`: replacing "x" in "x" by "A$$B" gives "A$B" |
| Common.NatToString | src/convex/pharmavends.ts:15 | `String(n)` is a non-empty run of decimal digits, one digit exactly below 10 |
| Common.NatToStringRoundTrip | src/convex/pharmavends.ts:15 | the digits read back as the number |
| ColdCallerLeads.Mark | src/convex/coldCallerLeads.ts:24-26 | the patch sets the cold-caller flag and changes nothing else |
| ColdCallerLeads.MarkedLeads | src/convex/coldCallerLeads.ts:23-27 | the table keeps its length through the marking |
| ColdCallerLeads.MarkComments | src/convex/coldCallerLeads.ts:29-33 | one system comment per marked lead |
| MediaCache.LookupFind | src/convex/whatsapp/mediaCache.ts:7-10 | the row a lookup returns is the one at the position the search finds |
| Pharmavends.RowOf | src/convex/pharmavends.ts:35-73 | a row carries the item's query number and the insert arguments built from the item |
| ProductStorageMetadata.DetectMimeType | src/convex/migrations/fixProductStorageMetadata.ts:103-122 | "image/png" exactly when the bytes start 89 50 4E 47, "image/jpeg" exactly when they start FF D8 FF, "application/pdf" exactly when they start `%PDF`, "image/webp" exactly when `RIFF` is at 0-3 and `WEBP` at 8-11 (so at least 12 bytes); otherwise null; fewer than 3 bytes always give null |
| ProductStorageMetadata.PngSignatureTail | src/convex/migrations/fixProductStorageMetadata.ts:104-107 | any bytes after the first four of the PNG signature are accepted: only 4 of its 8 bytes are compared |
| ProductStorageMetadata.Issues | src/convex/migrations/fixProductStorageMetadata.ts:15-42 | a field is listed exactly when it is set and its metadata is missing, has no content type or has "application/octet-stream"; no field is listed twice |
| ProductStorageMetadata.Problematic | src/convex/migrations/fixProductStorageMetadata.ts:9-53 | every reported entry is some product with its non-empty issue list, and every product with an issue is reported |
| ProductStorageMetadata.NothingProblematicIffClean | src/convex/migrations/fixProductStorageMetadata.ts:44-53 | the report is empty exactly when no field of any product is flagged |
| ProductStorageMetadata.RunMigration | src/convex/migrations/fixProductStorageMetadata.ts:67-99 | success exactly when the count is 0, exactly when no field is flagged; the count is the number of products reported |
| ProductStorageMetadata.PatchFile | src/convex/migrations/fixProductStorageMetadata.ts:253-259 | the patched field holds the new id, the other three fields are unchanged, and `images` becomes `[newId]` only for mainImage |
| ProductStorageMetadata.FindProduct | src/convex/migrations/fixProductStorageMetadata.ts:237-241 | the first row with the product id, or none when no row has it |
| ProductStorageMetadata.ProductStore.FindProblematicProducts | src/convex/migrations/fixProductStorageMetadata.ts:6-55 | the loop returns the report of `Problematic` and changes nothing |
| ProductStorageMetadata.ProductStore.ProductIssues | src/convex/migrations/fixProductStorageMetadata.ts:13-42 | the four field checks push exactly the flagged fields, in order |
| ProductStorageMetadata.ProductStore.UpdateProductFile | src/convex/migrations/fixProductStorageMetadata.ts:245-270 | the row is patched as `PatchFile` says and the old file is deleted (a missing one is ignored) |
| ProductStorageMetadata.FixStepOutcome | src/convex/migrations/fixProductStorageMetadata.ts:149-210 | a failed attempt leaves products and files as they were; a successful one needed the product, a set field, a readable file, an ok fetch, a detected type and an ok upload, and leaves the field (and for mainImage the gallery, by `PatchFile`) pointing at the upload, which holds the old bytes under the detected type, while the old file is gone |
| ProductStorageMetadata.FixStepKeepsRows | src/convex/migrations/fixProductStorageMetadata.ts:207-212 | an attempt keeps the number of rows and every row's id and name |
| ProductStorageMetadata.FixStepLeavesOthers | src/convex/migrations/fixProductStorageMetadata.ts:253-259 | an attempt on another product or another field leaves a field's id as it was, and the gallery unless the attempt is on that product's main image |
| ProductStorageMetadata.AttemptsOf | src/convex/migrations/fixProductStorageMetadata.ts:148 | one attempt per issue of the product, in the order of its issues, each carrying the product's id and name |
| ProductStorageMetadata.AttemptsOfReport | src/convex/migrations/fixProductStorageMetadata.ts:147-148 | the nested loops make one attempt per (reported product, issue) pair: as many as `TotalIssues`, each naming a reported product and one of its issues |
| ProductStorageMetadata.FixRunAccounts | src/convex/migrations/fixProductStorageMetadata.ts:147-224 | every attempt adds exactly one fix or one failure naming its product and field; failures already recorded stay in place |
| ProductStorageMetadata.FixRunKeepsRows | src/convex/migrations/fixProductStorageMetadata.ts:147-224 | the run keeps the number of rows and every row's id and name |
| ProductStorageMetadata.FixRunLeavesOthers | src/convex/migrations/fixProductStorageMetadata.ts:147-224 | a field that no attempt names keeps its file id, and so does the gallery of a row whose main image no attempt names |
| ProductStorageMetadata.ProductStore.FixField | src/convex/migrations/fixProductStorageMetadata.ts:149-223 | the new products, files and recorded error are those of `FixStep`: "Product not found", "Storage ID not found", "Could not get file URL", "Failed to fetch file: " followed by the status text, "Could not detect file type", "Failed to upload corrected file", or a patched row, the corrected file stored and the old one deleted |
| ProductStorageMetadata.ProductStore.FixProblem | src/convex/migrations/fixProductStorageMetadata.ts:148-224 | the store, the count and the failures after the product's issues are those of running its attempts in order from the count and failures it was given |
| ProductStorageMetadata.ProductStore.FixFiles | src/convex/migrations/fixProductStorageMetadata.ts:125-234 | the store, the count and the failures are those of running every (product, issue) attempt of the report in order, the k-th answered by the k-th fetch and upload; success exactly when no attempt failed |
| ProductStorageMetadata.FixFilesReport | src/convex/migrations/fixProductStorageMetadata.ts:125-234 | fixed plus failed equals the number of flagged (product, field) pairs; each failure names a reported product and one of its issues; product ids and names are kept |
| MediaCache.Find | src/convex/whatsapp/mediaCache.ts:7-10 | the index of the first row for the storage id, none exactly when no row has it |
| MediaCache.Lookup | src/convex/whatsapp/mediaCache.ts:7-10 | a row is found exactly when some row has the storage id, and it is one of the table's rows with that id |
| MediaCache.LookupUpdateOther | src/convex/whatsapp/mediaCache.ts:27-33 | patching the row of one storage id does not change what another storage id finds |
| MediaCache.LookupUpdateFirst | src/convex/whatsapp/mediaCache.ts:27-33 | after the first row for a storage id is patched, that id finds the patched row |
| MediaCache.LookupAppend | src/convex/whatsapp/mediaCache.ts:34-42 | an inserted row is found only by its own storage id and only when no earlier row has it |
| MediaCache.LookupDelete | src/convex/whatsapp/mediaCache.ts:54-56 | with one row per storage id, deleting a row makes its id find nothing and leaves the other ids' rows |
| MediaCache.ValidPatch | src/convex/whatsapp/mediaCache.ts:27-33 | a patch keeps row ids and storage ids unique |
| MediaCache.ValidInsert | src/convex/whatsapp/mediaCache.ts:34-42 | inserting a row for an unseen storage id with a fresh row id keeps both unique |
| MediaCache.ValidDelete | src/convex/whatsapp/mediaCache.ts:54-56 | a delete keeps both unique |
| MediaCache.MediaCacheTable.Get | src/convex/whatsapp/mediaCache.ts:4-12 | `get` returns a row exactly when the table has one for the storage id, and the row has that id |
| MediaCache.MediaCacheTable.Save | src/convex/whatsapp/mediaCache.ts:14-44 | afterwards `get` returns the saved mediaId, mimeType, fileName and time; an existing row is patched in place (same row id, same size), an unseen id adds exactly one row; other storage ids are unchanged; at most one row per storage id |
| MediaCache.MediaCacheTable.Remove | src/convex/whatsapp/mediaCache.ts:46-58 | afterwards `get` returns nothing; a missing row is a no-op, a present one removes exactly one row; other storage ids are unchanged |
| MediaCache.SaveTwiceKeepsLast | src/convex/whatsapp/mediaCache.ts:22-42 | two saves for one file leave one row, holding the second save's values |
| WhatsAppMessages.MissingVariables | src/convex/whatsapp/messages.ts:12-15 | names CLOUD_API_ACCESS_TOKEN exactly when the token is empty and WA_PHONE_NUMBER_ID exactly when the phone number id is empty, in that order |
| WhatsAppMessages.GetCredentials | src/convex/whatsapp/messages.ts:8-24 | credentials exactly when both variables are set; otherwise an error starting with "WhatsApp API not configured. Missing: " and the missing names |
| WhatsAppMessages.CleanPhone | src/convex/whatsapp/messages.ts:44 | no whitespace or dash is left, every other character of the input ('+' included) is kept, and one character is kept exactly when it is neither (with CleanPhoneAppend this fixes the result and its order) |
| WhatsAppMessages.CleanPhoneIdempotent | src/convex/whatsapp/messages.ts:44 | cleaning twice is cleaning once |
| WhatsAppMessages.CleanPhoneAppend | src/convex/whatsapp/messages.ts:44 | cleaning two texts put together cleans each and keeps their order |
| WhatsAppMessages.CleanPhoneKeepsClean | src/convex/whatsapp/messages.ts:44 | a number without spaces or dashes is sent as given |
| WhatsAppMessages.BuildTextPayload | src/convex/whatsapp/messages.ts:44-57 | the cleaned number and the message; `context` only when a non-empty quoted id is given, and then that id |
| WhatsAppMessages.Send | src/convex/whatsapp/messages.ts:26-94 | succeeds exactly when the credentials are set, the trimmed number is non-empty, the API answers ok and the message is stored; a blank number gives "Phone number is required and cannot be empty"; later failures carry the "Failed to send WhatsApp message: " prefix |
| WhatsAppMessages.MediaTypeOf | src/convex/whatsapp/messages.ts:116-120 | image, video or audio exactly for those MIME prefixes, document otherwise |
| WhatsAppMessages.BuildMediaPayload | src/convex/whatsapp/messages.ts:239-253 | recipient, type and media id as given; a caption exactly when a non-empty one is given; a filename exactly for documents with a non-empty file name |
| WhatsAppMessages.Deliveries | src/convex/whatsapp/messages.ts:122-215 | the media messages WhatsApp accepted number at most the calls made |
| WhatsAppMessages.Uploads | src/convex/whatsapp/messages.ts:151-215 | the uploads of the file number at most the calls made |
| WhatsAppMessages.CountsSnoc | src/convex/whatsapp/messages.ts:105-236 | one more call adds one delivery when it is an accepted send and one upload when it is an upload |
| WhatsAppMessages.CountsAppend | src/convex/whatsapp/messages.ts:105-236 | deliveries and uploads of two runs of calls add up |
| WhatsAppMessages.UploadAndSend | src/convex/whatsapp/messages.ts:151-215 | one upload exactly when the stored file exists; a missing file, a non-ok upload or a missing id fails before anything is cached; a new id is cached before the send, so it stays cached when the send fails; success exactly when upload, send and store all succeed, with the payload for the new id |
| WhatsAppMessages.SendCached | src/convex/whatsapp/messages.ts:125-142 | the cached id is sent without reading or uploading the file, and one delivery happens exactly when WhatsApp accepts it |
| WhatsAppMessages.TryCached | src/convex/whatsapp/messages.ts:122-149 | the cached attempt ends the run exactly when both the send and the message insert succeed; otherwise the cache entry is removed |
| WhatsAppMessages.UploadAndLog | src/convex/whatsapp/messages.ts:151-234 | the upload path after the calls already made, with its failure logged as "Media Send Error" |
| WhatsAppMessages.SendMedia | src/convex/whatsapp/messages.ts:105-236 | missing credentials are logged and thrown; a usable cached id is sent without an upload; after a failed cached attempt the entry is removed and one upload-and-send follows; at most one upload; every failure ends with the log entry; two deliveries exactly when the cached send was accepted, its insert failed and the retry sent again; other cache entries are unchanged |
| WhatsAppMessages.SendMediaOnce | src/convex/whatsapp/messages.ts:122-149 | with the retry limited to a failed send: at most one delivery, and an accepted cached send is never followed by an upload |
| WhatsAppMessages.DoubleDelivery | src/convex/whatsapp/messages.ts:125-149 | the concrete run in which the as-written send delivers the media twice and the corrected one once |
| WhatsAppMessages.FirstThrow | src/convex/whatsapp/messages.ts:281-311 | the position of the first request that throws, or none when none of them throws |
| WhatsAppMessages.FirstThrowStable | src/convex/whatsapp/messages.ts:284-305 | the first throwing request does not change when more requests follow |
| WhatsAppMessages.Rejected | src/convex/whatsapp/messages.ts:301-304 | an id is logged exactly when one of the requests made for it came back non-ok; no more entries than requests |
| WhatsAppMessages.RejectedGrows | src/convex/whatsapp/messages.ts:284-305 | what is logged for the first requests stays at the head of the log as more requests are made |
| WhatsAppMessages.MarkMessagesAsRead | src/convex/whatsapp/messages.ts:276-313 | success exactly when the credentials are set and no request throws; then one request per id, in order, with the non-ok ones logged; a throwing request ends the loop right after it; missing credentials send nothing |
| WhatsAppInternal.GetInternalCredentials | src/convex/whatsapp/internal.ts:8-24 | credentials exactly when both variables are set; otherwise an error starting with "WhatsApp API not configured. Missing environment variables: " and exactly the missing names |
| WhatsAppInternal.SendWelcomeMessage | src/convex/whatsapp/internal.ts:27-88 | the fixed welcome text goes to the number as given whenever the credentials are set; it is stored exactly when the API answered ok and the insert succeeded; every failure is logged as "Welcome Message Failed" and rethrown |
| WhatsAppInternal.SendMessage | src/convex/whatsapp/internal.ts:90-177 | never throws: success exactly when the credentials are set, the API answers ok and the message is stored; the payload has the cleaned number and a context only for a quoted id; a non-ok answer is logged as "Message Send Failed", an exception as "Message Send Error", and both report success false with an error |
| WhatsAppInternal.InternalMediaPayload | src/convex/whatsapp/internal.ts:265-282 | a caption for any media type whenever a non-empty message is given; a filename for every document and only for documents |
| WhatsAppInternal.UploadFile | src/convex/whatsapp/internal.ts:192-248 | a media id exactly when the credentials are set, the file is stored, the upload is ok and an id is returned; a non-ok upload is logged as "Media Upload Failed"; nothing is sent |
| WhatsAppInternal.SendUploaded | src/convex/whatsapp/internal.ts:250-337 | the message is classified by MIME prefix and sent once; success exactly when the send and the insert succeed; a non-ok send is logged as "Media Send Failed" |
| WhatsAppInternal.SendMediaUncached | src/convex/whatsapp/internal.ts:179-358 | succeeds exactly when credentials, file, upload, send and insert all succeed, with the internal payload; at most one upload and one delivery; every failure ends with the "Media Send Error" entry after the step's own entry; the media cache is not touched |
| LeadUtils.Digits | src/convex/leadUtils.ts:6 | only digits are kept, every digit of the input is kept, and one character is kept exactly when it is a digit (with DigitsAppend this fixes the result and its order) |
| LeadUtils.DigitsAppend | src/convex/leadUtils.ts:6 | the digits of two texts put together are those of the first followed by those of the second |
| LeadUtils.DigitsOfDigits | src/convex/leadUtils.ts:6 | a string of digits is its own digit string |
| LeadUtils.StandardizePhoneNumber | src/convex/leadUtils.ts:4-11 | "" stays ""; the result is all digits and ends with the input's digits; exactly 10 digits get "91" in front, any other count is returned as is |
| LeadUtils.StandardizeIdempotent | src/convex/leadUtils.ts:4-11 | standardizing a standardized number changes nothing |
| LeadUtils.GenerateSearchText | src/convex/leadUtils.ts:14-32 | the text contains every one of the seven fields, and is empty exactly when all of them are |
| LeadUtils.FindUser | src/convex/leadUtils.ts:40 | the user row with the id, or none when no row has it |
| LeadUtils.CheckRole | src/convex/leadUtils.ts:35-47 | "Unauthorized" without a user id; the user exactly when it exists with a role that is allowed or is admin; "Permission denied" otherwise |
| LeadUtils.Close | src/convex/leadUtils.ts:60-69 | the follow-up becomes completed at `now`, "overdue" exactly when `now` is more than 1,200,000 ms after the scheduled time, else "timely"; lead, assignee and time are kept |
| LeadUtils.FollowUpTable.HandleFollowUpChange | src/convex/leadUtils.ts:50-80 | every pending follow-up of the lead is closed and no other row changes; one pending row is appended exactly when a truthy date is given, so afterwards the lead has one pending follow-up with a date and none without |
| ColdCallerLeads.MarkCandidates | src/convex/coldCallerLeads.ts:11-21 | exactly the leads with no assignee, type other than "Irrelevant", not yet cold and created more than 259,200,000 ms before `now`, in table order |
| ColdCallerLeads.MarkingIsIdempotent | src/convex/coldCallerLeads.ts:11-26 | after a run, a second run at the same time selects nothing |
| ColdCallerLeads.MarkingChangesOnlyTheFlag | src/convex/coldCallerLeads.ts:23-26 | a lead changes exactly when it was selected, and then only its cold-caller flag |
| ColdCallerLeads.MarkStep | src/convex/coldCallerLeads.ts:23-26 | flagging the next selected lead extends the flagged prefix by one |
| ColdCallerLeads.MarkCommentsSnoc | src/convex/coldCallerLeads.ts:29-33 | the next selected lead adds exactly its one system comment |
| ColdCallerLeads.MarkedAll | src/convex/coldCallerLeads.ts:23-34 | once every selected lead is flagged the table is the marked table |
| ColdCallerLeads.MarkLead | src/convex/coldCallerLeads.ts:24-33 | the loop body flags one lead and writes its one system comment |
| ColdCallerLeads.MarkColdCallerLeads | src/convex/coldCallerLeads.ts:7-38 | the selected leads get the flag and one system comment each, nothing else changes, and markedCount is the number selected |
| ColdCallerLeads.IstWeekday | src/convex/coldCallerLeads.ts:45-48 | the UTC weekday of `now` + 19,800,000 ms, between 0 and 6 |
| ColdCallerLeads.WeekdayAdvances | src/convex/coldCallerLeads.ts:45-48 | one day later is the next weekday, modulo 7 |
| ColdCallerLeads.FiveWorkingDays | src/convex/coldCallerLeads.ts:50-52 | the weekend is weekday 0 or 6; after a Friday come two skipped days and then an allocation day |
| ColdCallerLeads.Staff | src/convex/coldCallerLeads.ts:55-56 | exactly the users whose role is staff |
| ColdCallerLeads.Unallocated | src/convex/coldCallerLeads.ts:59-62 | exactly the cold-caller leads with no cold-caller assignee, in table order |
| ColdCallerLeads.Pool | src/convex/coldCallerLeads.ts:59-63 | a prefix of the unallocated leads of at most 10 per staff member |
| ColdCallerLeads.Allocate | src/convex/coldCallerLeads.ts:71-74 | the patch sets the cold-caller assignee to the staff member and the assignment time to now, and changes nothing else |
| ColdCallerLeads.AllocationComments | src/convex/coldCallerLeads.ts:76-80 | one comment per lead handed out |
| ColdCallerLeads.AllocateStep | src/convex/coldCallerLeads.ts:68-74 | handing pool entry j to staff member j / 10 extends the allocated prefix by one |
| ColdCallerLeads.AllocateSlice | src/convex/coldCallerLeads.ts:67-84 | one staff member's turn hands out the next slice of at most 10 leads, all to that member |
| ColdCallerLeads.AllocateLead | src/convex/coldCallerLeads.ts:70-81 | the inner loop body patches one lead to the staff member and writes one comment |
| ColdCallerLeads.AllocateColdCallerLeads | src/convex/coldCallerLeads.ts:41-88 | on an IST weekend nothing changes; otherwise pool entry j goes to staff member j / 10 with assignee, time and one comment, so no lead goes to two users and earlier staff are filled first, the other leads are unchanged, and allocatedCount is the pool size |
| InterventionRequests.NewRequest | src/convex/interventionRequests.ts:14-22 | a new request is pending, needs no follow-up and is neither claimed nor resolved; it carries the given lead, assignee and messages |
| InterventionRequests.PendingInterventions | src/convex/interventionRequests.ts:47-59 | exactly the pending requests assigned to the user or to nobody, in table order |
| InterventionRequests.Claim | src/convex/interventionRequests.ts:88-99 | refused with the "already been claimed" message exactly when the status is claimed (so resolved or dismissed requests can be claimed); otherwise claimed by the user at `now` with a follow-up required, and no other field changes |
| InterventionRequests.TakeOver | src/convex/interventionRequests.ts:103-108 | the lead gets the claimer as assignee and stops being a cold-caller lead; nothing else changes |
| InterventionRequests.Resolve | src/convex/interventionRequests.ts:120-123 | status resolved or dismissed and resolvedAt set, whatever the status was; nothing else changes |
| InterventionRequests.CompleteFollowUp | src/convex/interventionRequests.ts:162-166 | no follow-up required, status resolved, resolvedAt set; nothing else changes |
| InterventionRequests.FirstDue | src/convex/interventionRequests.ts:130-154 | the first request claimed by the user, needing a follow-up and claimed more than 300,000 ms ago, or none when there is no such request |
| InterventionRequests.ClaimIsDueAfterFiveMinutes | src/convex/interventionRequests.ts:94-99 | a fresh claim becomes due for a follow-up exactly when more than five minutes have passed |
| InterventionRequests.ClaimIsExclusive | src/convex/interventionRequests.ts:89-99 | a claimed request refuses every second claim, and after a resolve or dismiss it can be claimed again |
| InterventionRequests.CompletionEndsReminder | src/convex/interventionRequests.ts:157-167 | after the follow-up is completed the request is neither due nor pending |
| InterventionRequests.InterventionTable.Create | src/convex/interventionRequests.ts:5-45 | both create mutations append exactly one new request and return its id |
| InterventionRequests.InterventionTable.ClaimIntervention | src/convex/interventionRequests.ts:76-112 | "Intervention not found" for a missing request; the claim is refused and nothing changes when it is already claimed; otherwise the request is claimed and its lead is taken over exactly when the lead exists and is unassigned or a cold-caller lead; the result is the lead id |
| InterventionRequests.InterventionTable.ResolveIntervention | src/convex/interventionRequests.ts:114-125 | a missing id fails and changes nothing; otherwise only that request is resolved or dismissed |
| InterventionRequests.InterventionTable.MarkFollowUpComplete | src/convex/interventionRequests.ts:157-168 | a missing id fails and changes nothing; otherwise only that request's follow-up is completed |
| Pharmavends.FirstOf | src/convex/pharmavends.ts:61-72 | the first non-empty field among the keys, or the default when all are empty; a non-default result is one of the fields |
| Pharmavends.ArgsOf | src/convex/pharmavends.ts:59-73 | the insert carries the item's query number, a name that falls back to "Unknown" and a subject that falls back to "No Subject" |
| Pharmavends.RowsOf | src/convex/pharmavends.ts:29-35 | one row per feed item, in order, carrying the item's query number and insert arguments |
| Pharmavends.Step | src/convex/pharmavends.ts:37-75 | one item schedules at most as many welcome emails as it creates or reactivates leads |
| Pharmavends.SyncPrefix | src/convex/pharmavends.ts:29-76 | after any number of items, no more welcome emails are scheduled than new leads counted |
| Pharmavends.Skipped | src/convex/pharmavends.ts:37 | the items without a query number number at most the items seen |
| Pharmavends.SyncCounts | src/convex/pharmavends.ts:29-76 | every item is exactly one of skipped, new (created or reactivated) or duplicate, and the leads table never shrinks |
| Pharmavends.StepCounts | src/convex/pharmavends.ts:37-75 | one item adds one to exactly one counter unless it has no query number |
| Pharmavends.StepKeepsCovered | src/convex/pharmavends.ts:44-75 | a query number that already has a live lead keeps it after any further item |
| Pharmavends.StepCovers | src/convex/pharmavends.ts:44-75 | after an item with a query number, that number has a lead that is not marked irrelevant |
| Pharmavends.RowsOfWellFormed | src/convex/pharmavends.ts:35-60 | the insert of each row carries that row's own query number |
| Pharmavends.SyncCoversFeed | src/convex/pharmavends.ts:29-76 | after a sync every query number of the feed has a live lead |
| Pharmavends.CoveredFeedIsIdle | src/convex/pharmavends.ts:29-76 | a feed whose query numbers all have live leads changes nothing: no creates, no reactivations, no emails, every numbered item a duplicate |
| Pharmavends.StepIdle | src/convex/pharmavends.ts:44-55 | an item whose query number has a live lead only counts a duplicate |
| Pharmavends.ResyncIsIdle | src/convex/pharmavends.ts:5-95 | running the same feed twice: the second run creates and reactivates nothing and counts every numbered item as a duplicate |
| Pharmavends.SyncItem | src/convex/pharmavends.ts:35-75 | one loop iteration: skip, reactivate an irrelevant lead, count a duplicate, or create; its effect is the specification step |
| Pharmavends.SyncItems | src/convex/pharmavends.ts:25-76 | the loop's tables, counters and scheduled emails are those of the specification run over the whole feed |
| Pharmavends.FetchPharmavendsLeads | src/convex/pharmavends.ts:5-95 | "API returned <status>" on a non-OK response, "Invalid API response" on a non-array body, the thrown message on a failed fetch, each without touching the tables; otherwise the counters of the full run and the feed length as total |
| PharmavendsMutations.FindByUid | src/convex/pharmavendsMutations.ts:5-20 | the first lead carrying the uid, or none exactly when no lead carries it |
| PharmavendsMutations.FindByUidAppend | src/convex/pharmavendsMutations.ts:5-20 | appending a lead never changes which lead an existing uid finds |
| PharmavendsMutations.FindByUidUpdate | src/convex/pharmavendsMutations.ts:22-33 | patching a lead without touching its uid never changes a lookup |
| PharmavendsMutations.Reactivate | src/convex/pharmavendsMutations.ts:25-31 | type "To be Decided", status "Cold", unassigned, admin assignment required, last activity now; every other field kept |
| PharmavendsMutations.NewLead | src/convex/pharmavendsMutations.ts:51-82 | source "Website and Pharmavends", status Cold, type To be Decided, the uid, name, subject and email given, unassigned, last activity now; the search text contains every given field and is empty only when they all are |
| PharmavendsMutations.ReactivateLead | src/convex/pharmavendsMutations.ts:22-33 | only the given lead changes, to its reactivated form |
| PharmavendsMutations.CreatePharmavendsLead | src/convex/pharmavendsMutations.ts:35-99 | appends exactly the new lead and returns its id; a welcome email is scheduled exactly when an email is given, to that address |
| Tags.TagsByIds | src/convex/tags.ts:33-43 | at most one tag per id, every one from the table, exactly one per id when all ids exist |
| Tags.TagsByIdsExact | src/convex/tags.ts:37-40 | when every id exists, the k-th result is the tag of the k-th id |
| Tags.TagsByIdsSkipsMissing | src/convex/tags.ts:38-39 | an id without a tag is dropped and changes nothing else |
| Tags.TagTable.CreateTag | src/convex/tags.ts:10-31 | "Tag name already exists" when the name is taken, else "Tag color already exists" when the colour is; succeeds exactly when both are free, then appends exactly one tag and returns its id; a failure changes nothing; distinct names and colours stay distinct |
| Tags.TagTable.GetTagsByIds | src/convex/tags.ts:33-43 | the loop returns the specification lookup of the ids |
| WhatsAppTemplatesMutations.FindTemplate | src/convex/whatsappTemplatesMutations.ts:25-29 | the first row with this name and language, or none exactly when no row has them |
| WhatsAppTemplatesMutations.Upsert | src/convex/whatsappTemplatesMutations.ts:23-53 | the returned row holds the new values; the table grows by one exactly when the key was absent; no name or language changes; every other row is kept; unique keys stay unique; the key now finds the returned row |
| WhatsAppTemplatesMutations.UpsertTwice | src/convex/whatsappTemplatesMutations.ts:25-40 | a second sync of the same template refreshes the row the first one wrote and adds none |
| WhatsAppTemplatesMutations.UpsertKeepsOtherKeys | src/convex/whatsappTemplatesMutations.ts:25-52 | a template with another key is found where it was and is not changed |
| WhatsAppTemplatesMutations.FirstKeyUnchanged | src/convex/whatsappTemplatesMutations.ts:25-29 | the first row with a key stays first when only later rows or rows with other keys change |
| WhatsAppTemplatesMutations.TemplateTable.UpsertTemplate | src/convex/whatsappTemplatesMutations.ts:4-54 | the table and returned id are those of the specification upsert |
| RangePdfs.CategoryOrDefault | src/convex/rangePdfs.ts:15 | the category when one is given and non-empty, otherwise "DIVISION"; never empty |
| RangePdfs.Updated | src/convex/rangePdfs.ts:69-78 | the new name, the given division (absent when not given), the category or "DIVISION", and the new file only when one is given |
| RangePdfs.RangePdfStore.CreateRangePdf | src/convex/rangePdfs.ts:4-20 | adds exactly one row under a fresh id with the category defaulted; storage is untouched |
| RangePdfs.RangePdfStore.DeleteRangePdf | src/convex/rangePdfs.ts:37-48 | "Range PDF not found" exactly when the id is missing, changing nothing; otherwise the row and its stored file are both removed |
| RangePdfs.RangePdfStore.UpdateRangePdf | src/convex/rangePdfs.ts:57-82 | "Range PDF not found" exactly when the id is missing; otherwise only that row is patched; storage is never touched, so a replaced file stays stored |
| ActivityLogs.ActivityLog.LogActivity | src/convex/activityLogs.ts:21-43 | appends exactly one entry stamped with `now`; the table stays in time order while the clock does not go back |
| ActivityLogs.ActivityLog.CreateLog | src/convex/activityLogs.ts:46-72 | "User not found" exactly when the user is missing, changing nothing; otherwise one entry without an IP address is appended |
| ActivityLogs.IndexScan | src/convex/activityLogs.ts:94-121 | exactly the rows the chosen index (category, else user, else lead, else all) matches, newest first |
| ActivityLogs.Take | src/convex/activityLogs.ts:100 | a prefix of at most `n` entries, all of them when there are fewer |
| ActivityLogs.DateFilter | src/convex/activityLogs.ts:124-130 | exactly the entries inside the bounds that are set (0 counts as unset) |
| ActivityLogs.DateFilterDecreasing | src/convex/activityLogs.ts:124-130 | the date filter keeps the newest-first order |
| ActivityLogs.DateFilterBelow | src/convex/activityLogs.ts:124-130 | an upper bound on positions survives the filter, with the order |
| ActivityLogs.PrependDecreasing | src/convex/activityLogs.ts:125-129 | putting a larger position in front of a newest-first list keeps it newest first |
| ActivityLogs.UserName | src/convex/activityLogs.ts:135-140 | never empty; for a found user its name, else its email, else "System"; "System" when the entry has no user or the user is missing |
| ActivityLogs.LeadName | src/convex/activityLogs.ts:136-141 | the lead's name when the entry names a lead that exists and has a non-empty name; no name otherwise |
| ActivityLogs.Selected | src/convex/activityLogs.ts:93-130 | at most `limit` (default 100) entries, each matched by the index and inside the bounds, newest first |
| ActivityLogs.GetLogs | src/convex/activityLogs.ts:75-148 | "Admin access required" exactly when the caller is not an admin; otherwise the selected entries in order, each with its user's name and its lead's name |
| ActivityLogs.Views | src/convex/activityLogs.ts:133-144 | one view per kept entry, in order, with the entry, its user's name and its lead's name |
| ActivityLogs.LimitBeforeDateFilter | src/convex/activityLogs.ts:100-130 | the limit is taken before the date filter: an entry cut by the limit is not returned even inside the date range |
| ActivityLogs.NoDateBoundKeepsAll | src/convex/activityLogs.ts:124 | without a date bound the filter keeps every entry |
| ActivityLogs.InRange | src/convex/activityLogs.ts:164-171 | exactly the table's entries inside the bounds |
| ActivityLogs.Count | src/convex/activityLogs.ts:176 | at most the number of entries, and 0 for a category no entry has |
| ActivityLogs.CountsOfStep | src/convex/activityLogs.ts:175-177 | one step of the `forEach` keeps the dictionary exact for the entries seen |
| ActivityLogs.CountsOfSnoc | src/convex/activityLogs.ts:176 | adding one to an entry's category keeps the dictionary exact after that entry |
| ActivityLogs.SumCountsSnoc | src/convex/activityLogs.ts:175-177 | one more entry adds one to the sum for each time its category is listed |
| ActivityLogs.OccursOnce | src/convex/activityLogs.ts:174 | a category listed once among distinct keys occurs once |
| ActivityLogs.OccursNot | src/convex/activityLogs.ts:174 | an unlisted category occurs zero times |
| ActivityLogs.CountsAddUp | src/convex/activityLogs.ts:179-182 | listing every category once, the counts add up to the number of entries |
| ActivityLogs.SumCountsEmpty | src/convex/activityLogs.ts:174 | no entries sum to zero |
| ActivityLogs.GetLogStats | src/convex/activityLogs.ts:151-184 | "Admin access required" exactly when the caller is not an admin; otherwise the number of entries in range and an exact per-category count of them |
| ActivityLogs.CountByCategory | src/convex/activityLogs.ts:174-177 | one key per category that occurs, mapped to its number of entries |
| ActivityLogs.StatsBalance | src/convex/activityLogs.ts:179-182 | the per-category counts add up to the total, and each is that category's count |
| CampaignUtils.DefaultBlockData | src/lib/campaign-utils.ts:1-22 | an empty object exactly for an unknown type; a wait lasts one hour; both kinds of condition start with empty true and false paths; an A/B test splits 50/50; tag blocks start with an empty tag id; every list starts empty |
| CampaignExecutor.OrElse | src/convex/campaignExecutor.ts:141-143 | `a || b` on strings: the first unless it is empty; non-empty when either is |
| CampaignExecutor.FindBlock | src/convex/campaignExecutor.ts:43 | a block of the campaign with that id, or none exactly when no block has it |
| CampaignExecutor.WaitDelayCases | src/convex/campaignExecutor.ts:180-189 | no delay before a block that is not a wait, nor for an unknown unit; never negative for a non-negative duration |
| CampaignExecutor.DefaultWaitIsOneHour | src/convex/campaignExecutor.ts:183-187 | a wait without duration or unit waits one hour |
| CampaignExecutor.WaitDelayScales | src/convex/campaignExecutor.ts:186-188 | the delay is proportional to the duration |
| CampaignExecutor.Outgoing | src/convex/campaignExecutor.ts:174 | exactly the connections leaving the block |
| CampaignExecutor.ScheduleFor | src/convex/campaignExecutor.ts:176-202 | at most one execution per connection, each of an existing block for the same enrolment after its wait delay |
| CampaignExecutor.ScheduleForSound | src/convex/campaignExecutor.ts:176-201 | every scheduled block is the target of one of the connections |
| CampaignExecutor.ScheduleForComplete | src/convex/campaignExecutor.ts:176-201 | every connection whose target exists has its target scheduled |
| CampaignExecutor.ScheduleForSnoc | src/convex/campaignExecutor.ts:176-202 | one more connection adds exactly its own scheduling at the end |
| CampaignExecutor.NextBlocksFollowConnections | src/convex/campaignExecutor.ts:170-203 | everything scheduled follows a connection from the finished block to an existing block, for the same enrolment, after its delay; and every such connection is followed |
| CampaignExecutor.LastBlockSchedulesNothing | src/convex/campaignExecutor.ts:174-176 | a block without outgoing connections schedules nothing |
| CampaignExecutor.WhatsAppBlockAsWritten | src/convex/campaignExecutor.ts:87-123 | as written the block makes no call and returns a failure: reading `ctx.db` in an action throws, and the `catch` answers `success: false` |
| CampaignExecutor.WhatsAppBlock | src/convex/campaignExecutor.ts:93-118 | as intended: the template is scheduled to the execution's lead exactly when it exists, and the block succeeds exactly then |
| CampaignExecutor.WhatsAppBlockNeverSends | src/convex/campaignExecutor.ts:87-123 | for a template that exists, the block as written sends nothing and fails, while the intended block sends it and succeeds |
| CampaignExecutor.EmailBlock | src/convex/campaignExecutor.ts:125-152 | "Lead not found or missing email address" and no send exactly when the lead is missing or has no email; otherwise one email to the lead's address with non-empty name, subject and body, failing exactly when the send fails, with the "Failed to send email: " prefix |
| CampaignExecutor.TagBlock | src/convex/campaignExecutor.ts:154-168 | one tag mutation; the block fails exactly when it throws, otherwise answers its success message |
| CampaignExecutor.RunBlock | src/convex/campaignExecutor.ts:53-65 | a block only sends or changes tags; an unknown type does nothing and returns null; a wait completes at once; `send_whatsapp` runs the block as written (never a template send) or, in the corrected variant, the intended block |
| CampaignExecutor.ProcessAllSnoc | src/convex/campaignExecutor.ts:21-83 | the loop over one more execution appends exactly that execution's turn |
| CampaignExecutor.MissingCampaignOrBlockFails | src/convex/campaignExecutor.ts:35-50 | a missing campaign or block marks the execution executing, then failed with "Campaign not found" or "Block not found", and schedules nothing |
| CampaignExecutor.ThrowingBlockStopsTheChain | src/convex/campaignExecutor.ts:76-82 | a block that throws ends with the execution failed with its message, and nothing is scheduled |
| CampaignExecutor.UnknownBlockCompletes | src/convex/campaignExecutor.ts:53-74 | a block of an unknown type completes with a null result and its successors are scheduled |
| CampaignExecutor.ConcludeCompleted | src/convex/campaignExecutor.ts:67-74 | a block that completed without calls is marked completed and followed by the next blocks |
| CampaignExecutor.ProcessOneFound | src/convex/campaignExecutor.ts:22-74 | with campaign and block found, the turn is "executing", the block's run, then its conclusion |
| CampaignExecutor.EndsOfAppend | src/convex/campaignExecutor.ts:21-83 | the executions ended by two runs of effects add up |
| CampaignExecutor.EndsOfNone | src/convex/campaignExecutor.ts:21-83 | effects that end nothing count zero |
| CampaignExecutor.EndsOfOne | src/convex/campaignExecutor.ts:67-81 | one effect ends an execution at most once |
| CampaignExecutor.ConcludeEnds | src/convex/campaignExecutor.ts:67-82 | after the block ran, no effect ends another execution; its own is ended once, or twice (completed, then failed) when a scheduling call throws after the completion |
| CampaignExecutor.AfterCompletionEnds | src/convex/campaignExecutor.ts:71-82 | what follows the completion ends the execution a second time exactly when one of its scheduling calls throws |
| CampaignExecutor.AfterCompletionKinds | src/convex/campaignExecutor.ts:71-82 | after the completion there are only scheduling calls and at most the failure of this execution |
| CampaignExecutor.TurnEnds | src/convex/campaignExecutor.ts:22-82 | each turn ends no other execution, and its own once, as completed or failed, or twice when scheduling throws after the completion |
| CampaignExecutor.EveryExecutionEnds | src/convex/campaignExecutor.ts:21-83 | the loop goes on past every failure: with distinct ids, each due execution is ended once, or twice when scheduling throws after its completion |
| CampaignExecutor.EveryExecutionEndsOnce | src/convex/campaignExecutor.ts:21-83 | with distinct ids, a due execution none of whose scheduling calls throws is ended exactly once |
| CampaignExecutor.EndsNotYet | src/convex/campaignExecutor.ts:21-83 | an execution that is not due is never ended |
| CampaignExecutor.PersonalizeWithoutPlaceholders | src/convex/campaignExecutor.ts:102-105 | a message without placeholders is left as it is |
| CampaignExecutor.PersonalizeLiteral | src/convex/campaignExecutor.ts:102-105 | with values free of `$`, `Personalize` replaces every occurrence of each placeholder by its value, name first, then company, then subject |
| CampaignExecutor.ScheduleOne | src/convex/campaignExecutor.ts:177-200 | one connection schedules exactly one execution when its target block exists, none otherwise |
| CampaignExecutor.NextBlocks | src/convex/campaignExecutor.ts:170-203 | at most one execution per connection leaving the block |
| CampaignExecutor.ScheduleOneScheduledAfter | src/convex/campaignExecutor.ts:177-200 | what one connection schedules is for the same enrolment and lead, of an existing block, after that block's delay |
| CampaignExecutor.ScheduleForScheduledAfter | src/convex/campaignExecutor.ts:176-202 | everything scheduled for a list of connections is for the same enrolment and lead, of an existing block, after its delay |
| CampaignExecutor.ScheduleForPrefix | src/convex/campaignExecutor.ts:176-202 | the calls for the first connections are a prefix of those for all of them |
| CampaignExecutor.ThrowPoint | src/convex/campaignExecutor.ts:176-202 | when the k-th connection's target exists, what the connections before it schedule is a proper prefix of what all of them schedule, so a throw at that connection's call leaves exactly those calls |
| CampaignExecutor.ProcessOne | src/convex/campaignExecutor.ts:22-82 | a turn starts by marking its execution executing and always makes at least one more call |
| CampaignExecutor.Conclude | src/convex/campaignExecutor.ts:67-82 | the block's own calls come first, then one call that ends this execution: a failure exactly when the block threw |
| CampaignExecutor.ProcessAll | src/convex/campaignExecutor.ts:21-83 | the run makes at least two calls per due execution: none is skipped |
| CampaignExecutor.TurnAsWrittenSendsNoTemplate | src/convex/campaignExecutor.ts:87-123 | as written, a turn never sends a WhatsApp template |
| CampaignExecutor.AsWrittenNeverSendsTemplates | src/convex/campaignExecutor.ts:21-123 | as written, the whole run never sends a WhatsApp template, whatever the campaigns hold |
| CampaignExecutor.SendsNoTemplateAppend | src/convex/campaignExecutor.ts:21-83 | two runs of calls that send no template together send none |
| CampaignExecutor.ExecutorLog.ScheduleNextBlocks | src/convex/campaignExecutor.ts:170-203 | the loop makes exactly the calls of the specification `NextBlocks` |
| CampaignExecutor.ExecutorLog.ScheduleConnection | src/convex/campaignExecutor.ts:177-201 | one connection makes exactly its specified scheduling call, if any |
| CampaignExecutor.ExecutorLog.ScheduleEach | src/convex/campaignExecutor.ts:176-202 | the loop over the connections makes the specified calls, and when the call counted `failAt` throws, exactly the calls before it |
| CampaignExecutor.ExecutorLog.RunAndConclude | src/convex/campaignExecutor.ts:53-82 | running the found block and recording its end makes exactly the calls of `Conclude` |
| CampaignExecutor.ExecutorLog.Complete | src/convex/campaignExecutor.ts:67-82 | marking the execution completed and scheduling its next blocks makes exactly that mark and then the calls of `AfterCompletion` |
| CampaignExecutor.ExecutorLog.ProcessExecution | src/convex/campaignExecutor.ts:22-82 | one turn, its `catch` included, makes exactly the calls of the specification turn |
| CampaignExecutor.ExecutorLog.ProcessCampaignExecutions | src/convex/campaignExecutor.ts:8-85 | the whole loop makes exactly the calls of the specification run over the due executions |
| CampaignBuilder.BlockIdAt | src/components/CampaignBuilder.tsx:52 | the id is "block_" followed by the time |
| CampaignBuilder.AddBlock | src/components/CampaignBuilder.tsx:50-60 | exactly one block is appended, of the type, with its default data and the time's id, and it is selected; connections are kept; the block menu closes |
| CampaignBuilder.AddBlockKeepsLayout | src/components/CampaignBuilder.tsx:55 | the column layout (x = 100, y = 100 + 150 per block) is kept, so blocks never overlap |
| CampaignBuilder.AddedWaitBlockWaitsOneHour | src/components/CampaignBuilder.tsx:50-60 | a wait block added by the editor waits one hour once the executor runs it |
| CampaignBuilder.ToExecutorBlock | src/components/CampaignBuilder.tsx:102 | the executor reads the block's own id and type |
| CampaignBuilder.UpdateBlockData | src/components/CampaignBuilder.tsx:62-64 | a block with that id keeps everything but its data, which gains every given field with its given value and keeps every other field it had; every other block is kept as it was |
| CampaignBuilder.UpdatesCompose | src/components/CampaignBuilder.tsx:62-64 | two updates of one block are one update with both sets of fields, the later winning |
| CampaignBuilder.MergeAssoc | src/components/CampaignBuilder.tsx:63 | merging objects field by field is associative |
| CampaignBuilder.UpdateMissingBlock | src/components/CampaignBuilder.tsx:63 | updating a block that is not there changes nothing |
| CampaignBuilder.WithoutBlock | src/components/CampaignBuilder.tsx:67 | exactly the blocks with another id |
| CampaignBuilder.WithoutConnections | src/components/CampaignBuilder.tsx:68 | exactly the connections that neither start nor end at the block |
| CampaignBuilder.WithoutAbsentBlock | src/components/CampaignBuilder.tsx:67 | removing an id no block has keeps the list |
| CampaignBuilder.WithoutBlockAppend | src/components/CampaignBuilder.tsx:67 | the filter works block by block |
| CampaignBuilder.WithoutUnusedConnections | src/components/CampaignBuilder.tsx:68 | removing a block no connection touches keeps the connections |
| CampaignBuilder.RemoveBlock | src/components/CampaignBuilder.tsx:66-70 | the block goes, every connection to or from it goes, everything else stays, and the selection is cleared exactly when it was that block |
| CampaignBuilder.RemoveUndoesAdd | src/components/CampaignBuilder.tsx:50-70 | removing a block just added gives back the blocks and connections from before, when its id was not in use |
| CampaignBuilder.NonEmptyList | src/components/CampaignBuilder.tsx:89-91 | a list is sent exactly when it is not empty |
| CampaignBuilder.SelectionOf | src/components/CampaignBuilder.tsx:87-93 | the selection type and auto-enrol flag as set, and each of tags, statuses and sources exactly when non-empty |
| CampaignBuilder.HandleSave | src/components/CampaignBuilder.tsx:72-122 | refused before any call, with the first failing reason (not signed in, blank name, no blocks), exactly when one of them holds; otherwise an update of the given campaign or a create of a "sequence" with the form's name, description, blocks, connections and selection; on success the message is "Campaign updated" for an update and "Campaign created" for a create; it fails exactly when the mutation throws, showing the Error's message or "Failed to save campaign" |
| CampaignBuilder.SaveAfterAdd | src/components/CampaignBuilder.tsx:72-85 | once a block is added, a signed-in user with a named campaign always reaches the mutation |
| WhatsAppBulk.Outcome | src/convex/whatsappBulk.ts:28-91 | a lead without a mobile number fails with "Lead not found or missing mobile number"; a rejected request fails; the message is stored exactly when the lead has a number, the request is accepted and the store succeeds, and it is stored for that lead, number and text |
| WhatsAppBulk.NoMobileMakesNoRequest | src/convex/whatsappBulk.ts:33-40 | for a lead without a mobile number the outcome is the same whatever the API would answer: no request is made |
| WhatsAppBulk.Run | src/convex/whatsappBulk.ts:19-92 | after n leads, sent plus failed is n; one error per failure and one stored message per send, each traced to its lead's outcome |
| WhatsAppBulk.SentCountsStored | src/convex/whatsappBulk.ts:27-92 | `sent` counts exactly the leads whose message was accepted and stored, and every other lead is a failure: one failure does not stop the rest |
| WhatsAppBulk.SendBulkWhatsAppMessages | src/convex/whatsappBulk.ts:6-96 | throws the "not configured" error, before any lead, exactly when a credential is missing; otherwise the totals, counters, errors and stored messages of the full run, with sent plus failed equal to the total |
| WhatsAppTemplatesActions.RecentLeads | src/convex/whatsappTemplatesActions.ts:12-17 | only leads created at or after 150 hours before now, in table order |
| WhatsAppTemplatesActions.RecentLeadsComplete | src/convex/whatsappTemplatesActions.ts:17 | every lead created inside the window is listed |
| WhatsAppTemplatesActions.WelcomeNumbers | src/convex/whatsappTemplatesActions.ts:36-62 | the mobile and then the alternate mobile, each exactly when it is set |
| WhatsAppTemplatesActions.Welcomes | src/convex/whatsappTemplatesActions.ts:19-64 | every attempted send is counted once, as sent or as an error |
| WhatsAppTemplatesActions.WelcomesUnfold | src/convex/whatsappTemplatesActions.ts:22-64 | one more lead adds exactly that lead's turn |
| WhatsAppTemplatesActions.WelcomeNext | src/convex/whatsappTemplatesActions.ts:29-63 | one lead's turn keeps every attempt counted once |
| WhatsAppTemplatesActions.UnwelcomedAreAttempted | src/convex/whatsappTemplatesActions.ts:22-64 | every listed lead whose chats hold no welcome gets a send to each of its set numbers (the converse of WelcomesSentToUnwelcomed) |
| WhatsAppTemplatesActions.OwedIsAttempted | src/convex/whatsappTemplatesActions.ts:22-64 | the send owed to one set number of one listed lead without the welcome is among the sends of every later point of the loop |
| WhatsAppTemplatesActions.WelcomesStep | src/convex/whatsappTemplatesActions.ts:22-64 | a later lead's turn keeps every send already made |
| WhatsAppTemplatesActions.WelcomesNewest | src/convex/whatsappTemplatesActions.ts:36-62 | a lead without the welcome gets a send to each of its set numbers in its own turn |
| WhatsAppTemplatesActions.WelcomeNextGrows | src/convex/whatsappTemplatesActions.ts:29-62 | one turn appends nothing for a welcomed lead and one send per set number otherwise |
| WhatsAppTemplatesActions.WelcomesSentToUnwelcomed | src/convex/whatsappTemplatesActions.ts:22-64 | every send goes to a set number of a recent lead whose chats held no welcome |
| WhatsAppTemplatesActions.WelcomeNumbersCounted | src/convex/whatsappTemplatesActions.ts:36-62 | the two `if` blocks send to exactly the set numbers, and count each success |
| WhatsAppTemplatesActions.SendsTo | src/convex/whatsappTemplatesActions.ts:39-56 | one send per number, in order |
| WhatsAppTemplatesActions.OkCount | src/convex/whatsappTemplatesActions.ts:43-57 | no more successes than numbers |
| WhatsAppTemplatesActions.WelcomedLeadSkipped | src/convex/whatsappTemplatesActions.ts:29-35 | a lead whose chats already hold the welcome gets no further message |
| WhatsAppTemplatesActions.SendWelcomeToRecentLeads | src/convex/whatsappTemplatesActions.ts:9-73 | success, the number of recent leads, and the sent and error counts of the specification run; sent plus errors is the number of attempts; every recent lead whose chats hold no welcome gets a send to each of its set numbers |
| WhatsAppTemplatesActions.WelcomeEach | src/convex/whatsappTemplatesActions.ts:22-64 | the loop's counters and sends are those of the specification run |
| WhatsAppTemplatesActions.WelcomeIfNew | src/convex/whatsappTemplatesActions.ts:24-63 | the loop body is the specification turn of one lead |
| WhatsAppTemplatesActions.WelcomeLead | src/convex/whatsappTemplatesActions.ts:36-62 | the mobile then the alternate mobile are attempted, each when set, and each counted as sent or error |
| WhatsAppTemplatesActions.SendTemplateToLead | src/convex/whatsappTemplatesActions.ts:75-143 | "WhatsApp API not configured" when a credential is missing, else "Lead or template not found" when either is missing, each before any send; the text sent is the template with the lead's name, company and subject filled in; it succeeds exactly when the API accepts and the store succeeds, and then the stored message is the sent text for that lead and mobile |
| AiBackground.IndexOf | src/convex/aiBackground.ts:10 | the first position at or after `from` where the pattern occurs, or none when it occurs nowhere there |
| AiBackground.ExtractJsonFromMarkdown | src/convex/aiBackground.ts:9-15 | never longer than the text; the whole text when there is no "```json" fence |
| AiBackground.FirstAfterPlain | src/convex/aiBackground.ts:10 | after backtick-free text, a backtick pattern is first found where it starts |
| AiBackground.ExtractFencedBody | src/convex/aiBackground.ts:9-15 | a reply wrapping a backtick-free body in a "```json" fence, after backtick-free text, gives back exactly the body |
| AiBackground.ScoreOf | src/convex/aiBackground.ts:140-146 | a reply whose extracted text does not parse scores 50, "Medium", "Unable to generate AI score" |
| AiBackground.FencedReplyScore | src/convex/aiBackground.ts:140-146 | a fenced reply is scored from its body, or falls back to 50/"Medium" when the body does not parse |
| AiBackground.Batch | src/convex/aiBackground.ts:179-187 | at most `limit` leads from the offset, inside the table; empty exactly at the end of the table or for a zero limit |
| AiBackground.Successes | src/convex/aiBackground.ts:191-199 | no more successes than leads in the batch |
| AiBackground.Failures | src/convex/aiBackground.ts:191-199 | successes and queued failures add up to the batch |
| AiBackground.FailuresFailed | src/convex/aiBackground.ts:194-199 | the retry queue gets exactly the batch's leads whose first attempt failed |
| AiBackground.FirstPass | src/convex/aiBackground.ts:165-215 | the pass reads the stop flag at least once |
| AiBackground.RetryFrom | src/convex/aiBackground.ts:221-252 | the rest of the retry pass counts at most the leads left in the queue |
| AiBackground.Retry | src/convex/aiBackground.ts:218-253 | the retry pass counts at most the queued leads |
| AiBackground.RetryCountsAllIffNoStop | src/convex/aiBackground.ts:221-252 | the retry pass counts every queued lead exactly when no stop is asked for during it |
| AiBackground.RetryFromCountsAll | src/convex/aiBackground.ts:221-252 | the same, from any position of the queue |
| AiBackground.BatchProcess | src/convex/aiBackground.ts:22-263 | the total is processed plus failed; the control record is deleted exactly when the run does not report a stop |
| AiBackground.FirstPassCoversTable | src/convex/aiBackground.ts:165-215 | without a stop, every lead from the offset on is processed or queued for retry, once |
| AiBackground.NoStopCountsEveryLead | src/convex/aiBackground.ts:17-264 | with keys and no stop request, every lead is counted once, as processed or as failed after its retry, and the control record is deleted |
| AiBackground.StopDuringRetryDropsQueued | src/convex/aiBackground.ts:227-262 | a stop during the retry pass ends it early, yet the run reports no stop, deletes the control record, and leaves the leads not yet retried out of every count |
| AiBackground.BatchProcessLeadsBackground | src/convex/aiBackground.ts:17-264 | the result and the deletion of the control record are those of the specification run |
| AiBackground.ProcessAllBatches | src/convex/aiBackground.ts:165-215 | the loop's counters, queue and flag reads are those of the specification first pass |
| AiBackground.BatchRound | src/convex/aiBackground.ts:166-214 | a round that ends the pass gives its result; any other advances the offset and leaves the rest of the pass unchanged |
| AiBackground.FirstPassRound | src/convex/aiBackground.ts:166-214 | a round that neither stops nor finds an empty batch goes on from the next offset with the batch's successes counted and failures queued |
| AiBackground.RetryFailedLeads | src/convex/aiBackground.ts:218-253 | the retry loop's counts are those of the specification retry pass |
| AiBackground.ProcessBatch | src/convex/aiBackground.ts:191-204 | the batch's successes are counted and its failures queued, in order |
| Brevo.StripTags | src/convex/brevo.ts:50 | the regular-expression replace never lengthens the text |
| Brevo.FirstGt | src/convex/brevo.ts:50 | the position of the first `>` |
| Brevo.StripTagsLeavesNoTag | src/convex/brevo.ts:50 | what is left holds no tag: no `<` has a `>` after it |
| Brevo.StripTagsKeepsOnlyItsChars | src/convex/brevo.ts:50 | every character left was in the text |
| Brevo.StripTagsKeepsPlainText | src/convex/brevo.ts:50 | text without tags comes back unchanged |
| Brevo.StripTagsIdempotent | src/convex/brevo.ts:50 | stripping twice strips nothing more |
| Brevo.StripTagsPlainPrefix | src/convex/brevo.ts:50 | text before which there is no `<` is kept as it is |
| Brevo.FirstGtAfter | src/convex/brevo.ts:50 | the first `>` after text without one is the one that follows it |
| Brevo.StripTagsDropsTag | src/convex/brevo.ts:50 | a tag is removed whole |
| Brevo.StripTagsAfterTag | src/convex/brevo.ts:50 | whatever markup comes before a tag, the text after the tag is stripped as if it stood alone, at the end of the result |
| Brevo.TextContent | src/convex/brevo.ts:50 | the given text part when there is one, otherwise a tag-free text no longer than the HTML |
| Brevo.Deliver | src/convex/brevo.ts:29-66 | the request is made; it succeeds exactly when Brevo accepts it; a refusal is thrown as "Email sending failed: Failed to send email: " and the body |
| Brevo.SendEmail | src/convex/brevo.ts:13-68 | "Email service not configured…" and no request exactly when the key is missing; otherwise one request with the given recipient, subject and HTML, the text part, and the fixed sender, succeeding exactly when Brevo accepts it |
| Brevo.HtmlOnlyEmailHasPlainText | src/convex/brevo.ts:50 | an HTML-only email is sent with a tag-free text part no longer than the HTML, equal to it when the HTML has no tags |
| Brevo.SendWelcomeEmail | src/convex/brevo.ts:70-170 | "Email service not configured…" and no request exactly when the key is missing; otherwise the welcome subject to the lead's address and name, with the text part the stripped HTML |
| Brevo.GreetingNamesLead | src/convex/brevo.ts:104 | the greeting is "Dear ", the lead's name and a comma, so the name can be read back from it |
| Brevo.WelcomeHtmlShowsLead | src/convex/brevo.ts:84-152 | the welcome page holds the greeting with the lead's name and the source of the inquiry |
| Brevo.GreetingHasNoLt | src/convex/brevo.ts:104 | a name without `<` gives a greeting without `<` |
| Brevo.WelcomeTextGreetsLead | src/convex/brevo.ts:104-152 | the welcome's text part greets the lead by name, when the name holds no `<` |
| Brevo.GreetingParagraphStripped | src/convex/brevo.ts:50 | after any markup, the greeting paragraph leaves the greeting, then the stripped rest, at the end of the text, when the name holds no `<` |
| Brevo.WelcomeHtmlStripped | src/convex/brevo.ts:84-152 | stripping the welcome page leaves the greeting and the stripped rest |
| PasswordUtils.HexDigit | src/convex/lib/passwordUtils.ts:11 | one lowercase hex digit |
| PasswordUtils.HexValue | src/convex/lib/passwordUtils.ts:11 | a hex digit's value is below 16 |
| PasswordUtils.ByteHex | src/convex/lib/passwordUtils.ts:11 | two lowercase hex digits that read back as the byte |
| PasswordUtils.ToHex | src/convex/lib/passwordUtils.ts:10-12 | two lowercase hex digits per byte |
| PasswordUtils.HexRoundTrip | src/convex/lib/passwordUtils.ts:10-12 | reading the hex back gives the bytes |
| PasswordUtils.HexInjective | src/convex/lib/passwordUtils.ts:10-12 | different bytes give different hex |
| PasswordUtils.HashFormat | src/convex/lib/passwordUtils.ts:7-23 | the stored value is 32 hex digits of salt, a colon, and the 64 hex digits of the digest of the password followed by that salt |
| PasswordUtils.UpToColon | src/convex/lib/passwordUtils.ts:30 | the longest prefix without a colon, followed by a colon or the end |
| PasswordUtils.SplitColon | src/convex/lib/passwordUtils.ts:30 | the first part is the text up to the first colon; the second is missing exactly when there is no colon |
| PasswordUtils.VerifyPassword | src/convex/lib/passwordUtils.ts:28-45 | false without a colon or with an empty salt; true exactly when both parts are non-empty and the hex digest of the password and the salt equals the second part |
| PasswordUtils.UpToColonPrefix | src/convex/lib/passwordUtils.ts:30 | text without a colon is kept whole by the split |
| PasswordUtils.SplitStored | src/convex/lib/passwordUtils.ts:22-30 | "salt:hash" splits back into its two parts |
| PasswordUtils.HexHasNoColon | src/convex/lib/passwordUtils.ts:10-12 | hex never holds a colon |
| PasswordUtils.VerifyHashRoundTrip | src/convex/lib/passwordUtils.ts:7-45 | a password checks against its own hash, for any non-empty salt and digest |
| PasswordUtils.VerifyNeedsSameDigest | src/convex/lib/passwordUtils.ts:28-45 | a password that checks against a hash has the same digest, with that salt, as the hashed one: a wrong password passes only through a SHA-256 collision |
| LeadSelector.WithEmail | src/components/LeadSelector.tsx:31 | exactly the leads with an email |
| LeadSelector.Searched | src/components/LeadSelector.tsx:36-41 | exactly the leads whose name, email, status or source contains the lowered search |
| LeadSelector.FilteredLeads | src/components/LeadSelector.tsx:29-42 | exactly the leads with an email that match the search case-insensitively, all of them for an empty search |
| LeadSelector.SearchIgnoresCase | src/components/LeadSelector.tsx:35-41 | searching in upper case lists the same leads as in any other case |
| LeadSelector.LowerOfUpper | src/components/LeadSelector.tsx:35 | lowering an upper-cased text is lowering the text |
| LeadSelector.Ids | src/components/LeadSelector.tsx:45 | the ids of the listed leads, in order |
| LeadSelector.Without | src/components/LeadSelector.tsx:61 | exactly the other ids; the list itself when the id is absent |
| LeadSelector.Toggle | src/components/LeadSelector.tsx:59-65 | a selected id is removed, every copy of it, and nothing else changes; an unselected id is appended |
| LeadSelector.ToggleTwice | src/components/LeadSelector.tsx:59-65 | toggling twice restores the selected set, and the very list when the lead was not selected |
| LeadSelector.WithoutAppended | src/components/LeadSelector.tsx:61-63 | removing an id just appended gives the list back |
| LeadSelector.WithoutAll | src/components/LeadSelector.tsx:51 | exactly the ids not listed |
| LeadSelector.Dedup | src/components/LeadSelector.tsx:54 | no duplicates and exactly the same ids |
| LeadSelector.WithoutConcat | src/components/LeadSelector.tsx:54 | the filter distributes over concatenation |
| LeadSelector.DedupKeepsPrefix | src/components/LeadSelector.tsx:54 | a duplicate-free selection stays first, in its order, in the union |
| LeadSelector.SelectAll | src/components/LeadSelector.tsx:44-57 | when every listed lead is selected, exactly the listed ids are removed and the others kept; otherwise the duplicate-free union of the selection and the listed ids |
| LeadSelector.SelectAllOfNothing | src/components/LeadSelector.tsx:47-51 | with nothing listed, select-all changes nothing |
| LeadSelector.WithoutNone | src/components/LeadSelector.tsx:51 | removing no ids keeps the list |
| LeadSelector.SelectAllTwice | src/components/LeadSelector.tsx:44-57 | select-all twice, from a partial selection, leaves the earlier selection without the listed leads |
| FollowUpNotifications.WindowOf | src/components/FollowUpNotifications.tsx:46-88 | the window the time lies in, if any: the four windows do not overlap |
| FollowUpNotifications.FirstNew | src/components/FollowUpNotifications.tsx:39-100 | the first lead in list order, with a date, inside a window whose key was not shown, or none when no lead is |
| FollowUpNotifications.CheckRaisesAtMostOneNewKey | src/components/FollowUpNotifications.tsx:39-100 | a check raises at most one key, one not shown before, keeps the shown keys, and puts up that reminder; it changes nothing exactly when no new reminder is due |
| FollowUpNotifications.NewKey | src/components/FollowUpNotifications.tsx:47-97 | the key a check raises is never one already shown |
| FollowUpNotifications.NoReminderTwice | src/components/FollowUpNotifications.tsx:33-110 | however often the follow-ups are checked, no key is raised twice and no key shown before is raised again |
| FollowUpNotifications.FollowUpNotifier.CheckFollowUps | src/components/FollowUpNotifications.tsx:36-101 | the loop's new shown set and reminder are those of the specification check |
| FollowUpNotifications.FollowUpNotifier.Raise | src/components/FollowUpNotifications.tsx:49-55 | the reminder is put up and its key added to the shown set |
| FollowUpNotifications.FollowUpNotifier.HandleClose | src/components/FollowUpNotifications.tsx:112-114 | the reminder is dismissed and the shown keys stay |
| TemplatesDialog.Components | src/components/TemplatesDialog.tsx:55-75 | a HEADER first exactly when the header type is not NONE and the header text is set, carrying text only for TEXT; the BODY always, after any header; a FOOTER last exactly when the footer text is set |
| TemplatesDialog.BuildComponents | src/components/TemplatesDialog.tsx:55-75 | the pushes build exactly the specified components |
| TemplatesDialog.HandleCreate | src/components/TemplatesDialog.tsx:47-99 | refused before any request, form kept, exactly without a name or a body; otherwise the request with the form's name, language, category and components; the form is reset to its defaults only after a successful create |
| TemplatesDialog.RetryAfterFailureSendsSameRequest | src/components/TemplatesDialog.tsx:95-98 | a failed create keeps the form, so sending again makes the same request |
| TemplatesDialog.Substring | src/components/TemplatesDialog.tsx:120 | JavaScript's `substring`: the slice between the two ends when both are in range, in either order; the whole text when the ends cover it; empty when both are past the end; never longer than the text |
| TemplatesDialog.InsertFormattingWraps | src/components/TemplatesDialog.tsx:114-140 | for a selection inside the body, the text outside it is kept and the selection, or the placeholder when nothing is selected, sits between the format's two markers |
| TemplatesDialog.InsertFormattingUndone | src/components/TemplatesDialog.tsx:118-138 | dropping the markers again gives back the body |
| TemplatesDialog.Unwrapped | src/components/TemplatesDialog.tsx:138 | text cut at two points with a marker put in at both loses the marker again by dropping both copies |
| ChatWindow.HandleFileSelect | src/components/whatsapp/ChatWindow.tsx:47-57 | no file changes nothing; a file over 16 MiB is refused with "File size must be less than 16MB" and the earlier choice kept; any other is chosen with "Selected: " and its name |
| ChatWindow.ChosenFileWithinLimit | src/components/whatsapp/ChatWindow.tsx:47-57 | whatever files are offered, the chosen file is never over the limit |
| ChatWindow.HandleSendWhatsApp | src/components/whatsapp/ChatWindow.tsx:59-124 | "Please select a contact" without a contact; with a file, the media path, with a caption exactly when the trimmed text is non-empty; without one, "Please enter a message" for blank text, else the text quoting the message replied to; it succeeds exactly when a call is made and it succeeds, and only then are the fields cleared |
| ChatWindow.BlankTextSendsMediaWithoutCaption | src/components/whatsapp/ChatWindow.tsx:65-85 | a file with blank text goes out without a caption |
| ChatWindow.ChatPane.SelectFile | src/components/whatsapp/ChatWindow.tsx:47-57 | the pane's new state and message are those of the specification `HandleFileSelect` |
| ChatWindow.ChatPane.SendWhatsApp | src/components/whatsapp/ChatWindow.tsx:59-124 | the pane's new state, the call and the message are those of the specification `HandleSendWhatsApp` |
| ChatWindow.SplitSpaces | src/components/whatsapp/ChatWindow.tsx:135 | splitting on spaces gives at least one piece |
| ChatWindow.WordStarts | src/components/whatsapp/ChatWindow.tsx:134-137 | the word starts hold no space and are no more than the characters |
| ChatWindow.GetInitials | src/components/whatsapp/ChatWindow.tsx:133-140 | at most two characters |
| ChatWindow.FirstsAreWordStarts | src/components/whatsapp/ChatWindow.tsx:134-137 | the split-map-join reads the first letter of each word off the name |
| ChatWindow.InitialsAreFirstTwoWordStarts | src/components/whatsapp/ChatWindow.tsx:133-140 | the initials are the first letters of the first two words, upper-cased |
| ChatWindow.InitialsHaveNoSpace | src/components/whatsapp/ChatWindow.tsx:133-140 | the initials hold no space |
| LogsPage.QuoteAll | src/pages/Logs.tsx:85 | every cell is quoted |
| LogsPage.LogCells | src/pages/Logs.tsx:77-84 | six cells; the user is "System" when missing; lead and details are "" when missing |
| LogsPage.LogLines | src/pages/Logs.tsx:76-87 | one line per log, its quoted cells joined by commas |
| LogsPage.ExportLogs | src/pages/Logs.tsx:68-88 | "No logs to export" exactly when there are none |
| LogsPage.ReadQuoted | src/pages/Logs.tsx:85 | reading a quoted field consumes text |
| LogsPage.UpToDelimiter | src/pages/Logs.tsx:85-88 | the text up to the next comma or line break |
| LogsPage.ReadField | src/pages/Logs.tsx:85-86 | reading a field never grows the text |
| LogsPage.ReadRecord | src/pages/Logs.tsx:86-88 | reading a record of a non-empty text consumes text |
| LogsPage.QuotedRoundTrip | src/pages/Logs.tsx:85 | a cell with its quotes doubled, then closed, reads back as the cell (section 2 of RFC 4180) |
| LogsPage.QuotedFieldReads | src/pages/Logs.tsx:85 | a quoted cell reads back as the cell whatever delimiter follows |
| LogsPage.UpToDelimiterOfPlain | src/pages/Logs.tsx:75 | a cell without delimiters is read whole |
| LogsPage.PlainFieldReads | src/pages/Logs.tsx:75 | an unquoted header cell reads back as itself |
| LogsPage.RecordRoundTrip | src/pages/Logs.tsx:86 | fields joined by commas read back as one record of their cells |
| LogsPage.JoinThen | src/pages/Logs.tsx:86 | joining splits at the first comma |
| LogsPage.LastFieldReads | src/pages/Logs.tsx:86-88 | a last field followed by the end of a record reads as a one-cell record |
| LogsPage.FieldThenCommaReads | src/pages/Logs.tsx:86 | a field and a comma read as that cell followed by the rest of the record |
| LogsPage.RecordsRoundTrip | src/pages/Logs.tsx:74-88 | lines joined by line breaks read back as their records |
| LogsPage.ExportRoundTrip | src/pages/Logs.tsx:68-88 | the export reads back, under section 2 of RFC 4180, as the six-column header followed by the six cells of every log, in order |
| LogsPage.FieldsLineReads | src/pages/Logs.tsx:86 | fields that read back as cells make a line that reads back as the cells |
| LogsPage.HeaderLineReads | src/pages/Logs.tsx:75 | the header line reads back as the header |
| LogsPage.LogLineReads | src/pages/Logs.tsx:76-87 | each log's line reads back as its six cells |
| LogsPage.HeaderIsPlain | src/pages/Logs.tsx:75 | the header cells need no quoting |
| LogsPage.CategoryColor | src/pages/Logs.tsx:124-130 | the Login/Logout colour exactly when the category mentions either; the default colour exactly when it mentions none of Login, Logout, Leads, WhatsApp and Email |

## Left out

- HTTP calls (WhatsApp Graph API, Brevo, the Google Script feed, the upload endpoint): each is a parameter giving its reply; URLs, headers and JSON encoding are not modelled.
- Convex internals: query builders, storage, the scheduler and `runQuery`/`runMutation` routing are replaced by tables, maps and recorded calls; a query by index is a scan in table order.
- The clock: `Date.now()` is the parameter `now`. CampaignExecutor.ProcessAll uses one `now` for the whole run, while the source reads the clock once for the due-execution query (src/convex/campaignExecutor.ts:11) and again for each scheduled connection (src/convex/campaignExecutor.ts:199), so executions that fall due during the run, and a scheduled time that moves with elapsed time, are not modelled.
- CampaignExecutor.ProcessOne: `markExecuting`, `markCompleted`, `markFailed` and the queries that load the campaign and lead are taken not to throw. Only the block runner and the scheduling after completion may throw, as `World.scheduleErrors` says. A `markFailed` that threw inside the `catch` would end the whole action, and that is not modelled.
- Timers and sleeps: the 15-second cooldowns of the AI batch, the 100 ms pause of the bulk send, and the 15-second interval that repeats the follow-up check.
- Gemini: generating a summary or a score is the parameter `succeeds(lead, attempt)`. The prompts, the random key choice and `JSON.parse` (a parameter in `ScoreOf`) are not modelled.
- AiBackground.BatchProcessLeadsBackground: the `updateBatchProgressInternal` progress writes are not modelled, only the final result and the deletion of the control record.
- Console logging, toasts as UI effects (their texts are modelled as results) and React rendering.
- Character handling: `trim`, `\s`, `toLowerCase` and `toUpperCase` act on ASCII only; JavaScript's full Unicode tables are not modelled.
- PasswordUtils.HashPassword: SHA-256 over the UTF-8 encoding is a function parameter, and the random salt is a parameter.
- LogsPage.LogCells: the timestamp cell's `toLocaleString()` is the parameter `formatTime`; the Blob download is not modelled.
- TemplatesDialog.InsertFormatting: only the four formats of the buttons are modelled, and the early return when the textarea is missing is left out (DOM lookup).
- ChatWindow.HandleSendWhatsApp: the upload URL, the POST and the storage id are collapsed into one `upload` result. A thrown non-`Error` value's fallback text is folded into the failure message.
- LeadUtils.GenerateSearchText: the contract states containment of every given field and emptiness, not the exact order of the space-joined parts.
- ActivityLogs.GetLogStats / CountByCategory: the count is a map from category to number, while src/convex/activityLogs.ts:174-176 counts into a plain object that inherits from `Object.prototype`. For a category named after an inherited member the source differs. With "__proto__", the read gives the prototype object, the sum is a string, and the prototype setter ignores it, so the category is dropped. With "constructor", "toString", "valueOf", "hasOwnProperty" and the other inherited names, the read gives a function, and the stored value becomes a string such as "function Object() { [native code] }1". ActivityLogs.StatsBalance therefore holds for the source only when no category has such a name.
- ActivityLogs.ActivityLog.LogActivity: the free-form `metadata` field of a log entry is not modelled.
- The storage migration reads a file's bytes from the `files` map, and `getUrl` fails exactly when the id has no file there. The HTTP fetch is the parameter `fetch(k)`, which gives an ok reply or a status text. The upload is `upload(k)`, which gives the new id or `None`. The k-th answers go to the k-th (product, field) attempt. The upload is taken to give a fresh id; `FixStepOutcome` states the kept file only when the new id differs from the old one.
- ProductStorageMetadata.ProductStore.FixFiles: the `catch` that records `error.message` or "Unknown error" is not modelled. It covers a throwing query, storage call or mutation, and those calls are taken to succeed. The summary `message` string is not modelled either; its counts are `fixed` and `|failures|`.

## Findings

| source | as written | input that shows it | evidently intended | confidence | as-written member | corrected member |
|---|---|---|---|---|---|---|
| src/convex/whatsapp/messages.ts:125-149 | the `try` around the send with a cached media id also covers the `storeMessage` call after it, so a failed store after an accepted send drops into the upload-and-send retry | a cache hit whose send is accepted and whose message store fails | the retry runs only when the cached send itself fails, so the media is delivered at most once | not executed | WhatsAppMessages.DoubleDelivery | WhatsAppMessages.SendMediaOnce |
| src/convex/campaignExecutor.ts:87-123 | `executeWhatsAppBlock` is called from an action yet reads `ctx.db`, which actions do not have, so the lookup throws and the `catch` reports a failure every time | any `send_whatsapp` block whose template exists | look up the template and schedule `sendTemplateToLead` for the execution's lead | not executed | CampaignExecutor.WhatsAppBlockNeverSends | CampaignExecutor.WhatsAppBlock |
