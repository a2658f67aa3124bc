# PumpFoilMap moderation core in Dafny

PumpFoilMap is a community map of pump-foil spots: pontoons ("pontons") and
associations. Anyone can submit a spot. It is stored as `pending`, and an
administrator approves, edits or deletes it. Only approved spots are meant for the
public map. This project models the moderation backend and some pure helpers from
the web client:

- **The spot store** (`SpotsRepo`). This is the in-memory path: a class holding an
  ordered sequence of records. Its operations are create (prepend), list
  (`slice(0, limit)`), status update, field merge and delete. The last three address
  the first record whose `spotId` matches. The module also normalises seed records
  with their defaults.
- **The admin gate** (`AdminAuth`). It takes an MD5 digest from a `Bearer`
  authorization header and compares it, ignoring case, with the MD5 of `ADMIN_TOKEN`.
  It fails closed when the token is unset and answers 400 or 401. `AdminCheckMd5` is
  the standalone check of a digest sent in the body or the query.
- **The request handlers**: `SubmitSpot`, `ApproveSpot`, `AdminUpdateSpot`,
  `AdminDeleteSpot`, `AdminListSpots`, `AdminListPending`, `AdminSendMail` and
  `CaptchaVerify`.
  - Each is a pure function giving an `Effect`: the response, the store after the
    request, and the mail handed to the SES wrapper.
  - A handler that changes state is also a method over a `SpotStore` and an
    `Outbox`. The method is proved equal to that function.
  - Mail that is not awaited is only appended to the outbox, so it cannot change a
    response.
- **The web client** (`App`, `MapWeb`):
  - the checks the submission form runs, including the e-mail pattern;
  - the payload built from a form that passed them;
  - the text filter, type partition and pages of twenty in the admin tables;
  - the GeoJSON feature collection the map is given.

JavaScript values are modelled in `Json`:
- A record is a `map<string, Value>`, where an absent key is `undefined`.
- Numbers are `JsNumber`: NaN, a finite real, or ±Infinity.
- The module defines truthiness, `??`, `||`, `String(…)` and template interpolation.
- `JsArray` gives `filter`, `slice` with its argument rules, `Math.min` and a sort
  by an integer key.

These become parameters of the model:
- MD5 (`md5`);
- AES-GCM decryption (`decrypt`; `None` where it throws);
- `Number(string)` (`parse`);
- JavaScript's rendering of a number as text (`numText`);
- `new Date(createdAt).getTime()` (`time`);
- `new URL` validity (`validUrl`);
- the zod schema (`validate`);
- `randomUUID` and the current time;
- the outcome of an awaited `sendEmail` (`deliver`).

Two facts about the code that the model keeps:
- `submitSpot` spreads the schema output after `status: 'pending'`, so a `status`
  in that output wins (`SubmitSpot.SpreadStatusWins`).
- Deleting a spot sends no mail.

## Model

| member | source | states |
|---|---|---|
| JsArray.Filter | backend/src/handlers/adminListSpots.ts:23 | the result holds exactly the elements that pass the predicate, and no more elements than the input |
| JsArray.FilterAppend | backend/src/handlers/adminListSpots.ts:23 | filtering distributes over concatenation, so the kept elements keep their order |
| JsArray.FilterKeepsAll | src/App.tsx:519-526 | a filter that every element passes returns the sequence unchanged |
| JsArray.SliceTo | backend/src/lib/spotsRepo.ts:110 | `slice(0, end)` is a prefix of the input, never longer than it |
| JsArray.SliceToWhole | backend/src/lib/spotsRepo.ts:110 | for a whole number `k ≥ 0`, `slice(0, k)` is the first `min(k, length)` elements |
| JsArray.SliceToNegative | backend/src/handlers/adminListSpots.ts:19-21 | a negative end counts from the back: `slice(0, k)` drops the last `-k` elements |
| JsArray.Min | backend/src/handlers/adminListSpots.ts:19 | `Math.min(n, cap)`: NaN stays NaN, a finite result is at most `cap`, +Infinity becomes `cap` |
| JsArray.SliceToCapped | backend/src/handlers/adminListPending.ts:19-24 | a slice up to a number in `[0, cap]` holds at most `cap` elements |
| JsArray.InsertByKey | backend/src/handlers/adminListPending.ts:23 | inserting into a key-sorted sequence keeps it sorted and adds exactly that element |
| JsArray.SortByKey | backend/src/handlers/adminListPending.ts:23 | the sort's result is in ascending key order and is a permutation of its input |
| Platform.RequestedSize | backend/src/handlers/adminListSpots.ts:19 | `Math.min(Number(size ?? default), cap)`: the default when `size` is absent, never a finite value above `cap` |
| SpotsRepo.IndexOfId | backend/src/lib/spotsRepo.ts:123 | `findIndex`: the first index whose `spotId` matches, and -1 exactly when no record matches |
| SpotsRepo.SpotStore.constructor | backend/src/lib/spotsRepo.ts:79-96 | the store starts holding exactly the records it is given |
| SpotsRepo.SpotStore.Create | backend/src/lib/spotsRepo.ts:113-119 | the new store is `[spot] + old`: it grows by one, no record changes, and no duplicate check is made |
| SpotsRepo.SpotStore.List | backend/src/lib/spotsRepo.ts:106-111 | returns `slice(0, limit)` of the store in store order and changes nothing |
| SpotsRepo.StatusUpdate | backend/src/lib/spotsRepo.ts:121-131 | an absent id gives null and the same store; otherwise only the first match changes, gaining exactly `status`, and the returned record is the stored one |
| SpotsRepo.SpotStore.UpdateStatus | backend/src/lib/spotsRepo.ts:121-131 | the in-place update returns and leaves exactly what `StatusUpdate` describes |
| SpotsRepo.FieldsUpdate | backend/src/lib/spotsRepo.ts:191-201 | an absent id gives null and the same store; otherwise the first match takes the patch values and keeps every other key, and no other record changes |
| SpotsRepo.SpotStore.UpdateFields | backend/src/lib/spotsRepo.ts:191-201 | the in-place merge returns and leaves exactly what `FieldsUpdate` describes |
| SpotsRepo.Removal | backend/src/lib/spotsRepo.ts:238-247 | an absent id gives false and the same store; otherwise exactly the first match is removed and the rest keep their order |
| SpotsRepo.SpotStore.Delete | backend/src/lib/spotsRepo.ts:238-247 | the in-place `splice` returns and leaves exactly what `Removal` describes |
| SpotsRepo.IndexOfIdSameIds | backend/src/lib/spotsRepo.ts:123 | the search depends only on which records carry the id |
| SpotsRepo.StatusUpdateIdempotent | backend/src/lib/spotsRepo.ts:121-131 | setting the same status twice leaves the store as setting it once |
| SpotsRepo.StatusUpdateKeepsUnique | backend/src/lib/spotsRepo.ts:125-126 | a status update keeps the store's ids unique |
| SpotsRepo.FieldsUpdateKeepsUnique | backend/src/lib/spotsRepo.ts:195-196 | a merge whose patch has no `spotId` keeps ids unique |
| SpotsRepo.DeletedIsGone | backend/src/lib/spotsRepo.ts:238-246 | with unique ids, a deleted id can no longer be found, and ids stay unique |
| SpotsRepo.CreateUnique | backend/src/lib/spotsRepo.ts:113-119 | prepending a spot keeps ids unique exactly when its id was not in the store already |
| SpotsRepo.DuplicateSurvivesDelete | backend/src/lib/spotsRepo.ts:240-242 | without unique ids, delete removes only the first of two records sharing an id |
| SpotsRepo.SeedItems | backend/src/lib/spotsRepo.ts:37 | the seed items are the array itself, else its `points` array |
| SpotsRepo.SeedKeysDisjoint | backend/src/lib/spotsRepo.ts:64-70 | the parts spread into a seed spot have disjoint keys, and none of them holds `website` |
| SpotsRepo.SeedHeader | backend/src/lib/spotsRepo.ts:65-67 | the header holds exactly `spotId`, `createdAt` and `status` |
| SpotsRepo.SeedCommon | backend/src/lib/spotsRepo.ts:41-49 | name, lat, lng and submitter are always present, and no key outside the common fields appears |
| SpotsRepo.SeedSpecifics | backend/src/lib/spotsRepo.ts:50-63 | a non-association gets exactly the ponton keys; an association gets its type and at most a url |
| SpotsRepo.NormaliseSeed | backend/src/lib/spotsRepo.ts:64-70 | a normalised seed always has the header keys, a name, coordinates, a submitter and a type, no key outside the four parts, and never `website` |
| SpotsRepo.NormalisedField | backend/src/lib/spotsRepo.ts:64-70 | each field of a normalised seed is the field of the one part that has it |
| SpotsRepo.HeaderValues | backend/src/lib/spotsRepo.ts:65-67 | a falsy status, id or creation date is replaced by `approved`, the fresh id or now |
| SpotsRepo.CommonName | backend/src/lib/spotsRepo.ts:42 | the name is `name`, else `title`, else `Spot`, each skipped only when null or undefined |
| SpotsRepo.CommonSubmitter | backend/src/lib/spotsRepo.ts:46 | the submitter is `submittedBy ?? 'seed'` |
| SpotsRepo.PontonValues | backend/src/lib/spotsRepo.ts:51-58 | ponton defaults: height 100, length 1, access `autorise`, empty address |
| SpotsRepo.AssociationValues | backend/src/lib/spotsRepo.ts:59-63 | an association has a url exactly when `url` or `website` is truthy |
| SpotsRepo.SeedKind | backend/src/lib/spotsRepo.ts:40 | a seed is an association exactly when its type says so; otherwise it is a ponton |
| SpotsRepo.SeedHeaderDefaults | backend/src/lib/spotsRepo.ts:65-67 | in the normalised spot, status defaults to `approved`, and a falsy id or date is replaced |
| SpotsRepo.SeedNames | backend/src/lib/spotsRepo.ts:42-46 | in the normalised spot, the name falls back from `name` to `title` to `Spot`, and the submitter to `seed` |
| SpotsRepo.PontonDefaults | backend/src/lib/spotsRepo.ts:51-58 | a normalised ponton carries the four ponton fields with their defaults, and no url |
| SpotsRepo.AssociationFields | backend/src/lib/spotsRepo.ts:59-70 | a normalised association has none of the ponton fields |
| SpotsRepo.AssociationUrl | backend/src/lib/spotsRepo.ts:61-62 | an association's url comes from `url` or `website`, and `website` itself is dropped |
| SpotsRepo.LoadSeeds | backend/src/lib/spotsRepo.ts:32-77 | one normalised spot per item, in order; a missing file, bad JSON or a null item gives no seeds |
| AdminAuth.AuthorizationHeader | backend/src/lib/adminAuth.ts:17 | a non-empty `authorization` header wins; otherwise `Authorization`, if any |
| AdminAuth.IsAdminMd5Valid | backend/src/lib/adminAuth.ts:8-14 | valid only for a non-empty input with `ADMIN_TOKEN` set, and then exactly when it lower-cases to the lower-cased MD5 of the token |
| AdminAuth.GetHeaderMd5 | backend/src/lib/adminAuth.ts:16-22 | a digest is extracted exactly when the header starts with `bearer ` in any letter case, and it is the trimmed rest |
| AdminAuth.BearerFallbackSubsumed | backend/src/lib/adminAuth.ts:20 | the case-sensitive `Bearer ` fallback is already accepted by the lower-cased test |
| AdminAuth.FailsClosed | backend/src/lib/adminAuth.ts:8-11 | with `ADMIN_TOKEN` unset no input is valid, whatever MD5 gives |
| AdminAuth.ValidityIgnoresCase | backend/src/lib/adminAuth.ts:13 | an input is valid exactly when its lower case is |
| AdminAuth.TokenDigestIsValid | backend/src/lib/adminAuth.ts:12-13 | the token's own digest is valid in any letter case |
| AdminAuth.AuthorizeAdmin | backend/src/lib/adminAuth.ts:28-33 | 400 exactly when no digest, or an empty one, was extracted; 401 exactly when a non-empty digest is invalid; authorized, with the extracted digest, exactly when it is valid |
| AdminAuth.NoTokenNoAdmin | backend/src/lib/adminAuth.ts:28-33 | with no token the gate never authorizes |
| AdminAuth.WrongDigestIs401 | backend/src/lib/adminAuth.ts:31 | a well-formed header with a wrong digest gets 401 |
| AdminAuth.TokenDigestHeaderAuthorizes | backend/src/lib/adminAuth.ts:28-33 | `bearer <md5(token)>`, with the prefix in any case, is authorized with that digest |
| AdminAuth.CorrectHeaderShape | backend/src/lib/adminAuth.ts:19-21 | a bearer header whose digest has no surrounding white space yields exactly that digest |
| AdminAuth.Rejection | backend/src/handlers/approveSpot.ts:17-19 | a refusal carries its code, with `Missing md5` for 400 and `Unauthorized` otherwise |
| AdminAuth.Gate | backend/src/handlers/approveSpot.ts:16-19 | the guard lets a request through exactly when its extracted digest is valid, and otherwise answers 400 or 401 |
| Text.Filled | backend/src/handlers/approveSpot.ts:20-23 | a string counts only when it is present and non-empty (truthy); the same test drops empty form inputs in the client |
| AdminCheckMd5.InputMd5 | backend/src/handlers/adminCheckMd5.ts:21-25 | a non-empty string `md5` in a truthy body wins; else a non-empty query `md5`; else none |
| AdminCheckMd5.Handler | backend/src/handlers/adminCheckMd5.ts:17-43 | bad JSON gives 500; no digest gives 400 `Missing md5`; otherwise 200 with `match`, false with a message when the token is unset |
| AdminCheckMd5.MatchAgreesWithGate | backend/src/handlers/adminCheckMd5.ts:34-39 | the reported `match` is the admin gate's own verdict on that digest |
| AdminCheckMd5.BodyTakesPrecedence | backend/src/handlers/adminCheckMd5.ts:23 | a non-empty string in the body wins over the query |
| AdminCheckMd5.NonStringBodyFallsThrough | backend/src/handlers/adminCheckMd5.ts:23-24 | a body `md5` that is not a non-empty string falls through to the query |
| AdminCheckMd5.MissingBeforeToken | backend/src/handlers/adminCheckMd5.ts:31-36 | a missing digest is reported even when no token is set |
| AdminCheckMd5.TokenDigestMatches | backend/src/handlers/adminCheckMd5.ts:38-39 | the token's digest, in either case, gives 200 with `match: true` |
| CaptchaVerify.Answer | backend/src/handlers/captchaVerify.ts:16 | the answer is read trimmed |
| CaptchaVerify.Secret | backend/src/handlers/captchaVerify.ts:15 | a string secret is read verbatim; a missing or null one reads as the empty string |
| CaptchaVerify.Verdict | backend/src/handlers/captchaVerify.ts:15-40 | only 200 or 400; 200 only when the secret decrypts, with `ok` the comparison after trimming and lower-casing |
| CaptchaVerify.Handler | backend/src/handlers/captchaVerify.ts:13-53 | bad JSON or a null body gives 500 with `ok: false`; 200 only for a decryptable secret, with `ok` the normalised comparison; a pure function, so repeated checks are independent |
| CaptchaVerify.NoBodyIsMissing | backend/src/handlers/captchaVerify.ts:14-19 | no body is a 400 `Missing secret or answer`, not an error |
| CaptchaVerify.MissingInputNeverDecrypts | backend/src/handlers/captchaVerify.ts:17-19 | an empty secret or blank answer gives 400 whatever `decrypt` would do |
| CaptchaVerify.UndecryptableIsInvalid | backend/src/handlers/captchaVerify.ts:21-37 | a secret that does not decrypt gets 400 `Invalid secret` and nothing else |
| CaptchaVerify.OkIff | backend/src/handlers/captchaVerify.ts:39-40 | the answer is 200 either way, and `ok` holds exactly when the normalised texts are equal |
| CaptchaVerify.CorrectAnswerAccepted | backend/src/handlers/captchaVerify.ts:15-40 | retyping the decrypted text, in another case and with stray spaces, gives `ok: true` |
| CaptchaVerify.ReadsBothFields | backend/src/handlers/captchaVerify.ts:15-16 | string fields are read as they are: the secret verbatim, the answer trimmed |
| SubmitSpot.NewSpot | backend/src/handlers/submitSpot.ts:27-33 | the new spot has the schema's fields, plus the fresh id, now and `pending` wherever the schema output lacks them |
| SubmitSpot.Receipt | backend/src/handlers/submitSpot.ts:58-67 | the receipt is exactly the spot's `spotId`, `status` and `createdAt` |
| SubmitSpot.AdminNotice | backend/src/handlers/submitSpot.ts:40-44 | the administrator's mail goes to the address it is given (the trimmed `ADMIN_MAIL`), with no explicit source, and its text names the spot's id |
| SubmitSpot.AuthorNotice | backend/src/handlers/submitSpot.ts:48-52 | the author's mail goes to `contactEmail`, and its text names the spot's id |
| SubmitSpot.Notices | backend/src/handlers/submitSpot.ts:38-56 | admin mail exactly when the trimmed `ADMIN_MAIL` is non-empty; author mail, second, exactly when it also has a truthy `contactEmail` |
| SubmitSpot.Submission | backend/src/handlers/submitSpot.ts:16-71 | bad JSON gives 500 and a rejected payload 400 with the issues, both with nothing stored or sent; otherwise the spot is prepended, notified and answered with 202 |
| SubmitSpot.Submit | backend/src/handlers/submitSpot.ts:13-72 | its response, new store and new outbox are exactly what `Submission` gives |
| SubmitSpot.Notify | backend/src/handlers/submitSpot.ts:38-56 | the outbox grows by exactly `Notices` |
| SubmitSpot.ResponseIgnoresMail | backend/src/handlers/submitSpot.ts:43-56 | the response and the store do not depend on the mail configuration |
| SubmitSpot.ReceiptDescribesStoredSpot | backend/src/handlers/submitSpot.ts:58-67 | a 202 answer reports the stored spot's own id, status and date, and the old records follow it |
| SubmitSpot.FreshPendingSpot | backend/src/handlers/submitSpot.ts:27-35 | without schema overrides, the spot is pending, dated now and carries the fresh id, and a fresh id keeps ids unique |
| SubmitSpot.SpreadStatusWins | backend/src/handlers/submitSpot.ts:31-32 | a `status` in the schema output overrides `pending` |
| SubmitSpot.AuthorMailNeedsAdminMail | backend/src/handlers/submitSpot.ts:39-49 | with a blank `ADMIN_MAIL` the author is not mailed either |
| ApproveSpot.ApprovalNotices | backend/src/handlers/approveSpot.ts:28-36 | one mail, to `contactEmail`, exactly when the record has a truthy one |
| ApproveSpot.ApprovalNotice | backend/src/handlers/approveSpot.ts:29-33 | the approval mail goes to the record's `contactEmail`, and its text names the record's id |
| ApproveSpot.Approval | backend/src/handlers/approveSpot.ts:15-41 | guard, then 400 `Missing id`; 404 exactly when the id is absent, with nothing changed; 200 `{spotId, status: approved}` exactly when it is present |
| ApproveSpot.Approve | backend/src/handlers/approveSpot.ts:12-42 | updates store and outbox and answers as `Approval` says |
| ApproveSpot.OnlyStatusChanges | backend/src/handlers/approveSpot.ts:24 | only the matched record changes, and in it only `status`, which becomes `approved` |
| ApproveSpot.ApproveTwice | backend/src/handlers/approveSpot.ts:24 | approving again leaves the store unchanged |
| ApproveSpot.ResponseIgnoresMail | backend/src/handlers/approveSpot.ts:29-37 | the response does not depend on the notification |
| AdminUpdateSpot.AllowedPatch | backend/src/handlers/adminUpdateSpot.ts:25-27 | the patch is the body restricted to the fifteen allowed keys it has |
| AdminUpdateSpot.PatchKeepsIdentity | backend/src/handlers/adminUpdateSpot.ts:25 | `spotId`, `createdAt` and `submittedBy` are never forwarded |
| AdminUpdateSpot.IdentityNotAllowed | backend/src/handlers/adminUpdateSpot.ts:25 | none of the identity fields is on the allow-list |
| AdminUpdateSpot.PatchForwardsAllowed | backend/src/handlers/adminUpdateSpot.ts:27 | an allowed field is forwarded with the body's value |
| AdminUpdateSpot.FilterPatch | backend/src/handlers/adminUpdateSpot.ts:26-27 | the copying loop builds exactly `AllowedPatch` |
| AdminUpdateSpot.BodyPatch | backend/src/handlers/adminUpdateSpot.ts:23-27 | bad JSON, or a body on which `in` throws, gives no patch; no body or an array gives the empty patch |
| AdminUpdateSpot.WordingFor | backend/src/handlers/adminUpdateSpot.ts:34-44 | `validée` iff the patch sets `approved`, `rejetée` iff it sets `rejected`, `mise à jour` otherwise |
| AdminUpdateSpot.ChooseWording | backend/src/handlers/adminUpdateSpot.ts:34-44 | the `let` chain picks the wording `WordingFor` gives |
| AdminUpdateSpot.NoteLine | backend/src/handlers/adminUpdateSpot.ts:48 | the note line is present exactly when the patch's `moderationNote` is truthy |
| AdminUpdateSpot.UpdateNotice | backend/src/handlers/adminUpdateSpot.ts:31-51 | the mail goes to the merged record's `contactEmail`, with the subject `WordingFor` chooses; its text names the id from the path and contains the chosen action line, and its last line is `NoteLine`, so the moderation note appears exactly when it is truthy |
| AdminUpdateSpot.UpdateNotices | backend/src/handlers/adminUpdateSpot.ts:30-52 | one mail, to the merged record's `contactEmail`, exactly when it is truthy, with the chosen subject |
| AdminUpdateSpot.UpdateRequest | backend/src/handlers/adminUpdateSpot.ts:16-57 | guard, then `Missing id`, then 500 for an unreadable body; 404 leaves everything; 200 exactly when the id exists, with the merged record, the merged store and the notice |
| AdminUpdateSpot.PatchRequest | backend/src/handlers/adminUpdateSpot.ts:23-53 | an unreadable body gives 500 with nothing changed; 404 exactly for an absent id, with nothing changed; 200 exactly when it exists, with the merged record, the merged store and the notice |
| AdminUpdateSpot.Update | backend/src/handlers/adminUpdateSpot.ts:13-58 | updates store and outbox and answers as `UpdateRequest` says |
| AdminUpdateSpot.ApplyPatch | backend/src/handlers/adminUpdateSpot.ts:23-53 | after the id check: read the patch, merge it, notify, as `PatchRequest` says |
| AdminUpdateSpot.ReadPatch | backend/src/handlers/adminUpdateSpot.ts:23-27 | parsing and the allow-list loop give `BodyPatch` |
| AdminUpdateSpot.NotifyAuthor | backend/src/handlers/adminUpdateSpot.ts:31-52 | the outbox grows by exactly `UpdateNotices` |
| AdminUpdateSpot.MergeKeepsIdentity | backend/src/handlers/adminUpdateSpot.ts:25-28 | a merge keeps the spot's id and every field off the allow-list, and no other record changes |
| AdminUpdateSpot.PatchWithinAllowed | backend/src/handlers/adminUpdateSpot.ts:25-27 | a patch names only allowed fields |
| AdminUpdateSpot.UpdateKeepsUnique | backend/src/handlers/adminUpdateSpot.ts:25-28 | an update request keeps the store's ids unique |
| AdminDeleteSpot.DeleteRequest | backend/src/handlers/adminDeleteSpot.ts:13-27 | never mails; guard, then `Missing id`; 404 exactly for an absent id, with nothing changed; 204 with an empty body exactly when it is removed |
| AdminDeleteSpot.Delete | backend/src/handlers/adminDeleteSpot.ts:11-28 | changes the store and answers as `DeleteRequest` says |
| AdminDeleteSpot.DeletedSpotIsGone | backend/src/handlers/adminDeleteSpot.ts:21-23 | with unique ids, after a 204 the spot cannot be found and the others keep their order |
| AdminDeleteSpot.RefusedLeavesStore | backend/src/handlers/adminDeleteSpot.ts:15-18 | with no `ADMIN_TOKEN` every request is refused with 400 or 401 and the store is unchanged |
| AdminListSpots.Listed | backend/src/handlers/adminListSpots.ts:19-24 | the requested prefix of the store, narrowed to the status only for `pending`, `approved` or `rejected`; every listed record carries that status and comes from the store |
| AdminListSpots.ListSpots | backend/src/handlers/adminListSpots.ts:15-25 | the guard first, then `{items, count}` of the listing |
| AdminListSpots.StatusParam | backend/src/handlers/adminListSpots.ts:20 | a non-empty status parameter, lower-cased, else `all`; the result is its own lower case |
| AdminListSpots.ListingCapped | backend/src/handlers/adminListSpots.ts:19 | without a negative `size`, at most 1000 records |
| AdminListSpots.NegativeSizeExceedsCap | backend/src/handlers/adminListSpots.ts:19-21 | `size=-1` over 1002 records lists 1001 of them |
| AdminListSpots.StatusIgnoresCase | backend/src/handlers/adminListSpots.ts:20 | the status parameter is case-insensitive |
| AdminListSpots.AllIsUnfiltered | backend/src/handlers/adminListSpots.ts:20-24 | with no status, the listing is the truncated store |
| AdminListPending.Queue | backend/src/handlers/adminListPending.ts:19-24 | all pending and sorted by creation time; the first `size` of the sorted pending records among the first thousand |
| AdminListPending.PendingSortedPrefix | backend/src/handlers/adminListPending.ts:21-24 | a prefix of a sorted permutation of pending records is pending and sorted |
| AdminListPending.ListPending | backend/src/handlers/adminListPending.ts:15-25 | the guard first, then `{items, count}` of the queue |
| AdminListPending.QueueFromFirstThousand | backend/src/handlers/adminListPending.ts:20 | every queued record is among the first thousand in the store |
| AdminListPending.QueueCapped | backend/src/handlers/adminListPending.ts:19 | without a negative `size`, at most 100 records |
| AdminListPending.ApprovedLeavesQueue | backend/src/handlers/adminListPending.ts:22 | once a spot is approved, with unique ids, it is not queued |
| AdminSendMail.MailBody | backend/src/handlers/adminSendMail.ts:23-25 | a missing or unparsable body reads as `{}` |
| AdminSendMail.Compose | backend/src/handlers/adminSendMail.ts:26-28 | subject and text are the body's when truthy, else the defaults, so both are truthy; to and source are `ADMIN_MAIL` |
| AdminSendMail.Outcome | backend/src/handlers/adminSendMail.ts:28-33 | a failed send gives 500; a delivered one gives 200 `ok: true`, with `messageId` exactly when there is one |
| AdminSendMail.SendMail | backend/src/handlers/adminSendMail.ts:15-33 | guard, then 500 `ADMIN_MAIL not configured`, both with no mail; otherwise exactly one mail, whose outcome decides the answer |
| AdminSendMail.OkMeansSent | backend/src/handlers/adminSendMail.ts:28-29 | a 200 answer means exactly one mail went out to the trimmed `ADMIN_MAIL` and was delivered |
| AdminSendMail.DefaultsWithoutBody | backend/src/handlers/adminSendMail.ts:23-27 | without a readable body the default subject and text are used |
| AdminSendMail.EmptySubjectFallsBack | backend/src/handlers/adminSendMail.ts:26 | an empty subject falls back to the default |
| AdminSendMail.NoMailWithoutAdminMail | backend/src/handlers/adminSendMail.ts:19-22 | without `ADMIN_MAIL` nothing is sent, and the answer is 400, 401 or 500 |
| App.DotFromIff | src/App.tsx:109 | the inner scan finds a `\..+` part exactly when one exists |
| App.AtFromIff | src/App.tsx:109 | the outer scan finds a match exactly when one exists at or after its start |
| App.IsValidEmailMeaning | src/App.tsx:107-110 | an address is accepted exactly when it is empty or `.+@.+\..+` occurs in it |
| App.IsValidEmail | src/App.tsx:107-110 | the check accepts exactly the empty address and the addresses in which `.+@.+\..+` occurs |
| App.EmailExamples | src/App.tsx:107-110 | `invalid` is rejected and `user@example.com` accepted |
| App.RunTests | src/App.tsx:112-131 | each test is the corresponding check on the form, and a form is never both kinds |
| App.ValidateForm | src/App.tsx:112-132 | each error is set exactly when its check fails, ponton errors only for a ponton and `url` only for an association, each with its text; empty exactly when the form is valid |
| App.CommonEntries | src/App.tsx:114-121 | the five common entries, each exactly when its test failed |
| App.TypeEntries | src/App.tsx:122-130 | the kind-specific entries are added to the common ones without changing them |
| App.Payload | src/App.tsx:389-416 | a ponton payload exactly for a ponton form, holding its measures, access and address; otherwise an association with its url; empty optional fields dropped |
| App.SubmitPressed | src/App.tsx:381-416 | a payload is built exactly when the error record is empty, and it is `Payload` |
| App.SubmittedPayloadShape | src/App.tsx:381-416 | what is sent has a non-blank name and author and finite coordinates; a ponton also has positive measures, an allowed access and a non-blank address |
| App.EmptyInputsDropped | src/App.tsx:395-397 | empty optional inputs are not sent |
| App.Needle | src/App.tsx:519 | the filter trimmed and lower-cased: as long as the trimmed filter, and its own lower case |
| App.MatchesNeedle | src/App.tsx:521-524 | a match needs a truthy searched property; with an empty needle, any truthy searched property matches |
| App.Visible | src/App.tsx:519-526 | a blank filter keeps every row; otherwise exactly the rows with a searched property containing the needle |
| App.OfType | src/App.tsx:527-528 | exactly the rows of that type |
| App.Page | src/App.tsx:529-534 | at most twenty rows, row `k` being row `page*20+k`; empty past the end |
| App.Previous | src/App.tsx:607 | one page back, never below 0 |
| App.PreviousEnabled | src/App.tsx:607 | "Précédent" is enabled exactly when going back changes the page |
| App.NextEnabled | src/App.tsx:610 | "Suivant" is enabled exactly when rows lie beyond the current page |
| App.RowOnItsPage | src/App.tsx:529-534 | row `i` is shown on page `i/20` at position `i%20` |
| App.NextShowsRows | src/App.tsx:610 | "Suivant" is enabled exactly when the next page has rows |
| App.TablesDisjoint | src/App.tsx:527-528 | no row is in both tables |
| App.FilteredRowInTable | src/App.tsx:519-528 | a visible row of either kind is in its type's table |
| MapWeb.ToFeature | src/components/Map/Map.web.tsx:89-104 | id is the index, coordinates are `[lon, lat]`, and the properties are the three defaulted keys plus the passed-through keys the point has |
| MapWeb.ToFeatureCollection | src/components/Map/Map.web.tsx:88-106 | one feature per point, in order, each the point's own feature |
| MapWeb.PropertyKeysDisjoint | src/components/Map/Map.web.tsx:92-102 | the defaulted and passed-through keys are distinct |
| MapWeb.DefaultedValues | src/components/Map/Map.web.tsx:93-95 | weight, title and description are the point's own unless null or undefined, else 1, `Spot #i+1` and `''` |
| MapWeb.ZeroWeightKept | src/components/Map/Map.web.tsx:93 | a zero weight is kept |
| MapWeb.PassedThrough | src/components/Map/Map.web.tsx:96-101 | each passed-through property is present exactly when the point has it, with the point's value |
| MapWeb.DefaultTitlesDistinct | src/components/Map/Map.web.tsx:94 | untitled points at different positions get different titles |

## Left out

- DynamoDB and the file round trip. The DynamoDB branches of the store, `readStore`/`writeStore` and `db.ts` are I/O. The model keeps the in-memory array only. The DynamoDB field update answers null for an empty patch (`spotsRepo.ts:214`); the in-memory path does not.
- Store failure. A failure of the store write in `submitSpot` would answer 500. The in-memory store swallows its file errors, so that branch is not modelled.
- Foreign code becomes parameters: MD5, AES-GCM decryption, `captchaGenerate`, `crypto.ts`, the zod schema, `randomUUID` and the clock. The decryption round trip is not derivable from this code.
- Floating point becomes parameters: `Number(...)` parsing, number-to-text rendering, date parsing to an integer timestamp and `new URL` validity. The model keeps the cases that matter: NaN, ±Infinity and finite. NaN timestamps in the pending sort are not modelled.
- `toFixed` formatting and the `Math.hypot` nearest-spot selection are floating-point UI code.
- Lower-casing covers ASCII and Latin-1 letters only. JavaScript's `toLowerCase` covers all of Unicode.
- Concurrency. Sends are fire-and-forget, and their `.catch`, ordering and timing are not modelled: a notification is only an outbox entry. `adminSendMail` awaits its send, so its outcome is a parameter.
- The ordering between the store write and a notification is in the method bodies only. The store and the outbox are separate objects, so no contract orders them.
- CORS headers and all logging, including the logged token in `adminCheckMd5`.
- `readStore` falls back from the store file to the seeds (`spotsRepo.ts:79-96`). This is file I/O, so the store's initial records are a parameter of its constructor.
- JsArray.SortByKey: the contract states ascending order and permutation, not that equal keys keep their input order, although the insertion does keep it.
- The `rejectSpot` handler is not part of this model.
- React state, rendering, the map, popups and `api.ts` are UI or network code. The page numbers reset when the list reloads; that is not modelled. The payload is kept as typed values, not as its JSON text.
- The `picking` flag of the form is left out. No check reads it.
- App.ValidateForm: the error record is keyed by a `FormError` constructor per property rather than by the property-name string.
- App.Payload: the form is modelled as its fixed fields, which are the only strings the form state holds.
- AdminListSpots.ListingCapped: a negative `size` counts from the back of the store and can exceed the cap (`NegativeSizeExceedsCap`), so the bound is stated only for sizes that are not negative.
- AdminListPending.QueueCapped: the bound is stated only for sizes that are not negative, for the same reason.
