# GetNinjas-style marketplace: request, chat and account stores

This project models the logic of a small service marketplace. Clients post service
requests. Professionals send proposals on them. The client accepts one proposal, and the
two sides talk in conversations. This project covers:

- the three in-memory stores of the server routes:
  - service requests and their proposals (`server/routes/requests.ts`);
  - conversations and messages (`server/routes/chat.ts`);
  - users and sessions (`server/routes/auth.ts`);
- the pure helpers of three client screens:
  - the step list of the request status tracker;
  - the step validation and navigation of the "post a request" form;
  - the formatters, the proposal form and the eligibility rules of the request detail page.

Each store is a Dafny class whose fields are the module-level arrays and maps
(`RequestStore.requests`, `ChatStore.conversations` / `messages`, `AuthStore.users` /
`sessions`). Each route handler is a method of that class, or a function reading it.
Its `ensures` say which response it gives and what the store holds afterwards. The loops
of the source are `while` loops proved against specification functions:

- `RejectOthers` for the sibling rejection after an accept;
- `BumpOthers` for the unread counters of a send;
- `MarkRead` for mark-as-read.

Lemmas over those functions state what the handlers promise across calls.

Modules, one per source file, plus a shared one:

| file | module | source |
|---|---|---|
| `common.dfy` | `Common` | `Option`, handler `Response`, `filter` / `findIndex` / index-filter / index-map, the mock `Bearer` caller id |
| `requests.dfy` | `Requests` | `server/routes/requests.ts` |
| `chat.dfy` | `Chat` | `server/routes/chat.ts` |
| `auth.dfy` | `Auth` | `server/routes/auth.ts` |
| `status_tracker.dfy` | `StatusTracker` | `client/components/RequestStatusTracker.tsx` |
| `post_request.dfy` | `PostRequest` | `client/pages/PostRequest.tsx` |
| `request_detail.dfy` | `RequestDetail` | `client/pages/RequestDetail.tsx` |

Conventions:

- Generated ids (`req_${Date.now()}`, `msg_…`, `user_…`), session ids and the clock are
  parameters: `freshId`, `sessionId`, `now` (a natural number of milliseconds).
- The caller is the `caller` string. `Common.CallerId` is how the request and chat routes
  derive it from the `Authorization` header.
- A handler's answer is `Ok(body)`, or `NotFound` / `Unauthorized` / `BadRequest` with
  the text the handler sends.
- Request bodies merged with `...req.body` are records of optional known fields.

Where the code does something a reader might not expect, the model follows the code:

- Nothing stops a decision on a completed or cancelled request. Neither proposal handler
  checks the request's status, and the proposal update does not check the owner.
- `DELETE /api/requests/:id` cancels the request and keeps it. The tracker shows its cancel
  button only for open requests, but the server cancels a request in any status.
- The create bodies are spread after `id` and `userId` (or `professionalId`). A body that
  carries those keys therefore overrides them. `status`, `proposals` and the timestamps
  come after the spread and are always forced.
- "Exactly one accepted proposal after an accept" needs distinct proposal ids.
  `Requests.AcceptWithDuplicateIds` shows two accepted proposals when two proposals
  share an id.
- An in-progress request without an accepted proposal shows two "current" steps in the
  tracker (`StatusTracker.CurrentStepCount`).
- The profile update checks no field: it may change the e-mail to one another user has.

## Model

| member | source | states |
|---|---|---|
| Common.CallerId | server/routes/requests.ts:88 | no header gives the fallback user; `Bearer <id>` with a non-empty id gives that id; `Bearer ` alone gives the fallback |
| Common.CallerIdStripsFirstBearer | server/routes/requests.ts:88 | a header loses only its first `Bearer `, wherever it stands, and an empty remainder gives the fallback |
| Common.CallerIdOtherScheme | server/routes/requests.ts:88 | a header without `Bearer ` (such as `Token abc`) is itself the caller id, unless it is empty |
| Common.Filter | server/routes/requests.ts:90 | the result keeps exactly the elements satisfying the predicate, each with its multiplicity, and is no longer than the input |
| Common.FilterAppend | server/routes/requests.ts:90 | filtering a concatenation is concatenating the filtered parts (order kept) |
| Common.FilterAll | server/routes/requests.ts:90 | when every element satisfies the predicate the filter is the whole sequence |
| Common.FilterSingle | server/routes/requests.ts:213-217 | when only position j satisfies the predicate, the filter is exactly that element |
| Common.FilterNone | server/routes/requests.ts:90 | when no element satisfies the predicate the filter is empty |
| Common.FilterLengthUpdate | server/routes/requests.ts:207 | replacing one element by one the predicate keeps only if it kept the old one never increases the kept count, and keeps it when both are judged alike |
| Common.FindIndex | server/routes/requests.ts:134 | `Some(i)`: position i satisfies the predicate and no earlier one does; `None` exactly when no position does |
| Common.FindIndexAppend | server/routes/chat.ts:219 | appending a matching element to a sequence without one makes the new last position the one found |
| Common.RemoveAt | client/pages/PostRequest.tsx:103-105 | an index in range drops exactly that element and keeps the rest in order; any other index changes nothing |
| Common.RemoveAtMultiset | server/routes/chat.ts:371 | removing a position removes one occurrence of its element and shortens the sequence by one |
| Common.MultisetSplit | server/routes/chat.ts:371 | taking one occurrence of x out of `a + [x] + b` leaves the elements of `a + b` |
| Common.UpdateAt | client/pages/RequestDetail.tsx:327-332 | same length; position `index` holds the new value and every other position is unchanged |
| Common.ReplaceFirstAt | server/routes/requests.ts:88 | when the first occurrence of the pattern is at i, `replace` swaps exactly that occurrence and keeps both sides |
| Common.ReplaceFirstAbsent | server/routes/requests.ts:88 | without any occurrence of the pattern `replace` returns the text unchanged |
| Requests.ApplyPatch | server/routes/requests.ts:140-144 | for each of the record's fields a value the patch gives replaces the stored one and an absent one keeps it; `updatedAt` is always now; an empty patch changes only `updatedAt` |
| Requests.NewProposal | server/routes/requests.ts:176-182 | a pending proposal stamped now; the body's id and professional override the generated id and the caller, the other fields are the body's |
| Requests.RejectOthers | server/routes/requests.ts:213-217 | same length; every proposal whose id differs becomes rejected, the others are unchanged |
| Requests.Decide | server/routes/requests.ts:207-218 | the chosen proposal gets the new status; on accept every proposal with another id is rejected, otherwise no sibling changes |
| Requests.Decided | server/routes/requests.ts:202-218 | the proposals become `Decide(...)`, the request goes in progress on an accept and keeps its status otherwise, `updatedAt` is now, and nothing else changes |
| Requests.AcceptLeavesExactlyOne | server/routes/requests.ts:207-218 | with distinct ids an accept leaves the request in progress, the chosen proposal accepted, every other rejected, and exactly one accepted |
| Requests.AcceptWithDuplicateIds | server/routes/requests.ts:202-217 | two proposals sharing an id end up both accepted: distinct ids are needed for the single-accept property |
| Requests.NonAcceptChangesOnlyThatProposal | server/routes/requests.ts:207-220 | a non-accept decision changes only that proposal's status, keeps the request status, and cannot increase the accepted count |
| Requests.NewProposalKeepsAccepted | server/routes/requests.ts:176-185 | adding a (pending) proposal leaves the accepted proposals as they were |
| Requests.CreatedRequestListed | server/routes/requests.ts:90-124 | a created request appears at the end of its owner's listing and in nobody else's |
| Requests.CancelKeepsListings | server/routes/requests.ts:160-163 | cancelling changes no listing's length and not the array's |
| Requests.RequestStore.constructor | server/routes/requests.ts:44 | the store starts from exactly the requests it is given |
| Requests.RequestStore.GetRequests | server/routes/requests.ts:87-96 | exactly the caller's requests (with multiplicity), and `total` is their number |
| Requests.RequestStore.GetRequest | server/routes/requests.ts:99-108 | the first stored request with that id, or `NotFound("Request not found")` exactly when there is none |
| Requests.RequestStore.GetNearbyRequests | server/routes/requests.ts:226-239 | exactly the open requests with coordinates; the query values play no part |
| Requests.RequestStore.CreateRequest | server/routes/requests.ts:111-127 | appends exactly one request, open, without proposals, stamped now; the body's id and owner override the defaults |
| Requests.RequestStore.UpdateRequest | server/routes/requests.ts:130-147 | only the first request with that id and owner is patched; otherwise `NotFound` and the store is unchanged |
| Requests.RequestStore.DeleteRequest | server/routes/requests.ts:150-164 | the caller's request becomes cancelled, nothing is removed and nothing else changes; otherwise `NotFound` and no change |
| Requests.RequestStore.CreateProposal | server/routes/requests.ts:167-189 | an existing request gains exactly one pending proposal at the end; a missing one gives `NotFound` and no change |
| Requests.RequestStore.UpdateProposal | server/routes/requests.ts:192-223 | missing request or proposal gives `NotFound` and no change; otherwise the request becomes `Decided(...)`, by a loop proved against `RejectOthers` |
| Chat.NewConversation | server/routes/chat.ts:195-216 | the given id and project, no last message, the two users as client and professional with the placeholder names and avatar, both at 0 unread and no other counter, stamped now |
| Chat.CreateConversationDeduplicates | server/routes/chat.ts:183-221 | a created conversation matches its own duplicate test, so the same request finds it; both users start at 0 unread |
| Chat.LatestIndex | server/routes/chat.ts:141-145 | a message with the greatest `createdAt`, the first such one; `None` only for no messages |
| Chat.WithLastMessage | server/routes/chat.ts:140-151 | only `lastMessage` changes; it is absent exactly when the conversation has no message, otherwise one of its messages and a latest one |
| Chat.LastMessageIsFirstLatest | server/routes/chat.ts:140-145 | on equal times the last message is the first of the latest ones: every message of the conversation before it is strictly older |
| Chat.Insert | server/routes/chat.ts:242-245 | inserting into a sorted sequence keeps it sorted and adds exactly that message |
| Chat.SortByTime | server/routes/chat.ts:242-245 | the result is sorted by `createdAt` and a permutation of the input |
| Chat.ConversationMessages | server/routes/chat.ts:240-245 | exactly the messages of that conversation (with multiplicity), oldest first |
| Chat.CeilDiv | server/routes/chat.ts:257 | `Math.ceil(n / d)`: the least integer not below the quotient, for either sign of d |
| Chat.JsSlice | server/routes/chat.ts:248-251 | `slice`: non-negative ends give the plain segment clamped to the sequence; negative ends within the sequence count from the end; a start at or past the end, or crossed ends of one sign, give nothing |
| Chat.JsSliceClampedStart | server/routes/chat.ts:248-251 | `slice` with two negative ends and the start before the beginning: the start is clamped to 0 and the end counts from the end (`slice(-5, -1)` of three elements is the first two) |
| Chat.JsSliceMixedSigns | server/routes/chat.ts:248-251 | `slice` with ends of opposite signs: the negative end counts from the end, the start is clamped, and crossed ends give nothing |
| Chat.SliceIndex | server/routes/chat.ts:248-251 | the relative-index rule of `slice`: a non-negative index clamps to the length, a negative one counts from the end and clamps to 0 |
| Chat.PageOf | server/routes/chat.ts:247-251 | a page is never longer than the messages, and a zero limit gives an empty page |
| Chat.PageOfSegment | server/routes/chat.ts:247-251 | page p of a positive limit is the run of at most `limit` messages starting at `(p-1)*limit` |
| Chat.PagesUpToPrefix | server/routes/chat.ts:247-257 | pages 1 to c together are the first `c*limit` messages |
| Chat.PagesCoverAll | server/routes/chat.ts:247-257 | pages 1 to `totalPages` return every message exactly once, in order; later pages are empty |
| Chat.BumpOthers | server/routes/chat.ts:295-300 | every counter present before is still present |
| Chat.BumpOthersCounts | server/routes/chat.ts:295-300 | a user other than the sender gains one unread message per time it is listed as a participant |
| Chat.BumpOthersKeeps | server/routes/chat.ts:295-300 | the sender's counter, and that of anyone not listed, is untouched (present with the same value, or absent) |
| Chat.SendBumpsEachOtherOnce | server/routes/chat.ts:295-300 | with distinct participants every other participant gains exactly one |
| Chat.ReadBy | server/routes/chat.ts:343-350 | a message of the conversation from another user becomes read; only its status and time can change, and the time becomes now exactly when the status changes, so an already-read message and any other message are kept as they are |
| Chat.MarkRead | server/routes/chat.ts:343-350 | same length; each message becomes `ReadBy` of itself |
| Chat.MarkReadEffect | server/routes/chat.ts:340-350 | messages of the conversation from others end up read, the reader's own and other conversations' are unchanged, and a second call changes nothing |
| Chat.ChatStore.constructor | server/routes/chat.ts:37-62 | the store starts from exactly the conversations and messages it is given |
| Chat.ChatStore.GetConversations | server/routes/chat.ts:132-158 | exactly the caller's conversations, in order, each with its latest message; `total` is their number |
| Chat.ChatStore.GetConversation | server/routes/chat.ts:161-175 | the first conversation with that id that the caller takes part in, or `NotFound("Conversation not found")` exactly when there is none |
| Chat.ChatStore.GetMessages | server/routes/chat.ts:225-259 | the access check as above; `page` and `limit` default to 1 and 50; the sorted messages of the conversation sliced at `(page-1)*limit`, their total, the page, and `ceil(total/limit)` pages for any non-zero limit (`None` for 0) |
| Chat.ChatStore.CreateConversation | server/routes/chat.ts:178-222 | an existing two-person conversation of both users and the project is returned unchanged; otherwise exactly one new one is appended |
| Chat.ChatStore.SendMessage | server/routes/chat.ts:262-303 | appends one `sent` message from the caller and applies `BumpOthers` to the conversation's counters, by a loop proved against it; `NotFound` and no change without access |
| Chat.ChatStore.UpdateMessage | server/routes/chat.ts:306-323 | only the status and time of the first message with that id in that conversation change; otherwise `NotFound` |
| Chat.ChatStore.MarkAsRead | server/routes/chat.ts:326-353 | the caller's counter becomes 0 and messages become `MarkRead` of the old ones, by a loop proved against it; `NotFound` and no change without access |
| Chat.ChatStore.DeleteMessage | server/routes/chat.ts:356-374 | removes exactly one message when id, conversation and sender all match; otherwise `NotFound` and no change |
| Auth.HashPassword | server/routes/auth.ts:42-44 | the hash is `hashed_` followed by the password |
| Auth.VerifyPassword | server/routes/auth.ts:46-48 | a hash verifies a password exactly when it is `hashed_` followed by that password |
| Auth.HashRoundTrip | server/routes/auth.ts:42-48 | a password verifies against its own hash, only that password does, and the empty hash matches none |
| Auth.FieldValue | server/routes/auth.ts:9-21 | an optional field's value is present exactly when it was given |
| Auth.ParseRole | server/routes/auth.ts:14 | only `client` and `professional` are accepted |
| Auth.ParseSignup | server/routes/auth.ts:9-21 | succeeds exactly for a valid e-mail, a password of 6 or more, a name of 2 or more, a known type, and optional phone and location that are absent or well typed; keeps the fields |
| Auth.ParseLogin | server/routes/auth.ts:23-26 | succeeds exactly for a valid e-mail and a password |
| Auth.ParsePhoneLogin | server/routes/auth.ts:28-31 | succeeds exactly for a phone and a code of exactly 6 characters |
| Auth.NewUser | server/routes/auth.ts:61-84 | unverified, hashed password, the placeholder avatar, the given id, e-mail, type, name, phone, location and time; professionals get empty profession and categories and zero rating and reviews, clients get none of those |
| Auth.PhoneUser | server/routes/auth.ts:158-170 | a verified client named "Usuário" with that phone, the `<phone>@phone.temp` e-mail, the given id and time, and an empty password |
| Auth.ApplyProfilePatch | server/routes/auth.ts:255-260 | id and password never change; for each of the other fields a given value overwrites the stored one and an absent one keeps it |
| Auth.ProfilePatchKeepsIdentity | server/routes/auth.ts:257-260 | an `id` or `password` in the body makes no difference, and the update is idempotent |
| Auth.LoginAfterSignup | server/routes/auth.ts:55-125 | after a signup with a new e-mail, login finds the new user and its password verifies |
| Auth.PhoneUserHasNoPassword | server/routes/auth.ts:160-170 | a user made by phone login can never pass password login |
| Auth.AuthStore.constructor | server/routes/auth.ts:5-6 | no users and no sessions |
| Auth.AuthStore.SessionUser | server/routes/auth.ts:199-207 | "Não autenticado" without a cookie, "Sessão inválida" for an unknown session, otherwise the session's user id |
| Auth.AuthStore.Me | server/routes/auth.ts:197-221 | the first stored user with the session's id, or `Unauthorized` ("Usuário não encontrado" when the session resolves to no user) |
| Auth.AuthStore.Signup | server/routes/auth.ts:50-111 | invalid input gives 400 "Dados inválidos", a known e-mail 400 "Usuário já existe", both without change; otherwise one user is added and the session maps to it, so `Me` of that session gives it back |
| Auth.AuthStore.Login | server/routes/auth.ts:113-144 | no user with the e-mail, or a wrong password, gives 401 "Credenciais inválidas" and no session; otherwise the session maps to that user |
| Auth.AuthStore.PhoneLogin | server/routes/auth.ts:146-195 | a body without a phone or with a code that is not 6 characters long gives 400 "Dados inválidos"; a well-formed code other than "123456" gives 401; neither changes anything; an existing phone user is reused, otherwise exactly one verified client is created |
| Auth.AuthStore.Logout | server/routes/auth.ts:223-236 | the cookie's session is deleted and `Me` of it then answers "Sessão inválida"; users are untouched |
| Auth.AuthStore.UpdateProfile | server/routes/auth.ts:238-269 | session failures as in `Me`, a missing user 404; otherwise only that user changes, by `ApplyProfilePatch`, keeping id and password |
| StatusTracker.PaymentDescription | client/components/RequestStatusTracker.tsx:133-142 | paid, refunded and anything else (absent included) give the three descriptions, each exactly in its case |
| StatusTracker.PaymentDetails | client/components/RequestStatusTracker.tsx:144-153 | the same three cases for the details text |
| StatusTracker.BaseSteps | client/components/RequestStatusTracker.tsx:48-93 | the four steps created, proposals, in progress and completed; the first always done and stamped "2024-02-10 14:30"; the proposal and progress steps carry the accepted proposal's time, and no time without one; the last carries the completion time |
| StatusTracker.GetSteps | client/components/RequestStatusTracker.tsx:47-131 | 4 steps for open / in progress, 6 for completed, 5 for cancelled; each step's status as the request, the accepted proposal, the review and the payment decide |
| StatusTracker.CancelledShowsNothingCurrent | client/components/RequestStatusTracker.tsx:62-128 | a cancelled request shows no current step, and every step after the second is cancelled |
| StatusTracker.FinishedShowsAllDone | client/components/RequestStatusTracker.tsx:53-116 | a completed, accepted, reviewed and paid request shows every step completed |
| StatusTracker.CurrentStepCount | client/components/RequestStatusTracker.tsx:62-87 | open without an accepted proposal, or in progress with one, shows one current step; in progress without one shows two |
| StatusTracker.ShowQuickActions | client/components/RequestStatusTracker.tsx:302 | quick actions exactly for open or in-progress requests |
| StatusTracker.ShowCancelButton | client/components/RequestStatusTracker.tsx:318 | the cancel button exactly for open requests, and only inside the quick actions |
| PostRequest.DefaultForm | client/pages/PostRequest.tsx:62-81 | every text field empty, urgency "medium", a range budget, contact by both |
| PostRequest.IsStepComplete | client/pages/PostRequest.tsx:152-174 | steps 1 to 3 need their fields non-empty (the maximum only for a range budget); no other step is ever complete |
| PostRequest.DefaultFormIncomplete | client/pages/PostRequest.tsx:62-81 | a fresh form completes no step |
| PostRequest.FixedBudgetIgnoresMax | client/pages/PostRequest.tsx:164-170 | with a fixed budget the maximum never affects completeness |
| PostRequest.FailureText | client/pages/PostRequest.tsx:140-148 | a thrown `Error` shows its own message; an error status, or a thrown value that is not an `Error`, shows "Erro ao publicar solicitação" |
| PostRequest.PostRequestForm.constructor | client/pages/PostRequest.tsx:53-81 | step 1, the default form, no images, dialog closed |
| PostRequest.PostRequestForm.Back | client/pages/PostRequest.tsx:757-766 | offered above step 1 only; goes one step back and keeps the step in 1..4 |
| PostRequest.PostRequestForm.Next | client/pages/PostRequest.tsx:768-776 | offered below step 4 and only for a complete step; goes one step on and keeps the step in 1..4 |
| PostRequest.PostRequestForm.Edit | client/pages/PostRequest.tsx:62-81 | replaces the form data only |
| PostRequest.PostRequestForm.AddImage | client/pages/PostRequest.tsx:90-101 | appends one image only |
| PostRequest.PostRequestForm.RemoveImage | client/pages/PostRequest.tsx:103-105 | drops exactly the image at the index, keeping the order of the rest |
| PostRequest.PostRequestForm.Submit | client/pages/PostRequest.tsx:107-150 | no user opens the login dialog; a failed post shows `FailureText` of how it failed and changes nothing; a successful one resets the form, the images and the step |
| RequestDetail.FormatBudget | client/pages/RequestDetail.tsx:390-395 | "R$ min" for fixed, "R$ min - R$ max" for range |
| RequestDetail.FormatBudgetShapes | client/pages/RequestDetail.tsx:390-395 | the fixed text ignores the maximum and is a prefix of the range text |
| RequestDetail.FormatTime | client/pages/RequestDetail.tsx:405-413 | the four keys become their labels, anything else is returned unchanged |
| RequestDetail.FormatTimeIdempotent | client/pages/RequestDetail.tsx:405-413 | formatting twice is formatting once |
| RequestDetail.TrimStart | client/pages/RequestDetail.tsx:248 | a suffix of the input, empty exactly for all-blank input, starting with a visible character otherwise |
| RequestDetail.TrimStartDropsBlank | client/pages/RequestDetail.tsx:248 | what `TrimStart` removes is all white space |
| RequestDetail.TrimEnd | client/pages/RequestDetail.tsx:248 | a prefix of the input, empty exactly for all-blank input, ending with a visible character otherwise |
| RequestDetail.TrimEndDropsBlank | client/pages/RequestDetail.tsx:248 | what `TrimEnd` removes is all white space |
| RequestDetail.BlankCons | client/pages/RequestDetail.tsx:248 | a white-space character before a blank run gives a blank run |
| RequestDetail.BlankSnoc | client/pages/RequestDetail.tsx:248 | a blank run followed by a white-space character is a blank run |
| RequestDetail.Trim | client/pages/RequestDetail.tsx:248 | empty exactly for all-blank input; otherwise starts and ends with a visible character |
| RequestDetail.TrimIsInfix | client/pages/RequestDetail.tsx:248 | `trim` gives the segment of the input that starts where the leading white space ends |
| RequestDetail.TrimDropsBlankSuffix | client/pages/RequestDetail.tsx:248 | what follows that segment in the input is all white space |
| RequestDetail.SubmittedIncludes | client/pages/RequestDetail.tsx:248 | exactly the entries that are not blank (with multiplicity) |
| RequestDetail.SubmittedIncludesOrder | client/pages/RequestDetail.tsx:248 | the kept entries keep their relative order |
| RequestDetail.EmptyProposalForm | client/pages/RequestDetail.tsx:106-112 | every field empty and a single empty include |
| RequestDetail.SubmitProposal | client/pages/RequestDetail.tsx:225-250 | refused with "Preencha todos os campos obrigatórios" exactly when message, price or duration is empty; otherwise a body without ids, with the user's name (or "Professional") and the filtered includes |
| RequestDetail.AddInclude | client/pages/RequestDetail.tsx:320-325 | appends one empty entry and keeps the others |
| RequestDetail.UpdateInclude | client/pages/RequestDetail.tsx:327-332 | replaces only entry `index` |
| RequestDetail.RemoveInclude | client/pages/RequestDetail.tsx:334-339 | drops only entry `index` |
| RequestDetail.IncludesStayNonEmpty | client/pages/RequestDetail.tsx:688 | the list starts with one entry, and with removal offered only above one entry no edit empties it |
| RequestDetail.CanPropose | client/pages/RequestDetail.tsx:570 | exactly for a professional who is not the owner, has not proposed, on an open request |
| RequestDetail.CanDecide | client/pages/RequestDetail.tsx:893 | exactly for the owner, on a pending proposal |
| RequestDetail.AcceptedProposal | client/pages/RequestDetail.tsx:729-734 | the first accepted proposal of the request, absent exactly when none is accepted |
| RequestDetail.TrackerFor | client/pages/RequestDetail.tsx:727-743 | the tracker sees the request status, the accepted proposal's name, avatar and price stamped now exactly when there is one, completion / cancellation times exactly for those statuses, no review and an unpaid payment |
| RequestDetail.ProposingEndsEligibility | client/pages/RequestDetail.tsx:386-388 | once the server stores the page's proposal, the professional is no longer offered the form |
| RequestDetail.AcceptClosesDecisions | client/pages/RequestDetail.tsx:893 | after an accept (distinct ids) no proposal offers accept / reject, nobody is offered the form, and the lookup finds the accepted one |
| RequestDetail.AcceptShownInTracker | client/pages/RequestDetail.tsx:729-743 | after an accept the tracker shows proposals completed and in-progress as the single current step |

## Left out

- Rendering, icons, colours, titles other than the step titles, and all routing: they are presentation.
- The free-text `details` of the tracker steps are out: one embeds `R$ ${price}`, the
  JavaScript number-to-text conversion. `PaymentDetails` is modelled on its own.
- Network, cookies and the HTTP plumbing are inputs and result values. The session cookie
  is the `cookie` argument, and the 500 "Erro interno do servidor" paths are not modelled.
  The `errors` list zod attaches to the signup 400 is not modelled either.
- Generated ids (`Math.random` session ids, `Date.now()` ids) and ISO timestamps are caller-supplied values.
- The e-mail check of the validation library is the parameter `isEmail`, because it is foreign code.
- String lengths are counted in characters, not in UTF-16 code units as zod and JavaScript count them.
- Untyped `req.body`: bodies are records of the known fields, and any other key a body carries is dropped by the model.
- Floating-point values (coordinates, price) are `real`. `Number(...)` of the price text is a parameter.
- Query values `page` and `limit` are integers: a non-numeric or fractional query value (`NaN`, `1.5`) is not modelled.
- Chat.ConversationMessages: the sort key is the stored `createdAt` number, not a re-parsed date string.
- RequestDetail.FormatTime: does not model keys inherited from `Object.prototype` (such as `"constructor"`), which the source's object lookup would return.
- `handleImageUpload`'s `FileReader` callbacks are reduced to `AddImage` with the resulting data URL.
- Concurrency: handlers run one at a time.
- The seed records the source starts from (the sample requests of `server/routes/requests.ts:44-84` and the sample conversations and messages of `server/routes/chat.ts:37-129`): the stores start from whatever records they are given.
- Requests.RequestStore.UpdateProposal: takes a typed decision, so an absent or unknown `status` in the body, which the source stores as given, is not modelled.
- Auth.AuthStore.UpdateProfile: the profile patch carries a typed `type`, so an unknown user type in the body, which the source spreads into the stored user, is not modelled.
- Chat.ChatStore.UpdateMessage: takes a typed status, so an absent or unknown `status` in the body, which the source stores as given, is not modelled.
- Chat.ConversationMessages: does not state that messages with equal `createdAt` keep their stored order (the stability of `Array.prototype.sort`).
- Chat.JsSlice: its own contract covers non-negative ends, negative ends within the sequence and empty ranges; ends of opposite signs are stated by `JsSliceMixedSigns`, and two negative ends with the start before the beginning by `JsSliceClampedStart`.
- RequestDetail.TrimStart: its own contract states the shape of the result; that the removed part is white space is stated by `TrimStartDropsBlank`, and the same holds for `TrimEnd` and `Trim` with the lemmas beside them.
- Only the auth routes are mounted by `server/index.ts`. The request and chat handlers are modelled as the functions they are, not as reachable endpoints.
- The contexts, login and register forms, the notification toast timer and every other page are not part of this model.
