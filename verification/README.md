# ChaosPay: a verified model

ChaosPay keeps payments of several banks in memory and answers like those banks do, on demand with
faults. This project models the parts of it whose correctness is decided by code rather than by data,
and proves what they promise.

**Freedom Pay wire format** (`Text`, `OrdMaps`, `Signature`, `Xml`, `XmlParser`, `Spacing`, `RepeatedTags`,
`Canonical`, `SignedValues`, `SignedResponse`, `TagSurgery`, `TagDepth`, `TagExact`, `ScenarioReplies`,
`ReplyEdits`). An ordered map with nested maps and lists is printed as XML, signed, edited as text, sent,
tokenized and parsed again. Parsing does not give the same tree back: a list of one map comes back as that
map, empty maps become empty strings, empty lists and empty list elements vanish, leaves are trimmed and their
line ends rewritten. The model says what comes back for *every* tree, and shows that the signature survives
it: not always, but exactly when the values that are signed survive one by one. MD5 is a parameter, any
function to 32 lower-case hexadecimal digits. The tokenizer undoes the five predefined entities, which are
what the printer writes, and turns CR and CRLF into LF (sections 2.4, 2.11 and 4.6 of XML 1.0, Fifth Edition).

**Payments** (`Pay`, `PayStore`, `PayOutcomes`, `PayRecords`, `PayThreads`, `PayRuns`, `StatusAnswers`,
`AnswerFields`, `EpayStatus`, `PayStories`, `Decimal`). One record serves three banks. `PayStore` holds the
repository and the service as classes whose methods run alone, and `PayOutcomes` reduces its thirteen calls
and nine constructors to a table. `PayThreads` is the same service under concurrency: the read, each counter
increment and each locked update of a call are steps of their own, and calls, constructors and resets
interleave at will. `PayRecords` says what one update keeps, `PayThreads` what every interleaving keeps, and
`PayRuns` what holds when calls do not overlap; it also shows that runs of such calls are among the
interleavings. `PayStories` goes from the request to the answer: what a merchant reads of a payment is told by
the request and by the calls that were let through. Amounts are 64-bit and wrap around as Go's do. Freedom
records carry no bank, as in the code.

**Stores** (`Scenarios`, `RequestLog`). Slices rewritten in place over shared arrays, against
lists that only grow.

**QR life cycle** (`QrLife`, `QrStory`). Status changes and refund confirmations race the goroutine that
expires a code.

Some of what the code or its documentation suggests turned out to hold only under a condition; the lemmas
give the condition:

- A signed reply verifies at the receiver exactly when every signed value is its own trimmed,
  CR-free self and every leaf consists of legal characters (`VerifiesExactlyWhenStable`). The reply to a
  request that carries no signature breaks this: its description ends in a space (`InvalidSignatureReply`),
  although docs/signature.md:75 calls that reply validly signed.
- `RemoveTag` and `ReplaceTagValue` edit the first tag of that name, wherever it is. Removing is deleting the
  key exactly when the key prints one element, the first of that name and with no namesake inside, or prints
  nothing and has no namesake anywhere (`RemoveTagExactly`; `RemoveAbsentTag` for a key that is not at top
  level). A namesake nested before the key always spoils it (`RemoveHitsEarlier`); one after it does no harm.
  `ReplaceTagExactly` and `ReplaceAbsentTag` say the same of setting a key.
- A cancelled payment can still be captured by a call that read it before (`CaptureOutlivesCancel`);
  nothing but such a late write takes it out of CANCELLED (`CancelledIsLeftByLateWrites`).
- A partly refunded payment can show nothing refunded: a refund at any of the banks that brings the 64-bit sum
  to exactly two to the 64th does it and nothing else does (`RefundWrapsToZero`), it stays so until money moves
  back again (`PartialIsPositive`), and two refunds are enough to get there (`RefundsMayWrap`).
- An operation id with the mock's prefix is resolved without looking whether such a payment exists
  (`FastPathAgreesWithScan`).
- Expiry can lose a live QR code: the goroutine makes its context before its timer, and leaves by the branch
  of its context when it still sleeps, with the code live, once the context is up. That is possible exactly
  then, in every reachable state (`ExpiryMayAbandon`). A wake-up a second late is enough, and so is a
  punctual one after a pause of a second between making the two (`PauseAndSleep`). Otherwise expiry ends
  the code (`ExpiryEndsTheCode`).

`ensureReference` and the fallback reference generator never change a record made by the service; the script
names of responses follow internal/ports/api/pay/handler.go:78-81, not docs/signature.md:46-49.

## Model

| member | source | states |
|---|---|---|
| OrdMaps.Fields.Set | internal/infrastructure/freedompay/signature.go:35-43 | the loop over the slice in place is the list function SetKey, whose laws follow |
| OrdMaps.Fields.Delete | internal/infrastructure/freedompay/signature.go:56-63 | the loop removes the first occurrence and keeps the order of the rest |
| OrdMaps.Fields.WithoutKeyCopy | internal/infrastructure/freedompay/signature.go:76-85 | a copy without any pair of that key; the slice itself is untouched |
| OrdMaps.Fields.KeysInOrder | internal/infrastructure/freedompay/signature.go:66-73 | the sorted permutation of the keys |
| OrdMaps.GetAfterSet | internal/infrastructure/freedompay/signature.go:35-53 | after Set, Get sees the new value at that key and the old one everywhere else, and keys stay unique |
| OrdMaps.GetAfterDelete | internal/infrastructure/freedompay/signature.go:46-63 | after Delete the key is gone and every other key reads as before |
| OrdMaps.DeleteIsWithout | internal/infrastructure/freedompay/signature.go:56-85 | on unique keys deleting the first occurrence and copying without the key agree |
| Text.TrimSpaceFixes | internal/infrastructure/freedompay/xml.go:48 | trimming yields a trimmed string and leaves exactly the trimmed strings alone |
| Text.IndexIsFirst | internal/infrastructure/freedompay/replace.go:9 | a found position is an occurrence, and no occurrence comes before it |
| Text.SortedIsUnique | internal/infrastructure/freedompay/signature.go:71 | two sorted lists with the same elements are equal, which is why sorting by key fixes the signed text |
| Signature.SignIgnoresInsertionOrder | internal/infrastructure/freedompay/signature.go:90-141 | maps equal up to the order of keys at every level of nesting have the same signature |
| Xml.Render | internal/infrastructure/freedompay/xml.go:181-192 | printing into a builder gives the text the printing function describes |
| Xml.RenderFields | internal/infrastructure/freedompay/xml.go:194-214 | the loop over pairs appends exactly the printed pairs, nested maps and lists included |
| Xml.DecodeEscaped | internal/infrastructure/freedompay/xml.go:216-225 | unescaping an escaped string gives it back with line ends normalized, and fails exactly on illegal characters |
| Xml.TokenizePairs | internal/infrastructure/freedompay/xml.go:194-214 | printed pairs followed by any text tokenize to the tokens of those pairs followed by the tokens of the text |
| Xml.TokenizeResponse | internal/infrastructure/freedompay/xml.go:181-192 | a whole printed response tokenizes to its declaration, its root and the tokens of its pairs, or breaks at the first illegal leaf |
| XmlParser.Merge | internal/infrastructure/freedompay/xml.go:103-117 | a repeated child collects nested maps into a list and otherwise follows the branches of the type switch |
| XmlParser.DecodeElementValue | internal/infrastructure/freedompay/xml.go:126-177 | the token loop returns the value and the rest of the tokens that the recursive description gives, or an error where it fails |
| XmlParser.DecodeChildren | internal/infrastructure/freedompay/xml.go:86-123 | likewise for the loop over the children of the root |
| XmlParser.ParseRequestXML | internal/infrastructure/freedompay/xml.go:47-66 | for every text the modelled tokenizer reads or refuses: always terminates, with the map or the error of the parsing function; empty input and input without a root are empty maps |
| XmlParser.Rebuild | internal/infrastructure/freedompay/xml.go:61-65 | setting the parsed pairs one by one into a new map |
| XmlParser.LoopsAgree | internal/infrastructure/freedompay/xml.go:86-177 | the two copies of the child-merging loop read the same map off the same tokens |
| XmlParser.LoopReadsPairs | internal/infrastructure/freedompay/xml.go:126-177 | the loop, run on the tokens of printed pairs, appends their normal form to what it has, or fails if a leaf is illegal |
| XmlParser.ParsePrinted | internal/infrastructure/freedompay/xml.go:47-214 | for every tree, parsing its print gives its normal form, or a syntax error exactly when some leaf is illegal |
| Spacing.SpacingIsInvisible | internal/infrastructure/freedompay/xml.go:47-177 | any white space before elements and closing tags, another at each place and at every depth, changes nothing of what is parsed; nor does any other text, where every nested map has an element for it to stand beside |
| Spacing.ParseSpaced | internal/infrastructure/freedompay/xml.go:47-177 | a request so spaced parses to the normal form of its map, or to a syntax error exactly when a leaf is illegal |
| Spacing.RootReadsLaid | internal/infrastructure/freedompay/xml.go:68-177 | the same on tokens, with processing instructions anywhere and each leaf delivered in any number of pieces, whose texts add up |
| Spacing.TextIsEmptyRequest | internal/infrastructure/freedompay/xml.go:47-84 | a text without tags, the empty one included, is the empty map, or a syntax error exactly when it is no character data |
| RepeatedTags.RepeatedTagsCollect | internal/infrastructure/freedompay/xml.go:98-118 | whatever children come in whatever order, a name holds all its maps in order, one alone as itself, or its last text when it has no map |
| RepeatedTags.RepeatedTagsParse | internal/infrastructure/freedompay/xml.go:47-177 | so does the map parsed from a printed request whose tags repeat |
| Xml.TokensAreNested | internal/infrastructure/freedompay/xml.go:56 | of every text the tokens are nested: a closing tag matches the innermost open element and the text does not end inside one |
| Xml.DecodeRefuses | internal/infrastructure/freedompay/xml.go:56 | character data is refused exactly when an ampersand starts none of the five entities, `]]>` occurs or a character is illegal |
| Canonical.ParseIsCanonical | internal/infrastructure/freedompay/xml.go:47-177 | for every text that the modelled tokenizer reads, the parser only returns normal forms: unique keys, trimmed CR-free leaves, no empty map, lists of two or more non-empty maps |
| Canonical.ElementIsCanonical | internal/infrastructure/freedompay/xml.go:126-177 | on every stream of tokens with legal CR-free text and names, from whatever tokenizer, a parsed element is in normal form and never a list by itself |
| Canonical.WireFixes | internal/infrastructure/freedompay/xml.go:163-176 | a leaf comes back unchanged exactly when it is trimmed and has no CR |
| Canonical.NormFixes | internal/infrastructure/freedompay/xml.go:86-177 | the normal form of a tree is the tree itself exactly when it is canonical |
| Canonical.RoundTripExactlyOnCanonical | internal/infrastructure/freedompay/xml.go:47-214 | parse after print is the identity on the canonical trees and on no others |
| Canonical.ReparseIsStable | internal/infrastructure/freedompay/xml.go:47-214 | printing and parsing again whatever was parsed changes nothing |
| SignedValues.CollectIsSortedFlat | internal/infrastructure/freedompay/signature.go:108-141 | looking keys up in sorted order collects the same values as sorting the pairs and walking them |
| SignedValues.ValuesSurviveWire | internal/infrastructure/freedompay/signature.go:108-141 | the signed values of the normal form are the signed values of the tree, each trimmed and with empty ones dropped: empty maps and lists, single elements and mixed lists lose nothing |
| SignedValues.ParsedValuesAreWireValues | internal/infrastructure/freedompay/signature.go:108-141 | the same through printing and parsing |
| SignedResponse.SignedXml | internal/ports/api/pay/handler.go:217-223 | the body is the print of the fields with the salt and then the signature over them set |
| SignedResponse.SignedTextIsCat | internal/infrastructure/freedompay/signature.go:90-100 | the signed text is the script name unless empty, then each value, each followed by a semicolon, then the secret |
| SignedResponse.AcceptsComparesTexts | internal/ports/api/pay/handler.go:217-223 | the receiver, parsing the body and verifying its pg_sig, accepts exactly when every leaf is legal and the two signed texts hash alike |
| SignedResponse.TextsAgree | internal/infrastructure/freedompay/signature.go:90-141 | the text that is signed survives the wire exactly when every signed value does by itself |
| SignedResponse.CatStable | internal/infrastructure/freedompay/signature.go:90-100 | trimming values can only shorten the joined text, and leaves it alone exactly when it leaves each value alone |
| SignedResponse.SignedResponseVerifies | internal/ports/api/pay/handler.go:217-223 | a signed response with stable values and legal leaves verifies after the wire, under every hash |
| SignedResponse.VerifiesExactlyWhenStable | internal/ports/api/pay/handler.go:217-223 | it verifies under all hashes if and only if its values are stable and its leaves legal |
| TagSurgery.RemoveTagIsDelete | internal/infrastructure/freedompay/replace.go:22-34 | the good half: cutting the first tag out of a print equals printing the map without the key when the key is nowhere before it, not in its own value and is not the root; RemoveTagExactly is the whole truth |
| TagSurgery.ReplaceTagIsSet | internal/infrastructure/freedompay/replace.go:6-18 | the good half likewise: splicing an escaped value into the first tag equals printing the map with the key set |
| TagSurgery.RemoveAbsentTag | internal/infrastructure/freedompay/replace.go:22-34 | for a key that is not at top level the cut changes nothing if and only if no nested tag has that name |
| TagSurgery.TagNotFound | internal/infrastructure/freedompay/replace.go:23-27 | the tag of a key used nowhere in the tree does not occur in the print, whatever the leaves contain |
| TagSurgery.RemoveTagShortens | internal/infrastructure/freedompay/replace.go:22-34 | where the tag does occur the body gets shorter |
| TagExact.RemoveTagExactly | internal/infrastructure/freedompay/replace.go:22-34 | for a key that the top level holds, cutting the tag is deleting the key if and only if it prints one element, the first of that name and with no namesake inside, or it prints nothing and no other element has the name |
| TagExact.RemoveHitsEarlier | internal/infrastructure/freedompay/replace.go:22-34 | with a namesake nested before the key the cut never gives the print without the key, whatever was cut |
| TagExact.ReplaceTagExactly | internal/infrastructure/freedompay/replace.go:6-18 | replacing the content is setting the key if and only if the key prints one element, the first of that name and with no namesake inside, or the key and the earlier namesake that is found both hold that text already |
| TagExact.ReplaceAbsentTag | internal/infrastructure/freedompay/replace.go:6-18 | a key that the top level does not hold is never set by replacing its tag |
| ScenarioReplies.StripTerminalFieldsIfNonTerminal | internal/ports/api/pay/scenario.go:127-144 | for the three non-terminal statuses the method becomes none and the seven terminal fields go; otherwise nothing changes |
| ScenarioReplies.ApplyScenarioAfter | internal/ports/api/pay/scenario.go:91-122 | each action edits the fields as the edit function says, the garbage loop included |
| ScenarioReplies.Reply | internal/ports/api/pay/handler.go:183-212 | handler result, scenario edits, signing and the passes over the printed body, in that order |
| ScenarioReplies.RespondFailure | internal/ports/api/pay/handler.go:240-255 | the signed error reply, leaving out an empty code or description |
| ScenarioReplies.ScenarioKeepsUnsigned | internal/ports/api/pay/scenario.go:91-144 | no edit, whatever its parameters, introduces a signature, a repeated key or an illegal name |
| ReplyEdits.EditShows | internal/ports/api/pay/scenario.go:91-144 | field by field, each edit shows exactly what it is for - status, both amounts, payment id, the removed field, the garbage, the stripped fields of an unsettled status - and every other field reads as before |
| ReplyEdits.FailureShows | internal/ports/api/pay/handler.go:240-247 | the error reply reads as an error, with its code and description under their own names unless empty |
| ScenarioReplies.EditedReplyVerifies | internal/ports/api/pay/handler.go:183-212 | a reply edited before signing verifies under all hashes if and only if its edited leaves survive the wire |
| ScenarioReplies.ForgedReplyIsRejected | internal/ports/api/pay/handler.go:196-198 | the invalid_signature reply is rejected unless the true digest happens to be 32 zeros |
| ScenarioReplies.MissingFieldIsGone | internal/ports/api/pay/handler.go:199-205 | the tag of the missing field does not occur in the body, which is otherwise the signed reply without it |
| ScenarioReplies.MissingSignatureIsRejected | internal/ports/api/pay/handler.go:199-205 | a reply whose pg_sig was cut out verifies under no hash |
| ScenarioReplies.MissingSaltIsRejected | internal/ports/api/pay/handler.go:199-205 | once pg_salt is cut out after signing the receiver signs a strictly shorter text, so under every hash the reply is accepted only on a collision of the two texts |
| ScenarioReplies.InvalidSignatureReply | internal/ports/api/pay/handler.go:160-165 | the reply that quotes a bad signature verifies if and only if that signature is not empty |
| Decimal.ParseFormatUint | internal/ports/api/epay/handler.go:302 | decimal text of any 64-bit number parses back to it |
| Decimal.ParseFormatInvoice | internal/infrastructure/epay/invoice.go:15-41 | an order id formatted as an invoice id parses back, for every 64-bit number |
| Decimal.FormatParseInvoice | internal/infrastructure/epay/invoice.go:15-41 | formatting a parsed invoice id gives it back exactly for canonical padded decimals |
| PayStore.PayRepo.NextPaymentID | internal/infrastructure/memstore/pay.go:52-54 | increments the counter and nothing else |
| PayStore.PayRepo.Create | internal/infrastructure/memstore/pay.go:63-80 | stores the record with its creation entry and indexes a non-zero order |
| PayStore.PayRepo.Get | internal/infrastructure/memstore/pay.go:83-91 | the stored record, or not found |
| PayStore.PayRepo.Update | internal/infrastructure/memstore/pay.go:107-124 | applies the closure, and moves status and history only on a real change without error |
| PayStore.PayRepo.Transition | internal/infrastructure/memstore/pay.go:128-147 | an update guarded by the allowed statuses, stamping times and filling a missing reference or captured sum |
| PayStore.PayRepo.Reset | internal/infrastructure/memstore/pay.go:159-164 | empties the store and keeps the counter |
| PayStore.Service.Hold | internal/application/pay/service.go:170-185 | new store and answer are those of the atomic description, error cases included |
| PayStore.Service.MakeReference | internal/application/pay/service.go:457-472 | skipping the update when a reference is there equals making it |
| PayStore.Service.Capture | internal/application/pay/service.go:188-209 | captures the given or the whole amount of an AUTHORIZED payment, else fails and changes nothing |
| PayStore.Service.Cancel | internal/application/pay/service.go:212-226 | cancels an AUTHORIZED payment, else fails and changes nothing |
| PayStore.Service.RevokeWithOutcome | internal/application/pay/service.go:236-276 | lists a refund under its own number in any case and adds it to the refunded sum only on success |
| PayStore.Service.AuthorizeWallet | internal/application/pay/service.go:344-363 | authorizes, then records a given kind, then sees to the reference |
| PayStore.Service.ApplyForce | internal/application/pay/service.go:392-413 | moves to any status without a check and adjusts the sums for CAPTURED and REFUNDED |
| PayStore.Service.EpayChargeOp | internal/application/pay/epay.go:207-230 | charge of an Epay hold, a non-positive amount meaning all |
| PayStore.Service.EpayCancelOp | internal/application/pay/epay.go:233-245 | cancellation of an Epay hold |
| PayStore.Service.EpayRefundOp | internal/application/pay/epay.go:249-275 | refund of an Epay payment, a non-positive amount meaning the rest |
| PayStore.Service.EpayRevealOp | internal/application/pay/epay.go:102-112 | clears the hidden-until time of an Epay operation, refuses other banks |
| PayStore.Service.FlittCaptureOp | internal/application/pay/flitt.go:260-283 | capture of a Flitt hold |
| PayStore.Service.FlittReverseOp | internal/application/pay/flitt.go:287-317 | cancels a hold, refunds a captured payment, refuses the rest |
| PayStore.Service.FlittComplete3DSOp | internal/application/pay/flitt.go:342-360 | authorizes a NEW Flitt payment and answers a later one as it is |
| PayStore.Service.NewPayment | internal/application/pay/service.go:128-341 | the constructors: validation, a fresh number, creation, the updates of the card outcome and the verdict |
| PayOutcomes.EveryCallIsTabled | internal/application/pay/service.go:170-413 | on every store each of the thirteen calls is let through exactly on the statuses and banks of one table, then moves status and sums of that one payment as the table says; a refused call changes nothing at all |
| PayOutcomes.EveryCreationIsTabled | internal/application/pay/flitt.go:48-254 | a constructor refuses bad input without a trace, else adds exactly one payment under the next number, standing where its card outcome puts it |
| PayStories.CreationGrantsTheWish | internal/application/pay/service.go:128-341 | what a constructor stores carries the bank, order, kind, amount, currency or its default, contacts, invoice and time to show of the request, and is indexed under its order |
| PayStories.CreationIsNoted | internal/application/pay/epay.go:60-80 | the times of holding and taking, the card given and the notes of a decline, for each constructor |
| PayStories.CreationSaysWhy | internal/application/pay/flitt.go:48-254 | a constructor reports bad input exactly when something it needs is missing, a decline exactly for a declined Flitt card, and nothing else |
| PayStories.WholeCaptureTakesTheWish | internal/application/pay/service.go:188-209 | over every run, forced calls included, a capture of the whole by any of the three banks takes the amount asked for in the constructor |
| PayStories.IdentityLasts | internal/infrastructure/memstore/pay.go:107-147 | over every run, forced calls included, a stored payment keeps its identity until the store is cleared |
| PayStories.RefusalSaysWhy | internal/application/pay/service.go:170-276 | not found exactly for an unknown payment; else already authorized, invalid transition or invalid state by call and status |
| PayStories.CallMarks | internal/application/pay/service.go:344-363 | a wallet that names a kind sets it and an authorization stamps its time; no other call writes either |
| PayStories.StatusTellsTheStory | internal/application/pay/service.go:128-413 | over every run, a payment that nobody forces has the status that its constructor and the authorizations, captures, cancellations and refunds let through since give it, and has taken what its one capture named |
| PayStories.FreedomAnswerTellsTheStory | internal/ports/api/pay/handlers.go:86-153 | a merchant reads failed after a declined constructor, else revoked for good after a cancellation, else success after a hold, a capture or a refund, else process; amount, sum taken, number, order and reference read back from their text |
| PayStories.EpayAnswerTellsTheStory | internal/ports/api/epay/handlers.go:267-302 | likewise the Epay codes FAILED, CANCEL, REFUND, CHARGE, AUTH and NEW, whenever an answer is given |
| PayRecords.FailedChangesNothing | internal/infrastructure/memstore/pay.go:107-124 | an update that fails leaves the record as it was |
| PayRecords.HistoryGrowsWithStatus | internal/infrastructure/memstore/pay.go:107-124 | an update adds one entry from the old to the new status exactly when the status moves |
| PayRecords.ChangeKeepsFaithful | internal/infrastructure/memstore/pay.go:107-147 | the history stays a run: it starts at creation, entries join up, neighbours differ, the last is the status |
| PayRecords.ChangeKeepsAuthorizedOnce | internal/infrastructure/memstore/pay.go:128-147 | no change of the service, whatever state it meets, authorizes a second time |
| PayRecords.ChangeKeepsIdentity | internal/domain/pay/payment.go:75-151 | no change touches bank, ids, order, amount, currency, invoice or creation time; a hidden operation is only ever revealed |
| PayRecords.ReferenceIsNeverRenewed | internal/application/pay/service.go:457-472 | with the reference in place ensureReference changes nothing and the fallback generator is never asked |
| PayRecords.RefundOpEffect | internal/application/pay/service.go:249-269 | what one Freedom refund does to list, sums and status, for each outcome |
| PayRecords.ChangeKeepsConserved | internal/application/pay/service.go:249-269 | the refunded sum stays the 64-bit sum of the successful listed refunds, through wrap-around and sign conversion |
| PayRecords.RefundedIsTheSum | internal/application/pay/service.go:249-269 | it is the plain sum if and only if that sum fits 64 bits |
| PayThreads.FireKeepsNumbers | internal/infrastructure/memstore/pay.go:52-164 | every step of every call keeps each issued number in one place: a call in flight, a record or a refund list |
| PayThreads.FireKeepsRecords | internal/infrastructure/memstore/pay.go:63-147 | every step keeps every record sound, and a refund under way only where money was once captured |
| PayThreads.NumbersNeverRepeat | internal/infrastructure/memstore/pay.go:52-80 | over every interleaving, resets and forced calls included, payment and refund numbers are handed out once and sit in one place |
| PayThreads.HistoryIsFaithful | internal/infrastructure/memstore/pay.go:107-147 | over every interleaving, forced calls included, each history is faithful and each reference is its base plus the payment number |
| PayThreads.AuthorizedOnceAndConserved | internal/application/pay/service.go:170-276 | over every interleaving a record that nobody forces is authorized at most once and its refunds add up, whatever is forced on other payments |
| PayThreads.CancelledIsLeftByLateWrites | internal/application/pay/service.go:193-203 | in every reachable state a step takes a payment that nobody forces out of CANCELLED if and only if it is the late write of a capture or of a constructor's own decline |
| PayThreads.CaptureOutlivesCancel | internal/application/pay/service.go:193-203 | from any authorized payment, a capture that read it before a cancellation ends in CAPTURED, over an edge that is not allowed |
| PayRuns.CallsKeepTidy | internal/application/pay/service.go:170-276 | over every run the records that nobody forces stay tidy and, without a reset, only grow: histories extend, ranks climb, final statuses and the face of a captured payment stay |
| PayRuns.CallsAreInterleaving | internal/application/pay/service.go:170-276 | every run of calls that do not overlap is one of the interleavings, step by step |
| PayRuns.CallsStaySound | internal/application/pay/service.go:170-276 | so what holds of all interleavings holds of such runs, for every payment that nobody forces |
| PayRuns.StatusFixesMoney | internal/application/pay/service.go:188-276 | over every run, for a payment of any bank that nobody forces, the status fixes the sums, every edge is allowed and a history has at most five entries |
| PayRuns.PartialIsPositive | internal/application/pay/service.go:249-269 | after any run a PARTIAL_REFUNDED payment that nobody forced has given back less than was captured, and nothing at all if and only if the last call that moved its money back completed the 64-bit wrap |
| PayRuns.RefundWrapsToZero | internal/application/pay/service.go:260-268 | in every reachable store a refund by Revoke, EpayRefund or FlittReverse leaves PARTIAL_REFUNDED with nothing refunded if and only if the refunded sum and the amount make two to the 64th |
| PayRuns.CallZeroes | internal/application/pay/service.go:236-276 | and on every tidy record no other call, short of forcing the payment, brings that state about or ends it |
| PayRuns.RefundsMayWrap | internal/application/pay/service.go:260-268 | five calls that end there: a hold of 5 is captured, 1 is refunded, then two to the 64th less 1 |
| PayRuns.FinalIsForever | internal/domain/pay/payment.go:188-202 | CANCELLED, REFUNDED and FAILED are never left by a payment that nobody forces, and its sums and refunds never change |
| PayRuns.RefundOfTheRest | internal/application/pay/service.go:244-268 | in reachable states captured minus refunded does not wrap, and refunding the rest ends REFUNDED with both sums equal, at each bank |
| PayRuns.HoldIsRefused | internal/application/pay/service.go:170-185 | a Hold on a payment that has left NEW is refused and writes nothing |
| PayRuns.RepeatedHoldChangesNothing | internal/application/pay/service.go:170-185 | after a successful Hold and any calls short of forcing the payment, a second Hold fails and changes nothing |
| StatusAnswers.FindStatusRecord | internal/ports/api/pay/handlers.go:349-363 | finds the named payment, or one that no other payment of the order is younger than, and fails only when there is none |
| StatusAnswers.HandleStatus | internal/ports/api/pay/handlers.go:86-153 | answers as one of the permitted replies, with the two error cases |
| AnswerFields.AnswerShowsNumbers | internal/ports/api/pay/handlers.go:100-123 | number, order, amount, sum taken and reference of an answer read back as those of the payment, hidden refunds or not |
| AnswerFields.AnswerShowsTexts | internal/ports/api/pay/handlers.go:107-150 | currency, times, the flag of money taken and the error of a declined payment read as those of the payment |
| AnswerFields.StatusIsShown | internal/ports/api/pay/handlers.go:108 | pg_payment_status holds the word for the status, whatever is set after it |
| AnswerFields.OrderAnswerShowsLastRefund | internal/ports/api/pay/handlers.go:94-98 | asked by order, a refunded payment answers with the number, outcome, time and negated amount of its last refund, and nothing cleared |
| AnswerFields.ListedRefundsRead | internal/ports/api/pay/handlers.go:325-345 | each listed refund reads back under its own number, reference and time, in order |
| StatusAnswers.SetRefundPayments | internal/ports/api/pay/handlers.go:325-345 | the loop lists one child per refund, in order, and nothing when there is none |
| StatusAnswers.HiddenRefundsLeaveNoTrace | internal/ports/api/pay/handlers.go:86-153 | after a capture and any calls short of forcing the payment, revokes with any outcome among them, the answer that hides refunds is the answer given right after the capture |
| StatusAnswers.HiddenRepliesAreOldReplies | internal/ports/api/pay/handlers.go:86-153 | the same for replies, by payment id, and by order id while no other payment of the order is as young |
| StatusAnswers.RefundsAreShown | internal/ports/api/pay/handlers.go:127-130 | the revoked amount appears, negated, exactly when it is not zero, and every refund is listed |
| StatusAnswers.ChildrenReadBack | internal/ports/api/pay/handlers.go:325-345 | the successful listed children, read back from their text, sum up to the refunds |
| StatusAnswers.RevokedAmountIsListedSum | internal/ports/api/pay/handlers.go:127-130 | over every interleaving the reported revoked amount of a payment that nobody forces is the sum of the successful children of the same answer; failed and pending ones add nothing |
| EpayStatus.PaymentByInvoice | internal/ports/api/epay/handlers.go:324-340 | the loop finds the visible operation of the invoice with the largest number, or there is none |
| EpayStatus.InvoiceReadsAreMonotone | internal/ports/api/epay/handlers.go:308-340 | with a clock that does not go back and no reset, an invoice once found stays found and never by an older operation |
| EpayStatus.LateShowsExactlyFromItsTime | internal/domain/pay/payment.go:153-156 | over every interleaving, an operation is read by id if and only if its time has come or a step has revealed it; by invoice it is then found, or a later one, and before it is not |
| EpayStatus.LateStartsAtWork | internal/application/pay/epay.go:60-80 | a late operation is created AUTHORIZED or CAPTURED, with the given time |
| EpayStatus.NewIsOnlyTheBeginning | internal/ports/api/epay/handlers.go:267-302 | an operation that nobody forces reads as NEW only if it was created NEW and has not moved |
| EpayStatus.LateNeverReadsAsNew | internal/ports/api/epay/handlers.go:267-320 | an operation created at work and never forced never has the status code NEW, in any interleaving |
| EpayStatus.EpayRevealInvoice | internal/application/pay/epay.go:84-99 | every hidden operation of the invoice becomes visible, all else stays, and the count is that of the hidden ones |
| EpayStatus.ResolveOperation | internal/ports/api/epay/handler.go:295-325 | the number in a mock id, else the scan by id, else nothing |
| EpayStatus.ScanByEpayID | internal/ports/api/epay/handlers.go:172-180 | the scan finds a payment with that id, or there is none |
| EpayStatus.StoredOperationIsFound | internal/ports/api/epay/handler.go:309-325 | in every reachable state a stored Epay payment is found by its own id, by the parsing path and by the scan alike |
| EpayStatus.FastPathAgreesWithScan | internal/ports/api/epay/handler.go:309-325 | the two agree if and only if the id holds no number or the number is that of a stored Epay payment with exactly this id |
| Scenarios.ScenarioStore.Add | internal/infrastructure/memstore/scenario.go:27-37 | appends, naming a nameless rule by the counter, into the same array or a bigger copy |
| Scenarios.ScenarioStore.Remove | internal/infrastructure/memstore/scenario.go:40-50 | the filter into its own backing array keeps exactly the other rules in order |
| Scenarios.ScenarioStore.Match | internal/infrastructure/memstore/scenario.go:73-88 | the first matching rule is counted, copied out and, if consume-once, deleted in place |
| Scenarios.ScenarioStore.DeleteAt | internal/infrastructure/memstore/scenario.go:82-84 | the shift to the left inside the array removes exactly that rule |
| Scenarios.MatchRefines | internal/infrastructure/memstore/scenario.go:73-88 | matching the store is matching the live rules of the immutable list |
| Scenarios.AnswersConcernTheRequest | internal/domain/scenario/scenario.go:217-238 | after any run the answering rule is the first that leaves open or names every field of the request, and each rule before it, or every rule when there is no answer, names a field on which the request differs |
| Scenarios.NamesAreDistinct | internal/infrastructure/memstore/scenario.go:30-32 | no two nameless rules of a run get the same name; a name given is kept |
| Scenarios.StoreRefinesList | internal/infrastructure/memstore/scenario.go:27-88 | on every trace the store holds the live rules of the immutable list and gives the same answers |
| Scenarios.ConsumeOnceFiresOnce | internal/infrastructure/memstore/scenario.go:80-85 | a consume-once rule answers at most once in a run |
| Scenarios.TransientFailsTheFirst | internal/ports/api/epay/scenario.go:54-63 | a transient failure that starts unused fails exactly the first request it matches |
| RequestLogs.RequestLog.constructor | internal/infrastructure/memstore/requestlog.go:23-31 | an empty log of the given capacity, 200 when that is not positive |
| RequestLogs.RequestLog.Append | internal/infrastructure/memstore/requestlog.go:42-45 | in place or into a bigger copy, the window grows by the entry |
| RequestLogs.RequestLog.Push | internal/infrastructure/memstore/requestlog.go:41-45 | a full window slides by one before it grows by one |
| RequestLogs.RequestLog.Add | internal/infrastructure/memstore/requestlog.go:34-46 | the window is the last entries of everything added, with consecutive ids |
| RequestLogs.RequestLog.List | internal/infrastructure/memstore/requestlog.go:49-58 | the last capacity entries since the reset, newest first: position k holds the entry k before the newest |
| RequestLogs.RequestLog.Get | internal/infrastructure/memstore/requestlog.go:61-71 | succeeds exactly for the ids in the window, with the entry of that id |
| RequestLogs.RequestLog.Reset | internal/infrastructure/memstore/requestlog.go:74-78 | empties the window and goes on counting |
| RequestLogs.LastAppend | internal/infrastructure/memstore/requestlog.go:41-45 | dropping the oldest of a full window before appending keeps the last entries of the whole |
| QrLife.QRRepo.UpdateStatus | internal/infrastructure/memstore/qr.go:66-83 | refuses unknown and terminal codes, else sets the status and, on success, a transaction id |
| QrLife.QRRepo.ApplyRefundConfirmation | internal/infrastructure/memstore/qr.go:142-167 | succeeds only for a scanned refund code, with the four refusals in order |
| QrLife.QRRepo.MarkWebhookSent | internal/infrastructure/memstore/qr.go:86-99 | marks terminal codes only |
| QrLife.QRService.ChangeStatus | internal/application/qr/service.go:97-106 | a webhook starts exactly when the change went through and ended the code |
| QrLife.QRService.SendWebhook | internal/application/qr/service.go:109-116 | a manual webhook for terminal codes only |
| QrLife.FireKeepsInv | internal/application/qr/service.go:97-158 | every step of the concurrent system keeps endings single, webhooks true, transaction ids growing and timers final |
| QrLife.TerminalIsForever | internal/infrastructure/memstore/qr.go:66-83 | in every interleaving a code ends at most once and keeps that status as long as it is stored |
| QrStory.ChangeTakesEffect | internal/application/qr/service.go:97-106 | in every reachable state a change of a code goes through unless one of the four endings came before; an ending sends one webhook and stays for good |
| QrStory.RefundsAreEarned | internal/infrastructure/memstore/qr.go:142-167 | over every run, what a confirmation ended was made for a refund and had been scanned, and a refunded sum is that of a confirmation made |
| QrStory.ConfirmationTakesEffect | internal/infrastructure/memstore/qr.go:142-167 | a confirmation goes through exactly for a scanned refund code, which then holds its sum, reference and parent |
| QrStory.MarkTakesEffect | internal/infrastructure/memstore/qr.go:86-99 | a manual webhook goes out exactly for an ended code and marks it |
| QrLife.OneWebhookWithTheFinalStatus | internal/application/qr/service.go:97-165 | automatic webhooks match one for one the endings other than confirmed refunds, so at most one a code; every webhook carries the final status |
| QrLife.TransactionIDsAreDistinct | internal/infrastructure/memstore/qr.go:77-80 | under a clock that does not go back no transaction id is issued twice |
| QrLife.ExpiryEndsTheCode | internal/application/qr/service.go:139-158 | over every run, a goroutine that is over leaves no live code behind unless it took the branch of its context while the code was live, at or after the context's end |
| QrLife.ExpiryMayAbandon | internal/application/qr/service.go:139-158 | in every reachable state some step ends a running goroutine with its code live if and only if it sleeps with the code live and its context, made before its timer, is up |
| QrLife.PauseAndSleep | internal/application/qr/service.go:140-146 | a goroutine that pauses between making context and timer and then sleeps wakes by its timer after 300 seconds of sleep, and can lose its code exactly when pause and sleep add up to 301 seconds, so also with a punctual wake-up |

## Left out

- HTTP routing, JSON bodies, delays and connection faults, outgoing webhook clients, logging: plumbing without a property of its own. Webhooks appear only as events of the QR model.
- The HTML panel, the Epay widget, configuration, QR images, the preset catalogue, error texts and test-card tables, Loyalty and Kaspi: data or code without guards worth a proof.
- XML names are ASCII letters, digits, `_`, `-` and `.`; attributes, comments, CDATA, namespaces, numeric character references and document types are errors of the modelled tokenizer, though Go's decoder reads them. The printer writes none of them.
- Self-closing tags `<k/>`, blanks inside tags such as `<k >`, and what Go checks in `<?xml ...?>` (version and encoding) are not modelled either: the first two are errors of the modelled tokenizer though Go reads them, and of a declaration only its end is looked for.
- ParseRequestXML: speaks of the modelled tokenizer, see the two lines above; the loops themselves are proved on every stream of tokens (`DecodeElementValue`, `DecodeChildren`).
- ParseIsCanonical: speaks of the texts that the modelled tokenizer reads; `ElementIsCanonical` does not depend on a tokenizer.
- Strings are sequences of Unicode characters; bytes that are not UTF-8 are not modelled. Code point order is the byte order by which Go sorts.
- Values of fields are strings, maps and lists of maps. `collectValues` also takes byte slices and other Go values; nothing in the repository passes them.
- `Fields` holds its pairs as one sequence; that two Go slices may share a backing array after `Set` or `Delete` is not modelled.
- MissingSaltIsRejected: assumes that no field nested in the reply is called pg_salt, so that the salt is what is cut out; the service's own replies nest nothing but refunds, which have no such field.
- Payment numbers are unbounded naturals; that a 64-bit counter can wrap is not modelled. `StoredOperationIsFound` and the decimal codecs state the 64-bit bound.
- `NextReference` is some number made from the clock; it is never used, see `ReferenceIsNeverRenewed`.
- Histories carry no times, and force reasons no status name; fields of a record that no modelled code reads (merchant, terminal, redirect and callback addresses, 3DS data, webhook flags) are absent.
- Statuses of a payment form a closed set; the panel may force any text as a status.
- `FlittStatus`, `List` as an operation of its own and the sorted listing of scenarios: lookups that only read. Where their result matters it is a parameter with its defining property.
- HandleStatus: says which reply is given; what a reply tells is stated by `FreedomAnswerTellsTheStory`, for payments that nobody forces, and by `AnswerShowsNumbers`, for all. The listing it searches is a parameter, any ordering of the store by creation time; equal times may come in any order, as they do in Go.
- EpayRevealInvoice: is proved undisturbed; under concurrency each reveal is an `EpayReveal` call of `PayThreads`.
- Scenario objects are values here; a caller that keeps and changes the pointer it added is outside the model.
- Growth of a full array is to twice its length and one more; Go's own policy differs and cannot be observed.
- UUIDs of QR codes do not repeat, and webhooks count as sent when their goroutine starts, delivered or not.
- TransactionIDsAreDistinct: needs a clock that does not go back, in milliseconds; with one that does, ids can repeat.
