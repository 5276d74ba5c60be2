# Zotero research assistant: a verified model

The system connects a Zotero reference library to an OpenAI assistant. It has two parts.

- **The server** (`app.js`):
  - lists a collection's items and marks the ones that have a PDF;
  - downloads a PDF and uploads it once per document;
  - creates or updates one assistant over a vector store that holds the uploaded files;
  - runs conversation turns on threads it keeps in a process-wide cache.
- **The browser client** (`public/app.js`):
  - keeps the open collection and the selected documents;
  - drives the create-assistant pipeline (a download pass, then an upload pass);
  - builds citation strings;
  - routes chat messages to the query or continue endpoint.

This project models the decision logic of both parts in Dafny and proves what each operation promises.

## How the model is built

**Remote calls.** OpenAI, Zotero and the filesystem are oracles:
- Every remote answer is a parameter: `Reply<T>` is `Ok(value)` or `Err(message)`. A sequence of answers is a function from the call's position to its answer.
- The part of the remote service whose state matters across handlers is the class `Remote.Service`. It holds the set of live thread ids and counters of thread creations and file uploads.

**The cache.** The server's `openaiCache` object is the class `SessionCache.OpenAICache`. Its fields are maps; a missing id (JavaScript `null`/`undefined`) is `""`.

**Time.** `Date.now()` is a sequence of clock readings. `Clock.Advancing` says that successive readings lie at least the poll interval apart, which is what the `setTimeout` sleeps guarantee. This is what makes the poll loops terminate.

**Loops.** The loops of the source are `while` loops in methods:
- the batch poll, the run poll and the assistant pagination on the server;
- the remaining-page offsets and page concatenation of the collection endpoint;
- the download and upload passes of the client.

Each loop method is proved equal to a recursive specification function, and the properties are lemmas about that function.

**Modules.**

| module | what it holds |
|---|---|
| `Outcomes` | Option, Reply, Result |
| `Clock` | advancing clocks |
| `SessionCache` | the server cache |
| `Remote` | the assistant service |
| `Ingest` | file-batch ingestion |
| `Runs` | one conversation turn |
| `Assistants` | upload, load, create/update, delete |
| `Conversation` | query, continue, validate-thread |
| `Listing` | the assistant listing |
| `Collection` | collection items, PDF choice |
| `Citation` | citation strings |
| `Documents` | documents and selection entries |
| `Pipeline` | the specification of the client's passes |
| `Client` | the browser state and its handlers |

## Model

| member | source | states |
|---|---|---|
| SessionCache.OpenAICache.constructor | app.js:89-94 | the cache starts with no file ids, no assistant, no vector store and no threads |
| SessionCache.OpenAICache.GetThread | app.js:97-99 | an entry is returned exactly when the assistant has one, and it is that entry |
| SessionCache.OpenAICache.CachedFileId | app.js:419-421 | a file id is found exactly when the document has a non-empty cached id |
| SessionCache.OpenAICache.SaveThread | app.js:102-109 | the assistant's entry becomes that thread, created and accessed now, overwriting any prior entry; other assistants' entries and the other fields are unchanged |
| SessionCache.OpenAICache.UpdateThreadAccess | app.js:112-118 | reports true exactly when the assistant has an entry; then only its lastAccessed changes; otherwise nothing changes |
| SessionCache.OpenAICache.EvictThread | app.js:957 | removes exactly the assistant's entry and changes nothing else |
| Remote.Service.constructor | app.js:84-86 | the service the client talks to starts with the given live threads and no thread creation or upload issued |
| Remote.Service.CreateThread | app.js:713 | one more thread creation; a created thread becomes live; the answer is passed on |
| Remote.Service.UploadFile | app.js:437-440 | one more upload; nothing else in the service changes |
| Clock.AdvancingSpan | app.js:559-569 | on an advancing clock, j - i steps span at least (j - i) intervals |
| Assistants.Configured | app.js:590-600 | a configured assistant uses gpt-4o, the file_search tool and the one vector store |
| Assistants.Upload | app.js:410-459 | a missing file path is rejected before the cache is consulted; a cached id is answered with no upload; a missing file or a failed upload leaves the file ids unchanged; a successful upload records its id for the document |
| Assistants.UploadTwiceUploadsOnce | app.js:419-445 | uploading one document twice issues one upload and answers the same id both times |
| Assistants.LoadAssistant | app.js:462-510 | a missing id or an unknown assistant changes nothing; otherwise the assistant and its first vector store become current, and the store's file count is reported when it could be read |
| Ingest.BatchPoll | app.js:557-569 | the batch poll ends failed only on a failed status, timed out only past the 5-minute ceiling, otherwise with a status that is neither in_progress nor failed |
| Ingest.IngestSpec | app.js:546-580 | a failing submission or first fetch is an error carrying its message; every other ending saw both succeed (its poll is BatchPoll) |
| Ingest.IngestFiles | app.js:546-580 | the batch submitted holds exactly the given file ids for the given store; the submission and its poll loop compute IngestSpec, and every ending leaves the request running |
| Assistants.AnsweredAssistant | app.js:633-648 | when the store and the assistant can both be re-fetched, the answer carries the service's copy of the assistant under the current id; otherwise the assistant just configured |
| Assistants.CreateOrUpdate | app.js:513-685 | a missing name, instructions or file list is rejected with nothing changed; a vector store is created and cached only when none is cached, and a failed creation fails the request with nothing changed; the batch is submitted exactly when the request gets past the store step, and it carries this request's file ids to the cached store, the same store the answer reports and the configured assistant is bound to; ingestion never aborts the request; a failed retrieve or update falls back to a create; on success the cached assistant id is the returned one, the answered assistant is the re-fetched copy when the verification re-fetch succeeds and the configured one otherwise, and the response carries file_count equal to the number of files sent; a failure leaves the cached assistant id unchanged |
| Assistants.RepeatedRequestUpdatesSameAssistant | app.js:583-631 | a second identical request updates the assistant the first one created and answers the same |
| Assistants.DeleteAssistant | app.js:937-1012 | a confirmed deletion removes the assistant's thread entry and clears the cached assistant id only when it is the deleted one; an unconfirmed one changes nothing; a 404 reports success and leaves the cache untouched; other errors fail with the cache untouched |
| Runs.Poll | app.js:742-771 | a settled poll ends at a status one of the fetches returned |
| Runs.AwaitRun | app.js:742-771 | the run poll loop computes Poll; a cancel is requested exactly on a time-out; every fetch happens within the 120 s budget |
| Runs.PollEndsThreeWays | app.js:747-771 | the poll ends only on a terminal status, past the 120 s budget, or after a failing fetch that leaves a non-terminal status |
| Runs.PollTimesOutWhenQuiet | app.js:747-771 | when the status stays non-terminal through every fetch up to a deadline check past the 120 s budget, the poll ends in a time-out |
| Runs.FailureDetails | app.js:777 | the failure text is last_error.message when present, else 'Unknown error' |
| Runs.Classify | app.js:773-786 | no error exactly when the run completed; a time-out is the timeout error; a failed run carries its details; any other status is the "ended with status" error |
| Runs.AssistantMessages | app.js:793 | exactly the assistant-authored messages, each one from the list |
| Runs.FirstAssistantMessage | app.js:793-796 | the first assistant-authored message of the list is the first of the filtered messages |
| Runs.ExtractReply | app.js:796-815 | the reply is an answer on the given thread, or no response exactly when no message is the assistant's, or the invalid-format error (its full meaning is ExtractReplyMeaning) |
| Runs.ExtractReplyMeaning | app.js:793-815 | no response exactly when no message is the assistant's; otherwise the reply is the first text part of the first assistant message, and an empty content or a part without text is the invalid-format error |
| Runs.FirstAssistantIndex | app.js:793 | when some message is the assistant's, there is a first one |
| Runs.TurnOutcome | app.js:727-815 | a successful turn saw every remote call succeed and answers on its own thread; the turn times out exactly when the run poll does (see TurnAnswerIsGenuine and PollEndsThreeWays) |
| Runs.Converse | app.js:727-815 | one turn computes TurnOutcome, posts the prompt as the user's message on the thread, starts a run for the assistant once the message is posted, and requests a cancel exactly when the run timed out |
| Runs.TurnAnswerIsGenuine | app.js:773-815 | a successful turn saw its run complete and answers the first assistant message's text on its own thread |
| Runs.QuotaExceededTurn | app.js:773-786 | a run that fails with a quota message makes the turn fail with that message |
| Conversation.Touched | app.js:112-118 | the threads map after an access update: same assistants, only the named one's lastAccessed changed |
| Conversation.ResolveThread | app.js:700-724 | a cached thread that is live is reused, with only its lastAccessed updated and no thread created; otherwise exactly one thread is created and saved as the assistant's entry |
| Conversation.Query | app.js:688-827 | a missing prompt or assistant is rejected with nothing changed; otherwise a live cached thread is reused with only its access time touched and the service unchanged, and any other case creates exactly one thread, which is saved as the assistant's entry and made live even when the turn then fails, while a failed creation leaves the threads map as it was; the turn runs on the resolved thread, and a success answers the assistant's cached thread, having posted the prompt and started the run there for the assistant |
| Conversation.Continue | app.js:1015-1178 | the access time is updated before validation; a live thread runs the turn and becomes the assistant's cached thread; on failure a different cached thread that is live is offered as the alternative with the cache unchanged, one that is not live is evicted, and every other failure is thread-not-found; a cached thread equal to the requested one is never evicted; a success posted the prompt and started the run on the requested thread, and nothing is sent when the thread is not live |
| Conversation.ValidateThread | app.js:830-876 | a thread is valid exactly when it is live; a valid one has its assistant's entry touched; an invalid one changes nothing |
| Conversation.SecondQueryReusesThread | app.js:688-827 | two queries in a row create one thread, whatever the first turn's outcome; both turns run on it, and the second only updates its access time |
| Listing.IndexOf | app.js:887-905 | the position of the first entry with the id, or -1 when there is none |
| Listing.PageAt | app.js:887-905 | the j-th request's cursor answers the j-th block of 100 entries |
| Listing.PageStep | app.js:887-905 | a full page moves the cursor to its last entry; a short page ends the directory and is the last page requested |
| Listing.FetchAll | app.js:883-905 | the pagination loop collects the whole directory in order, and fails exactly when a request it issues fails |
| Listing.InsertByAge | app.js:908-910 | insertion adds x to the entries and keeps all the others |
| Listing.InsertByAgeOrdered | app.js:908-910 | insertion into a newest-first sequence keeps it newest first |
| Listing.NewestFirst | app.js:908-910 | the sort is a permutation ordered by created_at, newest first |
| Listing.FileSearchOnly | app.js:913-915 | exactly the assistants with the file_search tool |
| Listing.FileSearchOnlyCount | app.js:913-915 | the filter keeps each file_search assistant as often as it occurs and drops the others |
| Listing.FileSearchOnlyKeepsOrder | app.js:913-915 | the filter keeps the newest-first order |
| Listing.PreviewAsWritten | app.js:926 | as written, the preview is Preview of the instructions when present and the text "undefined" when they are missing |
| Listing.MissingInstructionsPreviewUndefined | app.js:926 | as written, missing instructions preview as the text "undefined" |
| Listing.Preview | app.js:926 | instructions of at most 100 characters are kept; longer ones are cut to 100 and "..." is added; missing ones give "" |
| Listing.Summary | app.js:918-927 | the summary keeps id, name, model, description and created_at; its preview is Preview of the instructions when present and, as written, the text "undefined" when they are missing |
| Listing.Summaries | app.js:918-927 | one summary per assistant, in order |
| Listing.Present | app.js:907-934 | every entry is the summary of a file_search assistant of the directory (order and multiplicity are in PresentMeaning) |
| Listing.PresentMeaning | app.js:908-927 | the listing holds one summary (with the preview as written) per file_search assistant, as often as it occurs, newest first |
| Listing.ListAssistants | app.js:879-934 | the endpoint fails exactly when a page request fails, and otherwise answers Present of the directory |
| Collection.CeilDiv | app.js:188 | JavaScript's Math.ceil of a quotient, as its defining bounds |
| Collection.PageCount | app.js:177-194 | no more pages without a next link or with an unparsable total; otherwise the remaining pages cover the announced total beyond the first page, or, when no total is sent, the estimate of twice the first page and at least 200 |
| Collection.PagesCoverTotal | app.js:177-194 | with a full first page and an announced total, the first page and the remaining pages cover the total and no page more |
| Collection.RemainingPageStarts | app.js:191-193 | the loop produces one start offset per remaining page, at 100, 200, … |
| Collection.Collected | app.js:196-199 | the concatenated pages exist exactly when every page request succeeds, and begin with the first page |
| Collection.CollectItems | app.js:196-199 | the page loop computes Collected |
| Collection.Select | app.js:224-274 | exactly the shown items |
| Collection.SelectAppend | app.js:224-274 | the filter keeps order and multiplicity: it distributes over concatenation |
| Collection.ParentRefs | app.js:217-221 | every parent reference an item makes is recorded |
| Collection.Keys | app.js:217-221 | every item's key is recorded |
| Collection.FilterItemsAsWritten | app.js:212-274 | as written, an item is kept exactly when it is shown with the recorded parent references as the excluded parents |
| Collection.NoAttachmentSurvives | app.js:217-262 | as written, no attachment passes the filter |
| Collection.OrphanAttachmentDropped | app.js:262 | as written, an attachment whose parent lies outside the collection is dropped |
| Collection.FilterItems | app.js:212-274 | an item is kept exactly when it is shown with the collection's own keys as the excluded parents |
| Collection.FilterItemsMeaning | app.js:212-274 | an attachment is never shown beside its parent, and an attachment whose parent is not in the collection is shown |
| Collection.PdfRefs | app.js:312-323 | every reference comes from a PDF child, titled 'PDF' when untitled, and there are references exactly when a PDF child exists |
| Collection.PdfRefsComplete | app.js:312-323 | every PDF child yields its reference |
| Collection.PdfRefsAppend | app.js:312-323 | the references follow the children's order: the map distributes over concatenation |
| Collection.Enrich | app.js:290-329 | an item has a PDF exactly when it is not an attachment and a child fetch found a PDF child |
| Collection.CollectionItems | app.js:147-333 | the endpoint answers exactly when every page request succeeds, with the items the filter as written keeps, each enriched, so no attachment is ever answered |
| Collection.FirstPdf | app.js:374-376 | the index of the first PDF child, none exactly when there is none |
| Collection.ChoosePdf | app.js:352-384 | a given attachment key wins; else a PDF item itself; else its first PDF child; a failed item or children fetch or no PDF child is an error |
| Collection.FetchPdf | app.js:344-406 | the download succeeds exactly when a file was chosen and its fetch succeeds, and stores it under temp/<itemKey>.pdf |
| Citation.LeadingSpaces | public/app.js:104-105 | the length of the leading white space |
| Citation.TrailingSpaces | public/app.js:104-105 | the length of the trailing white space |
| Citation.Trim | public/app.js:104-105 | trim() answers the text between leading and trailing white space; it is empty exactly when the text is all white space |
| Citation.CreatorLabel | public/app.js:502-504 | "last, first" when both names are given, else the single name |
| Citation.Join | public/app.js:505 | join('; ') of no part is "", of one part is that part |
| Citation.JoinAppend | public/app.js:505 | joining one more part appends "; " and the part |
| Citation.Labels | public/app.js:500-505 | one label per creator, in order |
| Citation.Authors | public/app.js:500-505 | the authors line of no creator is "", of one creator its label |
| Citation.AuthorsAppend | public/app.js:500-505 | each further creator adds "; " and its label |
| Citation.Year | public/app.js:498 | the first four characters of the date, or the whole shorter date |
| Citation.Title | public/app.js:495 | the title, 'Untitled Document' when there is none |
| Citation.Optional | public/app.js:511-513 | a part is shown, with its punctuation, only when present |
| Citation.Journal | public/app.js:509-518 | a journal article shows the publication title, then ", volume", "(issue)" and ", pp. pages", each at its offset and only when present; a conference paper its conference; a book its publisher; any other type nothing |
| Documents.WithPdf | public/app.js:59-60 | exactly the documents that have a PDF |
| Documents.WithPdfAppend | public/app.js:59-60 | keeping the documents with a PDF preserves order and multiplicity: it distributes over concatenation |
| Documents.SelectionOf | public/app.js:75-80 | a selection entry carries the key as id, the title and the PDF attachments, with no local file yet |
| Documents.Selections | public/app.js:75-80 | one selection entry per document, in order |
| Documents.Without | public/app.js:558 | removes exactly the entries with the id; a selection without it is unchanged |
| Documents.WithoutDistributes | public/app.js:558 | removal keeps the other entries in their order |
| Documents.WithoutKeepsUnique | public/app.js:558 | removal keeps ids unique |
| Documents.AppendKeepsUnique | public/app.js:548-554 | appending an absent id keeps ids unique |
| Documents.SelectionsUnique | public/app.js:59-80 | documents with distinct keys give a selection with distinct ids |
| Pipeline.StatusOf | public/app.js:179-185 | success when every document succeeded, warning when some but not all did, error when none did |
| Pipeline.OrDefault | public/app.js:155 | the message when there is one, else the fallback |
| Pipeline.CachedIds | public/app.js:130-131 | the known file ids of the documents, in order: at most one per document |
| Pipeline.CachedIdsHas | public/app.js:130-131 | a document's known file id is among them |
| Pipeline.ErrorText | public/app.js:151-173 | the server's error text for a refusal and the thrown message otherwise, each with its own fallback (the upload pass does the same at public/app.js:220-242) |
| Pipeline.DownloadStep | public/app.js:125-176 | a step keeps the known file ids and the number of documents |
| Pipeline.DownloadStepPaths | public/app.js:162-166 | a step sets the local path of a downloaded document and changes no other |
| Pipeline.DownloadStepCounts | public/app.js:130-176 | a step counts its document once, as a success or a failure, and pushes its id exactly when it is known |
| Pipeline.DownloadStepRequests | public/app.js:130-149 | a step requests its document exactly when its file id is not known |
| Pipeline.Downloaded | public/app.js:125-176 | the download pass keeps the documents and their ids |
| Pipeline.DownloadedUnvisited | public/app.js:125-176 | a document the pass has not reached yet is as selected |
| Pipeline.DownloadedPaths | public/app.js:162-166 | the pass changes only the local paths of the documents it downloaded |
| Pipeline.DownloadedCounts | public/app.js:125-176 | every visited document is a success or a failure, and the file ids pushed are the known ones |
| Pipeline.DownloadedRequests | public/app.js:130-149 | PDF requests go exactly to the visited documents with no known file id |
| Pipeline.ToUpload | public/app.js:188 | the documents with a local file or a known file id |
| Pipeline.UploadStep | public/app.js:194-245 | a known file id is pushed again; otherwise the upload either records and pushes its id or adds a failure |
| Pipeline.Uploaded | public/app.js:194-245 | the upload pass never shrinks the file ids and counts every visited document once, as a success or a failure |
| Pipeline.UploadedExtends | public/app.js:194-245 | the upload pass extends the file ids and failures of the download pass |
| Pipeline.UploadedKeepsKnown | public/app.js:199-200 | the pass keeps every file id known when it started |
| Pipeline.UploadedTouchesVisited | public/app.js:231 | the pass records file ids only for documents it visited |
| Pipeline.UploadedRequests | public/app.js:199-212 | no upload is sent for a document with a known file id |
| Pipeline.UploadStepRequests | public/app.js:199-212 | an upload step sends no upload for a document with a known file id |
| Pipeline.Processing | public/app.js:125-245 | the download pass, the documents to upload and the upload pass |
| Pipeline.CachedNeverFetched | public/app.js:130-204 | a document with a known file id is neither downloaded nor uploaded; every other selected document is downloaded |
| Pipeline.UploadedPushesCached | public/app.js:199-200 | the upload pass pushes the known file id of every such document it visits |
| Pipeline.StepKeepsPushed | public/app.js:194-245 | an upload step keeps what was pushed |
| Pipeline.StepPushesCached | public/app.js:199-200 | an upload step over a document with a known file id pushes it |
| Pipeline.OccursTwice | public/app.js:130-200 | an id found before and after a split point occurs twice |
| Pipeline.KnownDocumentVisited | public/app.js:188 | a selected document with a known file id is visited by the upload pass |
| Pipeline.CachedPushedTwice | public/app.js:130-200 | a document with a known file id has it pushed in each pass, so it occurs at least twice in the request |
| Pipeline.RecordPersists | public/app.js:231 | a recorded file id stays recorded |
| Pipeline.UploadsRecorded | public/app.js:231 | every successful upload is recorded as the document's file id |
| Pipeline.StatusesMeaning | public/app.js:179-254 | a pass is a success exactly when it adds no failure, and an error exactly when every document failed |
| Client.ClientState.constructor | public/app.js:30-38 | the state starts empty |
| Client.ClientState.LoadDocuments | public/app.js:433-462 | a loaded collection replaces the documents and empties the selection; a failure changes nothing |
| Client.ClientState.SelectAll | public/app.js:57-92 | when the selected count equals the number of documents with a PDF, the selection empties; otherwise it becomes exactly those documents, in order; ids stay unique |
| Client.ClientState.CheckboxChanged | public/app.js:545-558 | checking appends the document only when its id is absent; unchecking removes every entry with its id; ids stay unique |
| Client.ClientState.CreateAssistant | public/app.js:98-346 | an empty selection or a blank name or instructions stops at once; otherwise the two passes run as Processing says, the file ids are recorded, no request is sent when no file id remains, and the created assistant becomes current |
| Client.ClientState.DownloadPass | public/app.js:125-176 | the download loop computes Downloaded and stores the updated documents in the selection |
| Client.ClientState.UploadPass | public/app.js:188-245 | the upload loop computes Uploaded and stores the recorded file ids |
| Client.ClientState.SendMessage | public/app.js:661-722 | nothing happens for a blank message or without an assistant; otherwise the trimmed message continues the current thread when there is one, else starts a query; an answer's thread becomes current |
| Client.ClientState.SendInitialQuery | public/app.js:612-657 | the first query after creation goes to the query endpoint, and its thread becomes current |

## Left out

- HTTP, Express routing and response envelopes: handler outcomes are `Result` tags, not status codes and JSON bodies.
- The OpenAI SDK and the Zotero HTTP calls are answer parameters. Zotero request headers, URLs and API keys are not modelled.
- Client.ClientState.DownloadPass: the PDF request URL is not modelled. The model records which positions are requested, but not that the request names the document's key and, when it has PDF attachments, the first one's key as `attachmentKey` (public/app.js:141-146).
- The filesystem:
  - writing the temp PDF is not modelled;
  - the existence and size checks of an upload are one `fileExists` input, and a failing stat counts as a missing file;
  - temp cleanup, the log directory and its symlink are not modelled.
- Logging, the console override and the blocks that only log are not modelled: item-type counts, orphan counts, and the vector-store counts logged at app.js:636-641.
- Assistants.CreateOrUpdate: the assistant record answered after a create or update is built from what was sent plus the remote id; the service's own copy enters only through the verification re-fetch at app.js:633-648. The vector-store counts that re-fetch reads are only logged.
- `Promise.all` fetches pages and children in parallel (app.js:196, 293). The model fetches them in order, one answer per page or item.
- `setTimeout` sleeps are clock advances. The client's 500 ms and 1500 ms UI delays are not modelled.
- SessionCache.OpenAICache.SaveThread: uses one clock reading for both timestamps, where the source reads `Date.now()` twice.
- Listing.NewestFirst: the result is a sorted permutation, but stability of the sort is not proved. `created_at` is an integer, with no date parsing.
- Citation.Year, Listing.Preview: lengths count characters. JavaScript's `substring` counts UTF-16 code units, so the two differ for characters outside the basic plane.
- Collection.PageCount: a total header that begins with digits and continues with other text is a `Total` (what `parseInt` reads). Text that does not parse at all is `Unparsable`.
- Client.ClientState.CreateAssistant:
  - the passes write the selection and the recorded file ids when they end;
  - other handlers running during the awaits (a checkbox click mid-pass, say) are not modelled.
- Client.ClientState: `state.assistant` holds the whole response object in the source; the model holds its id.
- The rendering side of the client is not modelled:
  - DOM rendering, alerts, progress bars, and `Math.round` of progress percentages;
  - the regex markdown rewriting in `appendMessage`.
- An exception thrown while a handler awaits a remote answer is an `Err` answer carrying its message.
- Server bootstrap, TLS, signal handlers and the collections-list endpoint (app.js:131-141) are not modelled.

Where the code's evident intent and the code disagree, the model follows the code. The endpoints do so as well where the code is evidently wrong: the collection endpoint uses the filter as written and the listing the preview as written; the corrected definitions of the Findings rows are proved beside them. When retrieving or updating the cached assistant fails (app.js:605), the code clears only its local copy of the id and then creates a new assistant. It does not clear the cached id; the cached id is overwritten once the new assistant exists.

## Findings

| source | as written | input that shows it | evidently intended | confidence | as-written member | corrected member |
|---|---|---|---|---|---|---|
| app.js:217-221, 262 | the first pass records each item's own `parentItem`; an attachment is kept only when its parent is not in that set, but its own parent always is | a collection holding one attachment K1 whose parent P9 lies outside the collection | an attachment is kept when its parent is not among the collection's items, so orphaned PDFs are listed | not executed | Collection.NoAttachmentSurvives, Collection.OrphanAttachmentDropped | Collection.FilterItems, Collection.FilterItemsMeaning |
| app.js:926 | `instructions?.substring(0, 100) + …` on missing instructions concatenates `undefined` | an assistant listed with no instructions | an empty preview | not executed | Listing.PreviewAsWritten, Listing.MissingInstructionsPreviewUndefined | Listing.Preview |
