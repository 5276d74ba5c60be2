/** The browser's state and the handlers that change it
    (public/app.js:29-37): loading a collection, selecting documents,
    creating an assistant from the selection, and sending messages. */
module Client {
  import opened Outcomes
  import opened Citation
  import opened Documents
  import opened Pipeline

  /** What the create-assistant request carries. */
  datatype AssistantRequest = AssistantRequest(name: string, instructions: string, fileIds: seq<string>)

  datatype CreateOutcome = NoDocuments | AssistantFailed(message: string) | AssistantCreated(id: string)

  /** What a click on "create assistant" leads to. */
  datatype CreateReport =
    | NothingSelected
    | MissingNameOrInstructions
    | Ran(downloadStatus: LoopStatus, uploadStatus: LoopStatus, failed: seq<FailedDocument>,
          request: Option<AssistantRequest>, outcome: CreateOutcome)

  /** The answer of a chat endpoint. */
  datatype Chat = Chat(threadId: string, message: string)

  /** The chat request sent: a turn on the current thread or a new query. */
  datatype ChatRequest = ContinueRequest(prompt: string, threadId: string, assistantId: string)
                       | QueryRequest(prompt: string, assistantId: string)

  /** The browser's state; "" stands for no assistant and no thread. */
  class ClientState {
    var documents: seq<Doc>
    var selected: seq<Selected>
    var assistant: string
    var currentThread: string
    var documentFileIds: map<string, string>

    constructor ()
      ensures documents == [] && selected == [] && assistant == "" && currentThread == ""
      ensures documentFileIds == map[]
    {
      documents := [];
      selected := [];
      assistant := "";
      currentThread := "";
      documentFileIds := map[];
    }

    /** Loading a collection (public/app.js:432-462): on success its documents
        replace the old ones and the selection is emptied. */
    method LoadDocuments(response: Reply<seq<Doc>>)
      modifies this
      ensures response.Ok? ==> documents == response.value && selected == []
      ensures response.Err? ==> documents == old(documents) && selected == old(selected)
      ensures assistant == old(assistant) && currentThread == old(currentThread)
      ensures documentFileIds == old(documentFileIds)
    {
      if response.Ok? {
        documents := response.value;
        selected := [];
      }
    }

    /** "Select all" (public/app.js:59-80): when as many documents are
        selected as have a PDF, the selection is emptied; otherwise it
        becomes the documents with a PDF, in document order. */
    method SelectAll()
      modifies this
      ensures |old(selected)| == |WithPdf(documents)| ==> selected == []
      ensures |old(selected)| != |WithPdf(documents)| ==> selected == Selections(WithPdf(documents))
      ensures UniqueKeys(documents) ==> UniqueIds(selected)
      ensures documents == old(documents) && assistant == old(assistant) && currentThread == old(currentThread)
      ensures documentFileIds == old(documentFileIds)
    {
      var withPdf := WithPdf(documents);
      if |selected| == |withPdf| {
        selected := [];
      } else {
        selected := Selections(withPdf);
        if UniqueKeys(documents) {
          SelectionsUnique(documents);
        }
      }
    }

    /** A document's checkbox changes (public/app.js:546-558): checking
        appends the document unless an entry with its id exists; unchecking
        removes every entry with its id.  The ids stay distinct. */
    method CheckboxChanged(doc: Doc, checked: bool)
      modifies this
      ensures checked && !HasId(old(selected), doc.key) ==> selected == old(selected) + [SelectionOf(doc)]
      ensures checked && HasId(old(selected), doc.key) ==> selected == old(selected)
      ensures !checked ==> selected == Without(old(selected), doc.key)
      ensures old(UniqueIds(selected)) ==> UniqueIds(selected)
      ensures documents == old(documents) && assistant == old(assistant) && currentThread == old(currentThread)
      ensures documentFileIds == old(documentFileIds)
    {
      if checked {
        if !HasId(selected, doc.key) {
          if UniqueIds(selected) {
            AppendKeepsUnique(selected, doc);
          }
          selected := selected + [SelectionOf(doc)];
        }
      } else {
        if UniqueIds(selected) {
          WithoutKeepsUnique(selected, doc.key);
        }
        selected := Without(selected, doc.key);
      }
    }

    /** "Create assistant" (public/app.js:93-346): the selection must be
        non-empty and the name and instructions non-blank; then the download
        and the upload pass run over the selection; without any file id no
        request is sent, otherwise the request is sent and a created
        assistant becomes the current one. */
    method CreateAssistant(nameInput: string, instructionsInput: string,
                           downloads: nat -> Attempt, uploads: nat -> Attempt, created: Reply<string>)
      returns (report: CreateReport)
      modifies this
      ensures |old(selected)| == 0 ==> report == NothingSelected && unchanged(this)
      ensures |old(selected)| > 0 && (Trim(nameInput) == "" || Trim(instructionsInput) == "") ==>
                report == MissingNameOrInstructions && unchanged(this)
      ensures |old(selected)| > 0 && Trim(nameInput) != "" && Trim(instructionsInput) != "" ==>
                var pr := Processing(old(selected), old(documentFileIds), downloads, uploads);
                var fileIds := pr.upload.fileIds;
                && selected == pr.download.docs
                && documentFileIds == pr.upload.cache
                && report.Ran?
                && report.downloadStatus == StatusOf(pr.download.successes, |old(selected)|)
                && report.uploadStatus == StatusOf(pr.upload.successes, |pr.todo|)
                && report.failed == pr.upload.failed
                && report.request == (if |fileIds| == 0 then None
                                      else Some(AssistantRequest(Trim(nameInput), Trim(instructionsInput), fileIds)))
                && report.outcome == (if |fileIds| == 0 then NoDocuments
                                      else if created.Ok? then AssistantCreated(created.value)
                                      else AssistantFailed(created.message))
                && assistant == (if |fileIds| > 0 && created.Ok? then created.value else old(assistant))
      ensures documents == old(documents) && currentThread == old(currentThread)
    {
      if |selected| == 0 {
        return NothingSelected;
      }
      var name := Trim(nameInput);
      var instructions := Trim(instructionsInput);
      if name == "" || instructions == "" {
        return MissingNameOrInstructions;
      }
      var dl := DownloadPass(downloads);
      var downloadStatus := StatusOf(dl.successes, |selected|);
      var todo := ToUpload(selected, documentFileIds);
      var ul := UploadPass(todo, dl.fileIds, dl.failed, uploads);
      var fileIds, failed := ul.fileIds, ul.failed;
      var uploadStatus := StatusOf(ul.successes, |todo|);

      if |fileIds| == 0 {
        return Ran(downloadStatus, uploadStatus, failed, None, NoDocuments);
      }
      var request := AssistantRequest(name, instructions, fileIds);
      match created {
        case Err(message) =>
          report := Ran(downloadStatus, uploadStatus, failed, Some(request), AssistantFailed(message));
        case Ok(id) =>
          assistant := id;
          report := Ran(downloadStatus, uploadStatus, failed, Some(request), AssistantCreated(id));
      }
    }

    /** The download pass (public/app.js:125-176) over the selection: the
        selection's local paths are updated as `Downloaded` says. */
    method DownloadPass(downloads: nat -> Attempt) returns (dl: Pass)
      modifies this
      ensures dl == Downloaded(old(selected), documentFileIds, downloads, |old(selected)|)
      ensures selected == dl.docs
      ensures documentFileIds == old(documentFileIds) && documents == old(documents)
      ensures assistant == old(assistant) && currentThread == old(currentThread)
    {
      var known := documentFileIds;
      var docs := selected;
      var requested: set<nat> := {};  // positions a request was sent for
      var fileIds: seq<string> := [];
      var failed: seq<FailedDocument> := [];
      var successes: nat := 0;
      var i := 0;
      while i < |docs|
        invariant |docs| == |old(selected)| && 0 <= i <= |docs|
        invariant Downloaded(old(selected), known, downloads, i) == Pass(fileIds, failed, successes, docs, known, requested)
      {
        ghost var before := Pass(fileIds, failed, successes, docs, known, requested);
        var doc := docs[i];
        if Cached(known, doc.id) {
          fileIds := fileIds + [known[doc.id]];
          successes := successes + 1;
        } else {
          requested := requested + {i};
          var answer := downloads(i);
          if answer.Done? {
            successes := successes + 1;
            docs := docs[i := doc.(localFilePath := answer.value)];
          } else {
            failed := failed + [FailedDocument(doc.title, ErrorText(answer, "Unknown error", "Unknown error during download"))];
          }
        }
        assert Pass(fileIds, failed, successes, docs, known, requested) == DownloadStep(before, i, downloads);
        i := i + 1;
      }
      selected := docs;
      dl := Pass(fileIds, failed, successes, docs, known, requested);
    }

    /** The upload pass (public/app.js:188-245) over `todo`, continuing the
        file ids and failures of the download pass: the known file ids are
        updated as `Uploaded` says. */
    method UploadPass(todo: seq<Selected>, downloadedIds: seq<string>, downloadFailures: seq<FailedDocument>,
                      uploads: nat -> Attempt)
      returns (ul: Pass)
      modifies this
      ensures ul == Uploaded(todo, downloadedIds, downloadFailures, old(documentFileIds), uploads, |todo|)
      ensures documentFileIds == ul.cache
      ensures selected == old(selected) && documents == old(documents)
      ensures assistant == old(assistant) && currentThread == old(currentThread)
    {
      var known := documentFileIds;
      var requested: set<nat> := {};  // positions a request was sent for
      var fileIds := downloadedIds;
      var failed := downloadFailures;
      var successes: nat := 0;
      var j := 0;
      while j < |todo|
        invariant 0 <= j <= |todo|
        invariant Uploaded(todo, downloadedIds, downloadFailures, old(documentFileIds), uploads, j) ==
                  Pass(fileIds, failed, successes, [], known, requested)
      {
        ghost var before := Pass(fileIds, failed, successes, [], known, requested);
        var doc := todo[j];
        if Cached(known, doc.id) {
          fileIds := fileIds + [known[doc.id]];
          successes := successes + 1;
        } else {
          requested := requested + {j};
          var answer := uploads(j);
          if answer.Done? {
            known := known[doc.id := answer.value];
            fileIds := fileIds + [answer.value];
            successes := successes + 1;
          } else {
            failed := failed + [FailedDocument(doc.title, ErrorText(answer, "Failed to upload to OpenAI", "Unknown error during upload"))];
          }
        }
        assert Pass(fileIds, failed, successes, [], known, requested) == UploadStep(before, todo, j, uploads);
        j := j + 1;
      }
      documentFileIds := known;
      ul := Pass(fileIds, failed, successes, [], known, requested);
    }

    /** Sending a message (public/app.js:662-722): nothing happens for a
        blank message or without an assistant; otherwise the trimmed message
        continues the current thread when there is one and starts a new
        query when not; an answer's thread becomes the current thread, and a
        failure leaves it as it was. */
    method SendMessage(input: string, answer: Reply<Chat>) returns (request: Option<ChatRequest>)
      modifies this
      ensures Trim(input) == "" || old(assistant) == "" ==> request.None? && unchanged(this)
      ensures Trim(input) != "" && old(assistant) != "" ==>
                && request == Some(if old(currentThread) != "" then ContinueRequest(Trim(input), old(currentThread), assistant)
                                   else QueryRequest(Trim(input), assistant))
                && currentThread == (if answer.Ok? then answer.value.threadId else old(currentThread))
      ensures documents == old(documents) && selected == old(selected) && assistant == old(assistant)
      ensures documentFileIds == old(documentFileIds)
    {
      var message := Trim(input);
      if message == "" || assistant == "" {
        return None;
      }
      if currentThread != "" {
        request := Some(ContinueRequest(message, currentThread, assistant));
      } else {
        request := Some(QueryRequest(message, assistant));
      }
      if answer.Ok? {
        currentThread := answer.value.threadId;
      }
    }

    /** The automatic first query after an assistant is created
        (public/app.js:603-657): always a new query; an answer's thread
        becomes the current thread. */
    method SendInitialQuery(prompt: string, answer: Reply<Chat>) returns (request: Option<ChatRequest>)
      modifies this
      ensures old(assistant) == "" ==> request.None? && unchanged(this)
      ensures old(assistant) != "" ==>
                && request == Some(QueryRequest(prompt, assistant))
                && currentThread == (if answer.Ok? then answer.value.threadId else old(currentThread))
      ensures documents == old(documents) && selected == old(selected) && assistant == old(assistant)
      ensures documentFileIds == old(documentFileIds)
    {
      if assistant == "" {
        return None;
      }
      request := Some(QueryRequest(prompt, assistant));
      if answer.Ok? {
        currentThread := answer.value.threadId;
      }
    }
  }
}
