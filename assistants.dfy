/** The server's assistant-side handlers: upload with de-duplication
    (app.js:410-459), loading an assistant (app.js:462-510), creating or
    updating one over the knowledge store (app.js:513-685) and deleting one
    (app.js:937-1012).  They read and write the process-wide cache. */
module Assistants {
  import opened Outcomes
  import opened Clock
  import opened SessionCache
  import opened Remote
  import opened Ingest

  /** The model every assistant is configured with. */
  const AssistantModel: string := "gpt-4o"
  /** The one tool every assistant is configured with. */
  const FileSearchTool: string := "file_search"

  /** An assistant as the remote service holds it. */
  datatype Assistant = Assistant(
    id: string, name: string, instructions: string, model: string,
    tools: seq<string>, vectorStoreIds: seq<string>)

  /** The assistant the create and update calls configure. */
  function Configured(id: string, name: string, instructions: string, store: string): (a: Assistant)
    ensures a.id == id && a.name == name && a.instructions == instructions
    ensures a.model == AssistantModel && a.tools == [FileSearchTool] && a.vectorStoreIds == [store]
  {
    Assistant(id, name, instructions, AssistantModel, [FileSearchTool], [store])
  }

  datatype UploadError =
    | MissingFilePath              // 400 'File path is required'
    | FileDoesNotExist(path: string) // 400
    | UploadFailed(message: string)  // 500, files.create threw

  /** Uploads the document's PDF unless its file id is cached (app.js:410-459).
      `fileExists` is what `fs.existsSync(filePath)` answers and `answer`
      what `files.create` replies. */
  method Upload(cache: OpenAICache, remote: Service, filePath: string, itemKey: string,
                fileExists: bool, answer: Reply<string>)
    returns (r: Result<string, UploadError>)
    modifies cache, remote
    ensures filePath == "" ==> r == Failure(MissingFilePath) && unchanged(cache) && unchanged(remote)
    ensures filePath != "" && old(cache.CachedFileId(itemKey)).Some? ==>
              r == Success(old(cache.fileIds[itemKey])) && unchanged(cache) && unchanged(remote)
    ensures filePath != "" && old(cache.CachedFileId(itemKey)).None? && !fileExists ==>
              r == Failure(FileDoesNotExist(filePath)) && unchanged(cache) && unchanged(remote)
    ensures filePath != "" && old(cache.CachedFileId(itemKey)).None? && fileExists ==>
              && remote.uploads == old(remote.uploads) + 1
              && (answer.Ok? ==> r == Success(answer.value) &&
                                 cache.fileIds == old(cache.fileIds)[itemKey := answer.value])
              && (answer.Err? ==> r == Failure(UploadFailed(answer.message)) &&
                                  cache.fileIds == old(cache.fileIds))
    ensures remote.liveThreads == old(remote.liveThreads) && remote.threadsCreated == old(remote.threadsCreated)
    ensures cache.threads == old(cache.threads) && cache.assistantId == old(cache.assistantId)
    ensures cache.vectorStoreId == old(cache.vectorStoreId)
  {
    if filePath == "" {
      return Failure(MissingFilePath);
    }
    var cached := cache.CachedFileId(itemKey);
    if cached.Some? {
      return Success(cached.value);
    }
    if !fileExists {
      return Failure(FileDoesNotExist(filePath));
    }
    var reply := remote.UploadFile(answer);
    match reply
    case Err(m) =>
      r := Failure(UploadFailed(m));
    case Ok(id) =>
      cache.fileIds := cache.fileIds[itemKey := id];
      r := Success(id);
  }

  /** Uploading the same document twice issues one upload and answers the same id both times. */
  method UploadTwiceUploadsOnce(cache: OpenAICache, remote: Service, filePath: string, itemKey: string,
                                answer: Reply<string>, later: Reply<string>)
    returns (first: Result<string, UploadError>, second: Result<string, UploadError>)
    requires filePath != "" && cache.CachedFileId(itemKey).None?
    requires answer.Ok? && answer.value != ""
    modifies cache, remote
    ensures first == second == Success(answer.value)
    ensures remote.uploads == old(remote.uploads) + 1
  {
    first := Upload(cache, remote, filePath, itemKey, true, answer);
    assert cache.CachedFileId(itemKey) == Some(answer.value);
    second := Upload(cache, remote, filePath, itemKey, true, later);
  }

  datatype AssistantError =
    | MissingFields                     // 400
    | AssistantNotFound(message: string)  // 404
    | RemoteFailure(message: string)      // 500, a remote call threw
    | DeletionNotConfirmed                // 400
    | DeleteFailed(status: int, message: string) // the error's status, or 500

  /** A loaded assistant with the file count of its knowledge store, when that could be read. */
  datatype Loaded = Loaded(assistant: Assistant, fileCount: Option<nat>)

  /** Makes a remote assistant the current one (app.js:462-510): `retrieved`
      is what `assistants.retrieve(id)` replies and `storeTotal` the total
      file count `vectorStores.retrieve` reports for its first store. */
  method LoadAssistant(cache: OpenAICache, id: string, retrieved: Reply<Assistant>, storeTotal: Reply<nat>)
    returns (r: Result<Loaded, AssistantError>)
    modifies cache
    ensures id == "" ==> r == Failure(MissingFields) && unchanged(cache)
    ensures id != "" && retrieved.Err? ==> r == Failure(AssistantNotFound(retrieved.message)) && unchanged(cache)
    ensures id != "" && retrieved.Ok? ==>
              && cache.assistantId == id
              && r.Success? && r.value.assistant == retrieved.value
              && (|retrieved.value.vectorStoreIds| > 0 ==>
                    cache.vectorStoreId == retrieved.value.vectorStoreIds[0] &&
                    r.value.fileCount == (if storeTotal.Ok? then Some(storeTotal.value) else None))
              && (|retrieved.value.vectorStoreIds| == 0 ==>
                    cache.vectorStoreId == old(cache.vectorStoreId) && r.value.fileCount == None)
    ensures cache.fileIds == old(cache.fileIds) && cache.threads == old(cache.threads)
  {
    if id == "" {
      return Failure(MissingFields);
    }
    if retrieved.Err? {
      return Failure(AssistantNotFound(retrieved.message));
    }
    var assistant := retrieved.value;
    cache.assistantId := id;
    var count: Option<nat> := None;
    if |assistant.vectorStoreIds| > 0 {
      cache.vectorStoreId := assistant.vectorStoreIds[0];
      if storeTotal.Ok? {
        count := Some(storeTotal.value);
      }
    }
    r := Success(Loaded(assistant, count));
  }

  /** What the remote service answers to a create-or-update request. */
  datatype AssistantScript = AssistantScript(
    newStore: Reply<string>,  // vectorStores.create: the new store's id
    ingest: IngestScript,     // the file batch and its polling
    retrieved: Reply<()>,     // assistants.retrieve of the cached assistant
    updated: Reply<()>,       // assistants.update of the cached assistant
    created: Reply<string>,   // assistants.create: the new assistant's id
    storeChecked: Reply<()>,  // vectorStores.retrieve of the store, whose counts are only logged
    refetched: Reply<Assistant>) // assistants.retrieve of the current assistant after the change

  /** The response: the assistant, annotated with its store and the files of this request. */
  datatype AssistantResponse = AssistantResponse(
    assistant: Assistant, vectorStoreId: string, fileCount: nat, fileIds: seq<string>)

  /** The assistant a successful create-or-update answers: the service's
      copy, fetched by the current id, when the store and the assistant could
      both be re-fetched; otherwise the one just configured. */
  function AnsweredAssistant(s: AssistantScript, configured: Assistant): (a: Assistant)
    ensures a.id == configured.id
    ensures s.storeChecked.Err? || s.refetched.Err? ==> a == configured
    ensures s.storeChecked.Ok? && s.refetched.Ok? ==>
              a.name == s.refetched.value.name && a.instructions == s.refetched.value.instructions &&
              a.model == s.refetched.value.model && a.tools == s.refetched.value.tools &&
              a.vectorStoreIds == s.refetched.value.vectorStoreIds
  {
    if s.storeChecked.Ok? && s.refetched.Ok? then s.refetched.value.(id := configured.id) else configured
  }

  /** Creates or updates the current assistant over the knowledge store
      (app.js:513-685).  A missing store is created and cached; the files
      are ingested, and an ingestion failure or time-out does not stop the
      request; the cached assistant is retrieved and updated, and if either
      call fails a new one is created and becomes the current assistant.
      When the store and then the assistant can be re-fetched, the
      service's copy of the assistant is answered (app.js:633-648). */
  method CreateOrUpdate(cache: OpenAICache, name: string, instructions: string, fileIds: seq<string>,
                        s: AssistantScript)
    returns (r: Result<AssistantResponse, AssistantError>, ingested: Option<IngestOutcome>,
             batch: Option<BatchRequest>)
    requires Advancing(s.ingest.clock, BatchIntervalMs)
    modifies cache
    ensures r == Failure(MissingFields) <==> name == "" || instructions == "" || |fileIds| == 0
    ensures r == Failure(MissingFields) ==> unchanged(cache) && ingested.None?
    ensures old(cache.vectorStoreId) != "" ==> cache.vectorStoreId == old(cache.vectorStoreId)
    ensures r != Failure(MissingFields) && old(cache.vectorStoreId) == "" ==>
              if s.newStore.Ok? then cache.vectorStoreId == s.newStore.value
              else r == Failure(RemoteFailure(s.newStore.message)) && unchanged(cache) && ingested.None?
    ensures r != Failure(MissingFields) && (old(cache.vectorStoreId) != "" || s.newStore.Ok?) ==>
              && ingested == Some(IngestSpec(s.ingest))
              && (old(cache.assistantId) != "" && s.retrieved.Ok? && s.updated.Ok? ==>
                    r.Success? && r.value.assistant.id == old(cache.assistantId))
              && (!(old(cache.assistantId) != "" && s.retrieved.Ok? && s.updated.Ok?) ==>
                    if s.created.Ok? then r.Success? && r.value.assistant.id == s.created.value
                    else r == Failure(RemoteFailure(s.created.message)))
    ensures r.Success? ==>
              && cache.assistantId == r.value.assistant.id
              && r.value.assistant == AnsweredAssistant(s, Configured(cache.assistantId, name, instructions, cache.vectorStoreId))
              && r.value.vectorStoreId == cache.vectorStoreId
              && r.value.fileCount == |fileIds| && r.value.fileIds == fileIds
    ensures r.Failure? ==> cache.assistantId == old(cache.assistantId)
    ensures batch.Some? <==> ingested.Some?
    ensures batch.Some? ==> batch.value == BatchRequest(cache.vectorStoreId, fileIds)
    ensures r.Success? ==> batch == Some(BatchRequest(r.value.vectorStoreId, fileIds))
    ensures cache.fileIds == old(cache.fileIds) && cache.threads == old(cache.threads)
  {
    ingested, batch := None, None;
    if name == "" || instructions == "" || |fileIds| == 0 {
      return Failure(MissingFields), None, None;
    }
    var assistantId := cache.assistantId;
    var store := cache.vectorStoreId;
    if store == "" {
      if s.newStore.Err? {
        return Failure(RemoteFailure(s.newStore.message)), None, None;
      }
      store := s.newStore.value;
      cache.vectorStoreId := store;
    }
    // the outcome of ingestion is only logged
    var outcome, request := IngestFiles(store, fileIds, s.ingest);
    ingested, batch := Some(outcome), Some(request);
    var assistant: Assistant;
    if assistantId != "" {
      if s.retrieved.Ok? && s.updated.Ok? {
        assistant := Configured(assistantId, name, instructions, store);
      } else {
        assistantId := "";
      }
    }
    if assistantId == "" {
      if s.created.Err? {
        return Failure(RemoteFailure(s.created.message)), ingested, batch;
      }
      assistantId := s.created.value;
      assistant := Configured(assistantId, name, instructions, store);
      cache.assistantId := assistantId;
    }
    // the verification re-fetch: a failure is only logged
    if s.storeChecked.Ok? && s.refetched.Ok? {
      assistant := s.refetched.value.(id := assistantId);
    }
    r := Success(AssistantResponse(assistant, store, |fileIds|, fileIds));
  }

  /** Sending the same create-or-update request twice updates one assistant:
      once the first request has produced an assistant, the second finds it
      in the cache, reuses it and the store, and answers the same record. */
  method RepeatedRequestUpdatesSameAssistant(cache: OpenAICache, name: string, instructions: string,
                                             fileIds: seq<string>, s1: AssistantScript, s2: AssistantScript)
    returns (first: Result<AssistantResponse, AssistantError>, second: Result<AssistantResponse, AssistantError>)
    requires Advancing(s1.ingest.clock, BatchIntervalMs) && Advancing(s2.ingest.clock, BatchIntervalMs)
    requires name != "" && instructions != "" && |fileIds| > 0
    requires cache.vectorStoreId != "" || (s1.newStore.Ok? && s1.newStore.value != "")
    requires s1.created.Ok? && s1.created.value != ""
    requires s2.retrieved.Ok? && s2.updated.Ok?
    requires s2.storeChecked.Ok? == s1.storeChecked.Ok? && s2.refetched == s1.refetched
    modifies cache
    ensures first.Success? && second == first
  {
    var ingested, batch;
    first, ingested, batch := CreateOrUpdate(cache, name, instructions, fileIds, s1);
    second, ingested, batch := CreateOrUpdate(cache, name, instructions, fileIds, s2);
  }

  /** How the remote service answers `assistants.del`. */
  datatype DeleteReply =
    | DeleteAnswer(deleted: bool)               // a response; `deleted` tells whether it confirms
    | DeleteThrew(status: int, message: string) // an error; status 0 when it carries none

  /** What a successful delete reports. */
  datatype Deletion = DeletedNow | AlreadyGone

  /** Deletes an assistant (app.js:937-1012).  Only a confirmed deletion
      touches the cache: it forgets the assistant if it is the current one,
      and its thread.  A 404 from the service reports success and leaves
      the cache as it is. */
  method DeleteAssistant(cache: OpenAICache, id: string, answer: DeleteReply)
    returns (r: Result<Deletion, AssistantError>)
    modifies cache
    ensures id == "" ==> r == Failure(MissingFields) && unchanged(cache)
    ensures id != "" && answer == DeleteAnswer(true) ==>
              && r == Success(DeletedNow)
              && cache.assistantId == (if old(cache.assistantId) == id then "" else old(cache.assistantId))
              && cache.threads == old(cache.threads) - {id}
              && cache.fileIds == old(cache.fileIds) && cache.vectorStoreId == old(cache.vectorStoreId)
    ensures id != "" && answer == DeleteAnswer(false) ==> r == Failure(DeletionNotConfirmed) && unchanged(cache)
    ensures id != "" && answer.DeleteThrew? && answer.status == 404 ==> r == Success(AlreadyGone) && unchanged(cache)
    ensures id != "" && answer.DeleteThrew? && answer.status != 404 ==>
              r == Failure(DeleteFailed(if answer.status != 0 then answer.status else 500, answer.message)) &&
              unchanged(cache)
  {
    if id == "" {
      return Failure(MissingFields);
    }
    match answer
    case DeleteAnswer(deleted) =>
      if deleted {
        if cache.assistantId == id {
          cache.assistantId := "";
        }
        if id in cache.threads {
          cache.EvictThread(id);
        }
        r := Success(DeletedNow);
      } else {
        r := Failure(DeletionNotConfirmed);
      }
    case DeleteThrew(status, message) =>
      if status == 404 {
        r := Success(AlreadyGone);
      } else {
        r := Failure(DeleteFailed(if status != 0 then status else 500, message));
      }
  }
}
