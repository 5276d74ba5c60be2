/** The thread side of the server: which thread a turn runs on, for a new
    query (app.js:688-827), for an explicit thread the browser continues
    (app.js:1015-1178), and the standalone validation endpoint
    (app.js:830-876).  A thread is used only after the remote service has
    confirmed it, or right after creating it. */
module Conversation {
  import opened Outcomes
  import opened Clock
  import opened SessionCache
  import opened Remote
  import opened Runs

  /** The threads map after `updateThreadAccess(assistant)` at `now`. */
  function Touched(threads: map<string, ThreadEntry>, assistant: string, now: int): (t: map<string, ThreadEntry>)
    ensures t.Keys == threads.Keys
    ensures assistant in threads ==> t[assistant] == threads[assistant].(lastAccessed := now)
    ensures forall a :: a in threads && a != assistant ==> t[a] == threads[a]
  {
    if assistant in threads then threads[assistant := threads[assistant].(lastAccessed := now)] else threads
  }

  /** The thread for a new query turn (app.js:698-724): the cached thread if
      the service still finds it, with only its access time refreshed;
      otherwise exactly one new thread, which replaces the cache entry. */
  method ResolveThread(cache: OpenAICache, remote: Service, assistant: string, now: int, created: Reply<string>)
    returns (r: Reply<string>)
    modifies cache, remote
    ensures old(assistant in cache.threads && cache.threads[assistant].threadId in remote.liveThreads) ==>
              && r == Ok(old(cache.threads[assistant].threadId))
              && cache.threads == Touched(old(cache.threads), assistant, now)
              && unchanged(remote)
    ensures !old(assistant in cache.threads && cache.threads[assistant].threadId in remote.liveThreads) ==>
              && remote.threadsCreated == old(remote.threadsCreated) + 1
              && (created.Ok? ==> r == created &&
                                  cache.threads == old(cache.threads)[assistant := ThreadEntry(created.value, now, now)])
              && (created.Err? ==> r == created && cache.threads == old(cache.threads))
    ensures r.Ok? ==> r.value in remote.liveThreads && assistant in cache.threads &&
                      cache.threads[assistant].threadId == r.value
    ensures remote.uploads == old(remote.uploads)
    ensures remote.liveThreads == old(remote.liveThreads) + (if r.Ok? then {r.value} else {})
    ensures cache.fileIds == old(cache.fileIds) && cache.assistantId == old(cache.assistantId)
    ensures cache.vectorStoreId == old(cache.vectorStoreId)
  {
    var existing := cache.GetThread(assistant);
    if existing.Some? && remote.ThreadExists(existing.value.threadId) {
      var _ := cache.UpdateThreadAccess(assistant, now);
      return Ok(existing.value.threadId);
    }
    r := remote.CreateThread(created);
    if r.Ok? {
      var _ := cache.SaveThread(assistant, r.value, now);
    }
  }

  /** A query turn (app.js:688-827): resolve the thread, then converse on it. */
  method Query(cache: OpenAICache, remote: Service, prompt: string, assistant: string, now: int,
               created: Reply<string>, s: TurnScript)
    returns (r: Result<Answer, TurnError>, requests: seq<TurnRequest>)
    requires Advancing(s.clock, PollIntervalMs)
    modifies cache, remote
    ensures prompt == "" || assistant == "" ==>
              r == Failure(MissingFields) && unchanged(cache) && unchanged(remote)
    ensures prompt != "" && assistant != "" ==>
              if old(assistant in cache.threads && cache.threads[assistant].threadId in remote.liveThreads) then
                && r == TurnOutcome(old(cache.threads[assistant].threadId), s)
                && cache.threads == Touched(old(cache.threads), assistant, now)
                && unchanged(remote)
              else
                && remote.threadsCreated == old(remote.threadsCreated) + 1
                && remote.uploads == old(remote.uploads)
                && r == (if created.Ok? then TurnOutcome(created.value, s) else Failure(RemoteFailure(created.message)))
                && cache.threads == (if created.Ok? then old(cache.threads)[assistant := ThreadEntry(created.value, now, now)]
                                     else old(cache.threads))
                && remote.liveThreads == old(remote.liveThreads) + (if created.Ok? then {created.value} else {})
    ensures r.Success? ==> assistant in cache.threads && r.value.threadId == cache.threads[assistant].threadId
    ensures r.Success? ==> requests == [PostUserMessage(r.value.threadId, prompt), StartRun(r.value.threadId, assistant)]
    ensures cache.fileIds == old(cache.fileIds) && cache.assistantId == old(cache.assistantId)
    ensures cache.vectorStoreId == old(cache.vectorStoreId)
  {
    requests := [];
    if prompt == "" || assistant == "" {
      return Failure(MissingFields), [];
    }
    var thread := ResolveThread(cache, remote, assistant, now, created);
    if thread.Err? {
      return Failure(RemoteFailure(thread.message)), [];
    }
    TurnAnswerIsGenuine(thread.value, s);
    var cancelRequested;
    r, cancelRequested, requests := Converse(thread.value, assistant, prompt, s);
  }

  /** A turn on the thread the browser names (app.js:1015-1178).  The cached
      thread's access time is refreshed first.  If the service finds the
      thread, the cache is made to hold it and the turn runs.  If not, a
      different cached thread that the service finds is offered as the
      alternative, with the cache left as it is; a different cached thread
      it does not find is evicted; every other case is ThreadNotFound. */
  method Continue(cache: OpenAICache, remote: Service, prompt: string, thread: string, assistant: string,
                  accessTime: int, saveTime: int, s: TurnScript)
    returns (r: Result<Answer, TurnError>, requests: seq<TurnRequest>)
    requires Advancing(s.clock, PollIntervalMs)
    modifies cache
    ensures prompt == "" || thread == "" || assistant == "" ==> r == Failure(MissingFields) && unchanged(cache)
    ensures prompt != "" && thread != "" && assistant != "" ==>
              var touched := Touched(old(cache.threads), assistant, accessTime);
              if thread in remote.liveThreads then
                && r == TurnOutcome(thread, s)
                && cache.threads ==
                     if assistant in touched && touched[assistant].threadId == thread then touched
                     else touched[assistant := ThreadEntry(thread, saveTime, saveTime)]
              else if assistant in touched && touched[assistant].threadId != thread then
                if touched[assistant].threadId in remote.liveThreads then
                  r == Failure(ThreadAlternativeAvailable(touched[assistant].threadId)) && cache.threads == touched
                else
                  r == Failure(ThreadNotFound) && cache.threads == touched - {assistant}
              else
                r == Failure(ThreadNotFound) && cache.threads == touched
    ensures r.Success? ==> r.value.threadId == thread && assistant in cache.threads &&
                           cache.threads[assistant].threadId == thread
    ensures r.Success? ==> requests == [PostUserMessage(thread, prompt), StartRun(thread, assistant)]
    ensures thread !in remote.liveThreads ==> requests == []
    ensures old(assistant in cache.threads && cache.threads[assistant].threadId == thread) ==>
              assistant in cache.threads
    ensures cache.fileIds == old(cache.fileIds) && cache.assistantId == old(cache.assistantId)
    ensures cache.vectorStoreId == old(cache.vectorStoreId)
  {
    requests := [];
    if prompt == "" || thread == "" || assistant == "" {
      return Failure(MissingFields), [];
    }
    var _ := cache.UpdateThreadAccess(assistant, accessTime);
    if remote.ThreadExists(thread) {
      var cached := cache.GetThread(assistant);
      if cached.None? || cached.value.threadId != thread {
        var _ := cache.SaveThread(assistant, thread, saveTime);
      }
      TurnAnswerIsGenuine(thread, s);
      var cancelRequested;
      r, cancelRequested, requests := Converse(thread, assistant, prompt, s);
      return;
    }
    var existing := cache.GetThread(assistant);
    if existing.Some? && existing.value.threadId != thread {
      if remote.ThreadExists(existing.value.threadId) {
        return Failure(ThreadAlternativeAvailable(existing.value.threadId)), [];
      }
      cache.EvictThread(assistant);
    }
    r := Failure(ThreadNotFound);
  }

  datatype ValidationError =
    | MissingThreadId              // 400, valid: false
    | ThreadInaccessible           // 200, valid: false

  /** The validation endpoint (app.js:830-876): a thread is valid when the
      service finds it; then the access time of the assistant's cached
      thread, whichever thread that is, is refreshed. */
  method ValidateThread(cache: OpenAICache, remote: Service, thread: string, assistant: string, now: int)
    returns (r: Result<string, ValidationError>)
    modifies cache
    ensures thread == "" ==> r == Failure(MissingThreadId) && unchanged(cache)
    ensures thread != "" ==> (r == Success(thread) <==> thread in remote.liveThreads)
    ensures thread != "" && thread !in remote.liveThreads ==> r == Failure(ThreadInaccessible) && unchanged(cache)
    ensures thread != "" && thread in remote.liveThreads ==>
              cache.threads == (if assistant != "" then Touched(old(cache.threads), assistant, now) else old(cache.threads))
    ensures cache.fileIds == old(cache.fileIds) && cache.assistantId == old(cache.assistantId)
    ensures cache.vectorStoreId == old(cache.vectorStoreId)
  {
    if thread == "" {
      return Failure(MissingThreadId);
    }
    if !remote.ThreadExists(thread) {
      return Failure(ThreadInaccessible);
    }
    if assistant != "" {
      var _ := cache.UpdateThreadAccess(assistant, now);
    }
    r := Success(thread);
  }

  /** Two queries in a row for an assistant without a cached thread create
      one thread, whether or not the first turn succeeds; the second query
      reuses it, and only its access time moves. */
  method SecondQueryReusesThread(cache: OpenAICache, remote: Service, prompt: string, assistant: string,
                                 t1: int, t2: int, created: Reply<string>, unused: Reply<string>,
                                 s1: TurnScript, s2: TurnScript)
    returns (first: Result<Answer, TurnError>, second: Result<Answer, TurnError>)
    requires Advancing(s1.clock, PollIntervalMs) && Advancing(s2.clock, PollIntervalMs)
    requires prompt != "" && assistant != ""
    requires assistant !in cache.threads && created.Ok?
    modifies cache, remote
    ensures first == TurnOutcome(created.value, s1) && second == TurnOutcome(created.value, s2)
    ensures remote.threadsCreated == old(remote.threadsCreated) + 1
    ensures assistant in cache.threads && cache.threads[assistant] == ThreadEntry(created.value, t2, t1)
  {
    var requests;
    first, requests := Query(cache, remote, prompt, assistant, t1, created, s1);
    second, requests := Query(cache, remote, prompt, assistant, t2, unused, s2);
  }
}
