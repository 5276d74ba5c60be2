/** The server's process-wide cache: uploaded file ids per document, the
    current assistant and knowledge store, and one conversation thread per
    assistant.  An absent handle (JavaScript null or undefined) is "". */
module SessionCache {
  import opened Outcomes

  /** A cached conversation thread of one assistant. */
  datatype ThreadEntry = ThreadEntry(threadId: string, lastAccessed: int, created: int)

  class OpenAICache {
    /** document identity (item key) -> uploaded file id */
    var fileIds: map<string, string>
    var assistantId: string
    var vectorStoreId: string
    /** assistant id -> its one cached thread */
    var threads: map<string, ThreadEntry>

    constructor ()
      ensures fileIds == map[] && assistantId == "" && vectorStoreId == "" && threads == map[]
    {
      fileIds := map[];
      assistantId := "";
      vectorStoreId := "";
      threads := map[];
    }

    /** The thread cached for an assistant, if any. */
    function GetThread(assistant: string): (e: Option<ThreadEntry>)
      reads this
      ensures e.Some? <==> assistant in threads
      ensures e.Some? ==> e.value == threads[assistant]
    {
      if assistant in threads then Some(threads[assistant]) else None
    }

    /** The file id cached for a document, when the cache holds a non-empty one. */
    function CachedFileId(itemKey: string): (id: Option<string>)
      reads this
      ensures id.Some? <==> itemKey in fileIds && fileIds[itemKey] != ""
      ensures id.Some? ==> id.value == fileIds[itemKey]
    {
      if itemKey in fileIds && fileIds[itemKey] != "" then Some(fileIds[itemKey]) else None
    }

    /** Records `thread` as the one thread of `assistant`, created and accessed
        at `now`, replacing any earlier entry of that assistant. */
    method SaveThread(assistant: string, thread: string, now: int) returns (e: ThreadEntry)
      modifies this
      ensures e == ThreadEntry(thread, now, now)
      ensures threads == old(threads)[assistant := e]
      ensures forall other :: other != assistant ==> GetThread(other) == old(GetThread(other))
      ensures fileIds == old(fileIds) && assistantId == old(assistantId)
      ensures vectorStoreId == old(vectorStoreId)
    {
      e := ThreadEntry(thread, now, now);
      threads := threads[assistant := e];
    }

    /** Refreshes the last-accessed time of the assistant's thread; reports
        whether there was one.  Nothing else changes. */
    method UpdateThreadAccess(assistant: string, now: int) returns (found: bool)
      modifies this
      ensures found <==> assistant in old(threads)
      ensures found ==> threads == old(threads)[assistant := old(threads)[assistant].(lastAccessed := now)]
      ensures !found ==> threads == old(threads)
      ensures threads.Keys == old(threads.Keys)
      ensures forall a :: a in threads ==>
                threads[a].threadId == old(threads)[a].threadId && threads[a].created == old(threads)[a].created
      ensures fileIds == old(fileIds) && assistantId == old(assistantId)
      ensures vectorStoreId == old(vectorStoreId)
    {
      if assistant in threads {
        threads := threads[assistant := threads[assistant].(lastAccessed := now)];
        found := true;
      } else {
        found := false;
      }
    }

    /** Drops the assistant's thread entry (the handlers' `delete threads[id]`). */
    method EvictThread(assistant: string)
      modifies this
      ensures threads == old(threads) - {assistant}
      ensures fileIds == old(fileIds) && assistantId == old(assistantId)
      ensures vectorStoreId == old(vectorStoreId)
    {
      threads := threads - {assistant};
    }
  }
}
