/** The part of the remote assistant service whose state the server's
    decisions depend on: which threads are alive, and how many threads and
    file uploads the server has asked for.  Every other remote answer is a
    parameter of the operation that receives it. */
module Remote {
  import opened Outcomes

  class Service {
    /** thread ids that `threads.retrieve` currently finds */
    var liveThreads: set<string>
    /** number of `threads.create` calls issued */
    var threadsCreated: nat
    /** number of `files.create` calls issued */
    var uploads: nat

    constructor (live: set<string>)
      ensures liveThreads == live && threadsCreated == 0 && uploads == 0
    {
      liveThreads := live;
      threadsCreated := 0;
      uploads := 0;
    }

    /** `threads.retrieve(id)` succeeds exactly for a live thread. */
    predicate ThreadExists(thread: string)
      reads this
    {
      thread in liveThreads
    }

    /** Issues `threads.create`; `answer` is what the service replies.  A
        created thread is live from then on. */
    method CreateThread(answer: Reply<string>) returns (r: Reply<string>)
      modifies this
      ensures r == answer
      ensures threadsCreated == old(threadsCreated) + 1 && uploads == old(uploads)
      ensures liveThreads == if answer.Ok? then old(liveThreads) + {answer.value} else old(liveThreads)
    {
      r := answer;
      threadsCreated := threadsCreated + 1;
      if answer.Ok? {
        liveThreads := liveThreads + {answer.value};
      }
    }

    /** Issues `files.create` with purpose "assistants"; `answer` is the
        service's reply (the new file id, or an error). */
    method UploadFile(answer: Reply<string>) returns (r: Reply<string>)
      modifies this
      ensures r == answer
      ensures uploads == old(uploads) + 1
      ensures threadsCreated == old(threadsCreated) && liveThreads == old(liveThreads)
    {
      r := answer;
      uploads := uploads + 1;
    }
  }
}
