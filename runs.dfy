/** One conversation turn on a thread: post the prompt, start a run, poll the
    run to an end within a wall-clock budget, classify how it ended, and take
    the reply out of the thread's messages (app.js:727-815, repeated for the
    continue endpoint at app.js:1078-1166). */
module Runs {
  import opened Outcomes
  import opened Clock

  /** Budget for a run, measured from the first status fetch (ms). */
  const MaxWaitMs: int := 120000
  /** Sleep between two status fetches (ms). */
  const PollIntervalMs: int := 1000

  /** A run as `runs.retrieve` reports it: its status and the message of its
      `last_error`, when it has one. */
  datatype Run = Run(status: string, lastError: Option<string>)

  predicate IsTerminal(status: string) {
    status == "completed" || status == "failed" || status == "cancelled"
  }

  /** How the poll loop ended: with the last status it fetched, or at the deadline. */
  datatype PollEnd = Settled(run: Run) | TimedOut

  /** Every way a turn can fail, with what the caller is told. */
  datatype TurnError =
    | MissingFields                                         // 400
    | ThreadNotFound                                        // 404, code thread_not_found
    | ThreadAlternativeAvailable(alternateThreadId: string) // 409, code thread_alternative_available
    | RunTimedOut                                           // 504
    | RunFailed(details: string)                            // 500 'Assistant run failed'
    | RunEndedWithStatus(status: string)                    // 500
    | NoResponse                                            // 500 'No response received from assistant'
    | InvalidResponseFormat                                 // 500
    | RemoteFailure(message: string)                        // 500, a remote call threw

  /** The reply text of a turn and the thread it was read from. */
  datatype Answer = Answer(message: string, threadId: string)

  /** One part of a message's content; `text` is `text.value` when the part has a `text` object. */
  datatype ContentPart = ContentPart(text: Option<string>)

  /** A thread message as `messages.list` returns it (newest first); a
      missing content array is an empty one. */
  datatype Message = Message(role: string, content: seq<ContentPart>)

  /** A request a turn sends that carries the caller's input: the user
      message posted on the thread, and the run started there for the
      assistant. */
  datatype TurnRequest =
    | PostUserMessage(thread: string, content: string) // messages.create with role "user"
    | StartRun(thread: string, assistantId: string)     // runs.create with assistant_id

  /** What the remote service answers during one turn. */
  datatype TurnScript = TurnScript(
    posted: Reply<string>,        // messages.create: the new message's id
    started: Reply<string>,       // runs.create: the new run's id
    first: Reply<Run>,            // the runs.retrieve issued before the loop
    start: int,                   // Date.now() taken right after it
    statuses: nat -> Reply<Run>,  // the k-th runs.retrieve inside the loop
    clock: nat -> int,            // Date.now() at the k-th deadline check
    listed: Reply<seq<Message>>)  // messages.list once the run completed

  /** The poll loop from its k-th deadline check on, with `last` the status
      in hand: stop at a terminal status; past the budget, give up; otherwise
      fetch again, and stop keeping `last` if the fetch fails. */
  function Poll(last: Run, statuses: nat -> Reply<Run>, clock: nat -> int, start: int, k: nat): (e: PollEnd)
    requires Advancing(clock, PollIntervalMs)
    ensures e.Settled? && e.run != last ==> exists j: nat :: k <= j && statuses(j) == Ok(e.run)
    decreases start + MaxWaitMs - clock(k)
  {
    if IsTerminal(last.status) then Settled(last)
    else if clock(k) - start > MaxWaitMs then TimedOut
    else match statuses(k)
      case Err(_) => Settled(last)
      case Ok(run) => Poll(run, statuses, clock, start, k + 1)
  }

  /** Drives a started run to an end (app.js:742-771).  Past the deadline it
      requests cancellation, whose answer is ignored, and reports a time-out;
      a failing status fetch ends the loop with the last status fetched. */
  method AwaitRun(first: Run, statuses: nat -> Reply<Run>, clock: nat -> int, start: int)
    returns (end: PollEnd, cancelRequested: bool, fetches: nat)
    requires Advancing(clock, PollIntervalMs)
    ensures end == Poll(first, statuses, clock, start, 0)
    ensures cancelRequested <==> end.TimedOut?
    ensures fetches > 0 ==> clock(0) + (fetches - 1) * PollIntervalMs <= start + MaxWaitMs
  {
    var run := first;
    var k: nat := 0;
    while !IsTerminal(run.status)
      invariant Poll(run, statuses, clock, start, k) == Poll(first, statuses, clock, start, 0)
      invariant k > 0 ==> clock(k - 1) - start <= MaxWaitMs
      decreases start + MaxWaitMs - clock(k)
    {
      if clock(k) - start > MaxWaitMs {
        // runs.cancel is requested here; whether it succeeds changes nothing
        end, cancelRequested, fetches := TimedOut, true, k;
        if k > 0 { AdvancingSpan(clock, PollIntervalMs, 0, k - 1); }
        return;
      }
      match statuses(k)
      case Err(_) =>
        end, cancelRequested, fetches := Settled(run), false, k + 1;
        AdvancingSpan(clock, PollIntervalMs, 0, k);
        return;
      case Ok(next) =>
        run := next;
        k := k + 1;
    }
    end, cancelRequested, fetches := Settled(run), false, k;
    if k > 0 { AdvancingSpan(clock, PollIntervalMs, 0, k - 1); }
  }

  /** `last_error?.message || 'Unknown error'` */
  function FailureDetails(lastError: Option<string>): (d: string)
    ensures d != ""
    ensures lastError.Some? && lastError.value != "" ==> d == lastError.value
  {
    if lastError.Some? && lastError.value != "" then lastError.value else "Unknown error"
  }

  /** Classifies how the poll ended (app.js:773-786); None means the run completed. */
  function Classify(e: PollEnd): (err: Option<TurnError>)
    ensures err.None? <==> e.Settled? && e.run.status == "completed"
    ensures e.TimedOut? ==> err == Some(RunTimedOut)
    ensures e.Settled? && e.run.status == "failed" ==> err == Some(RunFailed(FailureDetails(e.run.lastError)))
    ensures e.Settled? && e.run.status != "failed" && e.run.status != "completed" ==>
              err == Some(RunEndedWithStatus(e.run.status))
  {
    match e
    case TimedOut => Some(RunTimedOut)
    case Settled(run) =>
      if run.status == "failed" then Some(RunFailed(FailureDetails(run.lastError)))
      else if run.status != "completed" then Some(RunEndedWithStatus(run.status))
      else None
  }

  /** The assistant-authored messages, in list order (app.js:793). */
  function AssistantMessages(ms: seq<Message>): (r: seq<Message>)
    ensures |r| <= |ms|
    ensures forall m :: m in r ==> m in ms && m.role == "assistant"
    ensures forall i :: 0 <= i < |ms| && ms[i].role == "assistant" ==> ms[i] in r
  {
    if ms == [] then []
    else (if ms[0].role == "assistant" then [ms[0]] else []) + AssistantMessages(ms[1..])
  }

  /** The reply is the first text part of the first assistant message
      (app.js:796-815). */
  function ExtractReply(ms: seq<Message>, thread: string): (r: Result<Answer, TurnError>)
    ensures r.Success? || r == Failure(NoResponse) || r == Failure(InvalidResponseFormat)
    ensures r == Failure(NoResponse) <==> forall m :: m in ms ==> m.role != "assistant"
    ensures r.Success? ==> r.value.threadId == thread
  {
    var mine := AssistantMessages(ms);
    if |mine| == 0 then Failure(NoResponse)
    else if |mine[0].content| == 0 || mine[0].content[0].text.None? then Failure(InvalidResponseFormat)
    else Success(Answer(mine[0].content[0].text.value, thread))
  }

  /** Index of the first assistant message. */
  predicate FirstAssistantAt(ms: seq<Message>, i: int) {
    0 <= i < |ms| && ms[i].role == "assistant" && forall j :: 0 <= j < i ==> ms[j].role != "assistant"
  }

  lemma {:induction false} FirstAssistantMessage(ms: seq<Message>, i: int)
    requires FirstAssistantAt(ms, i)
    ensures |AssistantMessages(ms)| > 0 && AssistantMessages(ms)[0] == ms[i]
  {
    if i > 0 {
      assert FirstAssistantAt(ms[1..], i - 1);
      FirstAssistantMessage(ms[1..], i - 1);
    }
  }

  /** The reply comes from the first assistant-authored message and from
      nothing else: no assistant message gives NoResponse; otherwise that
      message decides between its text and InvalidResponseFormat. */
  lemma ExtractReplyMeaning(ms: seq<Message>, thread: string)
    ensures ExtractReply(ms, thread) == Failure(NoResponse) <==>
              forall i :: 0 <= i < |ms| ==> ms[i].role != "assistant"
    ensures forall i :: FirstAssistantAt(ms, i) ==>
              ExtractReply(ms, thread) ==
                if |ms[i].content| == 0 || ms[i].content[0].text.None? then Failure(InvalidResponseFormat)
                else Success(Answer(ms[i].content[0].text.value, thread))
  {
    forall i | FirstAssistantAt(ms, i)
      ensures ExtractReply(ms, thread) ==
                if |ms[i].content| == 0 || ms[i].content[0].text.None? then Failure(InvalidResponseFormat)
                else Success(Answer(ms[i].content[0].text.value, thread))
    {
      FirstAssistantMessage(ms, i);
    }
    if exists i :: 0 <= i < |ms| && ms[i].role == "assistant" {
      var i := FirstAssistantIndex(ms);
      FirstAssistantMessage(ms, i);
    }
  }

  /** Some assistant message has a first one. */
  lemma FirstAssistantIndex(ms: seq<Message>) returns (i: int)
    requires exists i :: 0 <= i < |ms| && ms[i].role == "assistant"
    ensures FirstAssistantAt(ms, i)
  {
    var n :| 0 <= n < |ms| && ms[n].role == "assistant";
    i := 0;
    while ms[i].role != "assistant"
      invariant 0 <= i <= n
      invariant forall j :: 0 <= j < i ==> ms[j].role != "assistant"
      decreases n - i
    {
      i := i + 1;
    }
  }

  /** The whole turn once the thread is known (app.js:727-815). */
  function TurnOutcome(thread: string, s: TurnScript): (r: Result<Answer, TurnError>)
    requires Advancing(s.clock, PollIntervalMs)
    ensures r.Success? ==> s.posted.Ok? && s.started.Ok? && s.first.Ok? && s.listed.Ok? && r.value.threadId == thread
    ensures r == Failure(RunTimedOut) <==>
              s.posted.Ok? && s.started.Ok? && s.first.Ok? && Poll(s.first.value, s.statuses, s.clock, s.start, 0).TimedOut?
  {
    if s.posted.Err? then Failure(RemoteFailure(s.posted.message))
    else if s.started.Err? then Failure(RemoteFailure(s.started.message))
    else if s.first.Err? then Failure(RemoteFailure(s.first.message))
    else
      match Classify(Poll(s.first.value, s.statuses, s.clock, s.start, 0))
      case Some(err) => Failure(err)
      case None =>
        if s.listed.Err? then Failure(RemoteFailure(s.listed.message))
        else ExtractReply(s.listed.value, thread)
  }

  /** Runs one turn of `assistant` on `thread`: post the prompt as the
      user's message, start a run, poll, classify, extract.  `requests` are
      the message and run requests, in the order sent. */
  method Converse(thread: string, assistant: string, prompt: string, s: TurnScript)
    returns (r: Result<Answer, TurnError>, cancelRequested: bool, requests: seq<TurnRequest>)
    requires Advancing(s.clock, PollIntervalMs)
    ensures r == TurnOutcome(thread, s)
    ensures cancelRequested <==> r == Failure(RunTimedOut)
    ensures requests == if s.posted.Ok? then [PostUserMessage(thread, prompt), StartRun(thread, assistant)]
                        else [PostUserMessage(thread, prompt)]
  {
    cancelRequested := false;
    requests := [PostUserMessage(thread, prompt)];
    if s.posted.Err? { return Failure(RemoteFailure(s.posted.message)), false, requests; }
    requests := requests + [StartRun(thread, assistant)];
    if s.started.Err? { return Failure(RemoteFailure(s.started.message)), false, requests; }
    if s.first.Err? { return Failure(RemoteFailure(s.first.message)), false, requests; }
    var end, cancelled, _ := AwaitRun(s.first.value, s.statuses, s.clock, s.start);
    cancelRequested := cancelled;
    var err := Classify(end);
    if err.Some? {
      return Failure(err.value), cancelRequested, requests;
    }
    if s.listed.Err? { return Failure(RemoteFailure(s.listed.message)), false, requests; }
    r := ExtractReply(s.listed.value, thread);
  }

  /** Fetches k..j-1 all answered with a status that is not terminal. */
  ghost predicate QuietUntil(statuses: nat -> Reply<Run>, k: nat, j: nat) {
    forall i: nat :: k <= i < j ==> statuses(i).Ok? && !IsTerminal(statuses(i).value.status)
  }

  /** The poll ends in one of three ways only: at a terminal status; at a
      deadline check past the budget, every fetch before it having answered
      a non-terminal status; or at a failing fetch, keeping a
      status that is not terminal.  The converse of the time-out case is
      PollTimesOutWhenQuiet. */
  lemma {:induction false} PollEndsThreeWays(last: Run, statuses: nat -> Reply<Run>, clock: nat -> int, start: int, k: nat)
    requires Advancing(clock, PollIntervalMs)
    ensures Poll(last, statuses, clock, start, k).TimedOut? ==>
              !IsTerminal(last.status) &&
              exists j: nat :: k <= j && clock(j) - start > MaxWaitMs && QuietUntil(statuses, k, j)
    ensures var e := Poll(last, statuses, clock, start, k);
            e.Settled? && !IsTerminal(e.run.status) ==>
              exists j: nat :: k <= j && statuses(j).Err? && QuietUntil(statuses, k, j)
    decreases start + MaxWaitMs - clock(k)
  {
    if IsTerminal(last.status) {
    } else if clock(k) - start > MaxWaitMs {
      assert QuietUntil(statuses, k, k);
    } else if statuses(k).Err? {
      assert QuietUntil(statuses, k, k);
    } else {
      var next := statuses(k).value;
      PollEndsThreeWays(next, statuses, clock, start, k + 1);
      var e := Poll(next, statuses, clock, start, k + 1);
      if e.TimedOut? {
        var j: nat :| k + 1 <= j && clock(j) - start > MaxWaitMs && QuietUntil(statuses, k + 1, j);
        assert QuietUntil(statuses, k, j);
      } else if !IsTerminal(e.run.status) {
        var j: nat :| k + 1 <= j && statuses(j).Err? && QuietUntil(statuses, k + 1, j);
        assert QuietUntil(statuses, k, j);
      }
    }
  }

  /** While every fetch answers a status that is not terminal, a deadline
      check past the budget ends the poll with a time-out. */
  lemma {:induction false} PollTimesOutWhenQuiet(last: Run, statuses: nat -> Reply<Run>, clock: nat -> int,
                                                  start: int, k: nat, j: nat)
    requires Advancing(clock, PollIntervalMs)
    requires k <= j && !IsTerminal(last.status) && QuietUntil(statuses, k, j) && clock(j) - start > MaxWaitMs
    ensures Poll(last, statuses, clock, start, k).TimedOut?
    decreases j - k
  {
    if clock(k) - start <= MaxWaitMs {
      PollTimesOutWhenQuiet(statuses(k).value, statuses, clock, start, k + 1, j);
    }
  }

  /** A turn never invents a reply: a successful turn saw its run complete,
      listed the thread's messages, and answers with the first text part of
      the first assistant message, on the thread it was given. */
  lemma TurnAnswerIsGenuine(thread: string, s: TurnScript)
    requires Advancing(s.clock, PollIntervalMs)
    ensures TurnOutcome(thread, s).Success? ==>
              && s.posted.Ok? && s.started.Ok? && s.first.Ok? && s.listed.Ok?
              && Poll(s.first.value, s.statuses, s.clock, s.start, 0).Settled?
              && Poll(s.first.value, s.statuses, s.clock, s.start, 0).run.status == "completed"
              && exists i :: FirstAssistantAt(s.listed.value, i)
                   && |s.listed.value[i].content| > 0 && s.listed.value[i].content[0].text.Some?
                   && TurnOutcome(thread, s).value ==
                        Answer(s.listed.value[i].content[0].text.value, thread)
  {
    if TurnOutcome(thread, s).Success? {
      var ms := s.listed.value;
      ExtractReplyMeaning(ms, thread);
      var i := FirstAssistantIndex(ms);
    }
  }

  /** Status fetches of the failing-run scenario: in_progress, in_progress,
      then failed with "quota exceeded". */
  function QuotaStatuses(k: nat): Reply<Run> {
    if k < 2 then Ok(Run("in_progress", None)) else Ok(Run("failed", Some("quota exceeded")))
  }

  /** A run seen as queued, in_progress, in_progress, failed ("quota
      exceeded") fails the turn with RunFailed carrying that message. */
  lemma QuotaExceededTurn(thread: string, listed: Reply<seq<Message>>)
    ensures var clock := (k: nat) => 1000 * k;
            Advancing(clock, PollIntervalMs) &&
            TurnOutcome(thread, TurnScript(Ok("msg_1"), Ok("run_1"), Ok(Run("queued", None)), 0,
                                           QuotaStatuses, clock, listed))
              == Failure(RunFailed("quota exceeded"))
  {
    var clock := (k: nat) => 1000 * k;
    assert Advancing(clock, PollIntervalMs);
    var failed := Run("failed", Some("quota exceeded"));
    assert Poll(failed, QuotaStatuses, clock, 0, 3) == Settled(failed);
    assert Poll(Run("in_progress", None), QuotaStatuses, clock, 0, 2) == Settled(failed);
    assert Poll(Run("in_progress", None), QuotaStatuses, clock, 0, 1) == Settled(failed);
    assert Poll(Run("queued", None), QuotaStatuses, clock, 0, 0) == Settled(failed);
  }
}
