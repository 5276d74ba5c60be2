/** What the browser's create-assistant pipeline computes
    (public/app.js:117-266): a download pass over the selection, an upload
    pass over the documents that have a local file or a known file id, and
    the list of file ids both passes accumulate.  A document whose file id
    is already known is pushed once by each pass. */
module Pipeline {
  import opened Outcomes
  import opened Documents

  /** A document that could not be processed, with the reason shown. */
  datatype FailedDocument = FailedDocument(title: string, error: string)

  /** How a request of a pass ends: an answer, a refusal carrying the
      server's error text, or a thrown error carrying its message. */
  datatype Attempt = Done(value: string) | Refused(error: string) | Threw(message: string)

  /** The status a pass ends with: 'success', 'warning' or 'error'. */
  datatype LoopStatus = LoopSuccess | LoopWarning | LoopError

  /** The status of a pass with `successes` of `total` documents processed
      (public/app.js:179-185, 248-254); an empty pass is a success. */
  function StatusOf(successes: nat, total: nat): (st: LoopStatus)
    ensures st == LoopSuccess <==> successes == total
    ensures st == LoopWarning <==> successes != total && successes > 0
    ensures st == LoopError <==> successes != total && successes == 0
  {
    if successes == total then LoopSuccess else if successes > 0 then LoopWarning else LoopError
  }

  /** The browser knows a file id for the document (a truthy map entry). */
  predicate Cached(cache: map<string, string>, id: string) {
    id in cache && cache[id] != ""
  }

  function OrDefault(message: string, fallback: string): (m: string)
    ensures message != "" ==> m == message
    ensures message == "" ==> m == fallback
  {
    if message == "" then fallback else message
  }

  /** The reason shown for a request that did not succeed: the server's
      error text or the thrown error's message, each with its own fallback. */
  function ErrorText(a: Attempt, refusedFallback: string, thrownFallback: string): (m: string)
    requires !a.Done?
    ensures a.Refused? ==> m == OrDefault(a.error, refusedFallback)
    ensures a.Threw? ==> m == OrDefault(a.message, thrownFallback)
  {
    match a
    case Refused(error) => OrDefault(error, refusedFallback)
    case Threw(message) => OrDefault(message, thrownFallback)
  }

  /** The known file ids of the first `n` documents of `s`, in order. */
  function CachedIds(s: seq<Selected>, cache: map<string, string>, n: nat): (ids: seq<string>)
    requires n <= |s|
    ensures |ids| <= n
  {
    if n == 0 then []
    else CachedIds(s, cache, n - 1) + (if Cached(cache, s[n - 1].id) then [cache[s[n - 1].id]] else [])
  }

  lemma {:induction false} CachedIdsHas(s: seq<Selected>, cache: map<string, string>, n: nat, k: nat)
    requires k < n <= |s| && Cached(cache, s[k].id)
    ensures cache[s[k].id] in CachedIds(s, cache, n)
  {
    if k < n - 1 {
      CachedIdsHas(s, cache, n - 1, k);
    }
  }

  /** The state a pass accumulates: the file ids pushed, the failures, the
      successes counted, the selection (whose local paths the download pass
      records), the known file ids, and the positions it sent a request for. */
  datatype Pass = Pass(fileIds: seq<string>, failed: seq<FailedDocument>, successes: nat,
                       docs: seq<Selected>, cache: map<string, string>, requested: set<nat>)

  /** One step of the download pass (public/app.js:125-176): a document with
      a known file id has it pushed and counts as a success; any other has
      its PDF requested, and either its local path recorded or a failure. */
  function DownloadStep(p: Pass, i: nat, downloads: nat -> Attempt): (q: Pass)
    requires i < |p.docs|
    ensures q.cache == p.cache && |q.docs| == |p.docs|
  {
    var doc := p.docs[i];
    if Cached(p.cache, doc.id) then
      p.(fileIds := p.fileIds + [p.cache[doc.id]], successes := p.successes + 1)
    else if downloads(i).Done? then
      p.(successes := p.successes + 1, docs := p.docs[i := doc.(localFilePath := downloads(i).value)],
         requested := p.requested + {i})
    else
      p.(failed := p.failed + [FailedDocument(doc.title, ErrorText(downloads(i), "Unknown error", "Unknown error during download"))],
         requested := p.requested + {i})
  }

  /** The download pass over the first `n` selected documents; `downloads(i)`
      is the answer to the PDF request for position i. */
  function Downloaded(sel: seq<Selected>, cache: map<string, string>, downloads: nat -> Attempt, n: nat)
    : (p: Pass)
    requires n <= |sel|
    ensures |p.docs| == |sel| && p.cache == cache
  {
    if n == 0 then Pass([], [], 0, sel, cache, {})
    else DownloadStep(Downloaded(sel, cache, downloads, n - 1), n - 1, downloads)
  }

  /** The download pass changes only the local paths of the documents it has
      visited: a successful download records the answered path. */
  lemma {:induction false} DownloadedPaths(sel: seq<Selected>, cache: map<string, string>,
                                           downloads: nat -> Attempt, n: nat, p: Pass)
    requires n <= |sel| && p == Downloaded(sel, cache, downloads, n)
    ensures forall k :: n <= k < |sel| ==> p.docs[k] == sel[k]
    ensures forall k :: 0 <= k < n ==>
              p.docs[k] == sel[k].(localFilePath :=
                if !Cached(cache, sel[k].id) && downloads(k).Done? then downloads(k).value
                else sel[k].localFilePath)
  {
    if n > 0 {
      var before := Downloaded(sel, cache, downloads, n - 1);
      DownloadedPaths(sel, cache, downloads, n - 1, before);
      DownloadStepPaths(sel, cache, downloads, n - 1, before, p);
    }
  }

  /** One download step extends the path property of DownloadedPaths by one position. */
  lemma DownloadStepPaths(sel: seq<Selected>, cache: map<string, string>, downloads: nat -> Attempt,
                          i: nat, before: Pass, p: Pass)
    requires i < |sel| == |before.docs| && before.cache == cache
    requires p == DownloadStep(before, i, downloads)
    requires forall k :: i <= k < |sel| ==> before.docs[k] == sel[k]
    requires forall k :: 0 <= k < i ==>
               before.docs[k] == sel[k].(localFilePath :=
                 if !Cached(cache, sel[k].id) && downloads(k).Done? then downloads(k).value
                 else sel[k].localFilePath)
    ensures forall k :: i + 1 <= k < |sel| ==> p.docs[k] == sel[k]
    ensures forall k :: 0 <= k < i + 1 ==>
              p.docs[k] == sel[k].(localFilePath :=
                if !Cached(cache, sel[k].id) && downloads(k).Done? then downloads(k).value
                else sel[k].localFilePath)
  {
  }

  /** A document the download pass has not reached yet is as selected. */
  lemma {:induction false} DownloadedUnvisited(sel: seq<Selected>, cache: map<string, string>,
                                               downloads: nat -> Attempt, n: nat, p: Pass, k: nat)
    requires n <= k < |sel| && p == Downloaded(sel, cache, downloads, n)
    ensures p.docs[k] == sel[k]
  {
    if n > 0 {
      DownloadedUnvisited(sel, cache, downloads, n - 1, Downloaded(sel, cache, downloads, n - 1), k);
    }
  }

  /** Every selected document visited is either a success or a failure, and
      the ids pushed are the known ids of the documents visited. */
  lemma {:induction false} DownloadedCounts(sel: seq<Selected>, cache: map<string, string>,
                                            downloads: nat -> Attempt, n: nat, p: Pass)
    requires n <= |sel| && p == Downloaded(sel, cache, downloads, n)
    ensures p.successes + |p.failed| == n
    ensures p.fileIds == CachedIds(sel, cache, n)
  {
    if n > 0 {
      var before := Downloaded(sel, cache, downloads, n - 1);
      DownloadedCounts(sel, cache, downloads, n - 1, before);
      DownloadedUnvisited(sel, cache, downloads, n - 1, before, n - 1);
      DownloadStepCounts(sel, cache, downloads, n - 1, before, p);
    }
  }

  /** One download step extends the counts of DownloadedCounts by one position. */
  lemma DownloadStepCounts(sel: seq<Selected>, cache: map<string, string>, downloads: nat -> Attempt,
                           i: nat, before: Pass, p: Pass)
    requires i < |sel| == |before.docs| && before.cache == cache && before.docs[i] == sel[i]
    requires p == DownloadStep(before, i, downloads)
    requires before.successes + |before.failed| == i && before.fileIds == CachedIds(sel, cache, i)
    ensures p.successes + |p.failed| == i + 1
    ensures p.fileIds == CachedIds(sel, cache, i + 1)
  {
  }

  /** The PDF requests of the download pass are exactly for the visited
      documents without a known file id. */
  lemma {:induction false} DownloadedRequests(sel: seq<Selected>, cache: map<string, string>,
                                              downloads: nat -> Attempt, n: nat, p: Pass, k: nat)
    requires n <= |sel| && p == Downloaded(sel, cache, downloads, n)
    ensures k in p.requested <==> k < n && !Cached(cache, sel[k].id)
  {
    if n > 0 {
      var before := Downloaded(sel, cache, downloads, n - 1);
      DownloadedRequests(sel, cache, downloads, n - 1, before, k);
      DownloadedUnvisited(sel, cache, downloads, n - 1, before, n - 1);
      DownloadStepRequests(sel, cache, downloads, n - 1, before, p, k);
    }
  }

  /** One download step extends DownloadedRequests by one position. */
  lemma DownloadStepRequests(sel: seq<Selected>, cache: map<string, string>, downloads: nat -> Attempt,
                             i: nat, before: Pass, p: Pass, k: nat)
    requires i < |sel| == |before.docs| && before.cache == cache && before.docs[i] == sel[i]
    requires p == DownloadStep(before, i, downloads)
    requires k in before.requested <==> k < i && !Cached(cache, sel[k].id)
    ensures k in p.requested <==> k < i + 1 && !Cached(cache, sel[k].id)
  {
  }

  /** The documents the upload pass visits (public/app.js:188): those with a
      local file or a known file id. */
  function ToUpload(docs: seq<Selected>, cache: map<string, string>): (r: seq<Selected>)
    ensures |r| <= |docs|
    ensures forall d :: d in r <==> d in docs && (d.localFilePath != "" || Cached(cache, d.id))
  {
    if docs == [] then []
    else (if docs[0].localFilePath != "" || Cached(cache, docs[0].id) then [docs[0]] else []) +
         ToUpload(docs[1..], cache)
  }

  /** One step of the upload pass (public/app.js:194-245): a document with a
      known file id has it pushed (a second time) and counts as a success;
      any other is uploaded, and either its new file id is recorded and
      pushed or a failure is added. */
  function UploadStep(p: Pass, todo: seq<Selected>, i: nat, uploads: nat -> Attempt): (q: Pass)
    requires i < |todo|
    ensures q.successes + |q.failed| == p.successes + |p.failed| + 1
    ensures Cached(p.cache, todo[i].id) ==>
              q.cache == p.cache && q.fileIds == p.fileIds + [p.cache[todo[i].id]] && q.requested == p.requested
    ensures !Cached(p.cache, todo[i].id) ==>
              && q.requested == p.requested + {i}
              && q.cache == (if uploads(i).Done? then p.cache[todo[i].id := uploads(i).value] else p.cache)
              && q.fileIds == p.fileIds + (if uploads(i).Done? then [uploads(i).value] else [])
  {
    var doc := todo[i];
    if Cached(p.cache, doc.id) then
      p.(fileIds := p.fileIds + [p.cache[doc.id]], successes := p.successes + 1)
    else if uploads(i).Done? then
      p.(cache := p.cache[doc.id := uploads(i).value], fileIds := p.fileIds + [uploads(i).value],
         successes := p.successes + 1, requested := p.requested + {i})
    else
      p.(failed := p.failed + [FailedDocument(doc.title, ErrorText(uploads(i), "Failed to upload to OpenAI", "Unknown error during upload"))],
         requested := p.requested + {i})
  }

  /** The upload pass over the first `n` documents of `todo`, continuing the
      file ids and failures of the download pass; `uploads(i)` is the answer
      to the upload of position i. */
  function Uploaded(todo: seq<Selected>, fileIds: seq<string>, failed: seq<FailedDocument>,
                    cache: map<string, string>, uploads: nat -> Attempt, n: nat)
    : (p: Pass)
    requires n <= |todo|
    ensures |fileIds| <= |p.fileIds|
    ensures p.successes + |p.failed| == |failed| + n
  {
    if n == 0 then Pass(fileIds, failed, 0, [], cache, {})
    else
      var p := Uploaded(todo, fileIds, failed, cache, uploads, n - 1);
      UploadStep(p, todo, n - 1, uploads)
  }

  /** The upload pass extends the file ids and the failures it starts from. */
  lemma {:induction false} UploadedExtends(todo: seq<Selected>, fileIds: seq<string>, failed: seq<FailedDocument>,
                                           cache: map<string, string>, uploads: nat -> Attempt,
                                           n: nat, p: Pass)
    requires n <= |todo| && p == Uploaded(todo, fileIds, failed, cache, uploads, n)
    ensures p.fileIds[..|fileIds|] == fileIds
    ensures |failed| <= |p.failed| && p.failed[..|failed|] == failed
  {
    if n > 0 {
      var before := Uploaded(todo, fileIds, failed, cache, uploads, n - 1);
      UploadedExtends(todo, fileIds, failed, cache, uploads, n - 1, before);
      assert p == UploadStep(before, todo, n - 1, uploads);
      assert p.fileIds[..|fileIds|] == before.fileIds[..|fileIds|];
      assert p.failed[..|failed|] == p.failed[..|before.failed|][..|failed|];
    }
  }

  /** The upload pass keeps every file id known when it started. */
  lemma {:induction false} UploadedKeepsKnown(todo: seq<Selected>, fileIds: seq<string>, failed: seq<FailedDocument>,
                                              cache: map<string, string>, uploads: nat -> Attempt,
                                              n: nat, p: Pass)
    requires n <= |todo| && p == Uploaded(todo, fileIds, failed, cache, uploads, n)
    ensures forall id :: Cached(cache, id) ==> id in p.cache && p.cache[id] == cache[id]
  {
    if n > 0 {
      UploadedKeepsKnown(todo, fileIds, failed, cache, uploads, n - 1, Uploaded(todo, fileIds, failed, cache, uploads, n - 1));
    }
  }

  /** The upload pass records file ids only for the documents it visited. */
  lemma {:induction false} UploadedTouchesVisited(todo: seq<Selected>, fileIds: seq<string>, failed: seq<FailedDocument>,
                                                  cache: map<string, string>, uploads: nat -> Attempt,
                                                  n: nat, p: Pass, id: string)
    requires n <= |todo| && p == Uploaded(todo, fileIds, failed, cache, uploads, n)
    requires forall j :: 0 <= j < n ==> todo[j].id != id
    ensures id in p.cache <==> id in cache
    ensures id in cache ==> p.cache[id] == cache[id]
  {
    if n > 0 {
      UploadedTouchesVisited(todo, fileIds, failed, cache, uploads, n - 1,
                             Uploaded(todo, fileIds, failed, cache, uploads, n - 1), id);
    }
  }

  /** The upload pass sends no upload for a document whose id was known. */
  lemma {:induction false} UploadedRequests(todo: seq<Selected>, fileIds: seq<string>, failed: seq<FailedDocument>,
                                            cache: map<string, string>, uploads: nat -> Attempt,
                                            n: nat, p: Pass)
    requires n <= |todo| && p == Uploaded(todo, fileIds, failed, cache, uploads, n)
    ensures forall j :: j in p.requested ==> j < n && !Cached(cache, todo[j].id)
  {
    if n > 0 {
      var before := Uploaded(todo, fileIds, failed, cache, uploads, n - 1);
      UploadedRequests(todo, fileIds, failed, cache, uploads, n - 1, before);
      UploadedKeepsKnown(todo, fileIds, failed, cache, uploads, n - 1, before);
      UploadStepRequests(todo, cache, uploads, n - 1, before, p);
    }
  }

  /** One upload step extends UploadedRequests by one position. */
  lemma UploadStepRequests(todo: seq<Selected>, cache: map<string, string>, uploads: nat -> Attempt,
                           i: nat, before: Pass, p: Pass)
    requires i < |todo| && p == UploadStep(before, todo, i, uploads)
    requires Cached(cache, todo[i].id) ==> Cached(before.cache, todo[i].id)
    requires forall j :: j in before.requested ==> j < i && !Cached(cache, todo[j].id)
    ensures forall j :: j in p.requested ==> j < i + 1 && !Cached(cache, todo[j].id)
  {
  }

  /** Both passes over a selection. */
  datatype Processed = Processed(download: Pass, todo: seq<Selected>, upload: Pass)

  function Processing(sel: seq<Selected>, cache: map<string, string>,
                      downloads: nat -> Attempt, uploads: nat -> Attempt)
    : (pr: Processed)
    ensures pr.download == Downloaded(sel, cache, downloads, |sel|)
    ensures pr.todo == ToUpload(pr.download.docs, cache)
    ensures pr.upload == Uploaded(pr.todo, pr.download.fileIds, pr.download.failed, cache, uploads, |pr.todo|)
  {
    var dl := Downloaded(sel, cache, downloads, |sel|);
    var todo := ToUpload(dl.docs, cache);
    Processed(dl, todo, Uploaded(todo, dl.fileIds, dl.failed, cache, uploads, |todo|))
  }

  /** A document whose file id was known before the run is neither
      downloaded nor uploaded; every other selected document is downloaded. */
  lemma CachedNeverFetched(sel: seq<Selected>, cache: map<string, string>,
                           downloads: nat -> Attempt, uploads: nat -> Attempt, pr: Processed)
    requires pr == Processing(sel, cache, downloads, uploads)
    ensures forall k :: k in pr.download.requested <==> 0 <= k < |sel| && !Cached(cache, sel[k].id)
    ensures forall j :: j in pr.upload.requested ==> j < |pr.todo| && !Cached(cache, pr.todo[j].id)
  {
    forall k: nat ensures k in pr.download.requested <==> k < |sel| && !Cached(cache, sel[k].id) {
      DownloadedRequests(sel, cache, downloads, |sel|, pr.download, k);
    }
    UploadedRequests(pr.todo, pr.download.fileIds, pr.download.failed, cache, uploads, |pr.todo|, pr.upload);
  }

  /** The upload pass pushes the known file id of every document it visits
      whose id was known before it started. */
  lemma {:induction false} UploadedPushesCached(todo: seq<Selected>, fileIds: seq<string>, failed: seq<FailedDocument>,
                                                cache: map<string, string>, uploads: nat -> Attempt,
                                                n: nat, p: Pass, m: nat)
    requires m < n <= |todo| && p == Uploaded(todo, fileIds, failed, cache, uploads, n)
    requires Cached(cache, todo[m].id)
    ensures cache[todo[m].id] in p.fileIds[|fileIds|..]
  {
    var before := Uploaded(todo, fileIds, failed, cache, uploads, n - 1);
    if m < n - 1 {
      UploadedPushesCached(todo, fileIds, failed, cache, uploads, n - 1, before, m);
      StepKeepsPushed(before, p, todo, n - 1, uploads, |fileIds|, cache[todo[m].id]);
    } else {
      UploadedKeepsKnown(todo, fileIds, failed, cache, uploads, n - 1, before);
      StepPushesCached(before, p, todo, n - 1, uploads, |fileIds|);
    }
  }

  /** An upload step keeps every file id pushed after position `base`. */
  lemma StepKeepsPushed(before: Pass, p: Pass, todo: seq<Selected>, i: nat, uploads: nat -> Attempt,
                        base: nat, v: string)
    requires i < |todo| && p == UploadStep(before, todo, i, uploads)
    requires base <= |before.fileIds| && v in before.fileIds[base..]
    ensures v in p.fileIds[base..]
  {
    var extra := p.fileIds[|before.fileIds|..];
    assert p.fileIds == before.fileIds + extra;
    assert p.fileIds[base..] == before.fileIds[base..] + extra;
  }

  /** An upload step over a document with a known file id pushes that id. */
  lemma StepPushesCached(before: Pass, p: Pass, todo: seq<Selected>, i: nat, uploads: nat -> Attempt, base: nat)
    requires i < |todo| && p == UploadStep(before, todo, i, uploads)
    requires base <= |before.fileIds| && Cached(before.cache, todo[i].id)
    ensures before.cache[todo[i].id] in p.fileIds[base..]
  {
    assert p.fileIds[base..] == before.fileIds[base..] + [before.cache[todo[i].id]];
  }

  /** An element found before and after a split point occurs twice. */
  lemma OccursTwice(before: seq<string>, all: seq<string>, v: string)
    requires |before| <= |all| && all[..|before|] == before
    requires v in before && v in all[|before|..]
    ensures multiset(all)[v] >= 2
  {
    assert all == before + all[|before|..];
    assert multiset(all) == multiset(before) + multiset(all[|before|..]);
  }

  /** A selected document whose file id is known is visited by the upload pass. */
  lemma KnownDocumentVisited(sel: seq<Selected>, cache: map<string, string>,
                             downloads: nat -> Attempt, dl: Pass, k: nat)
    returns (m: nat)
    requires dl == Downloaded(sel, cache, downloads, |sel|)
    requires k < |sel| && Cached(cache, sel[k].id)
    ensures m < |ToUpload(dl.docs, cache)| && ToUpload(dl.docs, cache)[m].id == sel[k].id
  {
    DownloadedPaths(sel, cache, downloads, |sel|, dl);
    var doc := dl.docs[k];
    assert doc.id == sel[k].id && doc in dl.docs;
    var todo := ToUpload(dl.docs, cache);
    assert doc in todo;
    m :| 0 <= m < |todo| && todo[m] == doc;
  }

  /** The double push: a document whose file id was known before the run
      has that id pushed by the download pass and again by the upload pass. */
  lemma CachedPushedTwice(sel: seq<Selected>, cache: map<string, string>,
                          downloads: nat -> Attempt, uploads: nat -> Attempt, pr: Processed, k: nat)
    requires pr == Processing(sel, cache, downloads, uploads)
    requires k < |sel| && Cached(cache, sel[k].id)
    ensures cache[sel[k].id] in pr.download.fileIds
    ensures cache[sel[k].id] in pr.upload.fileIds[|pr.download.fileIds|..]
    ensures multiset(pr.upload.fileIds)[cache[sel[k].id]] >= 2
  {
    DownloadedCounts(sel, cache, downloads, |sel|, pr.download);
    assert sel[..|sel|] == sel;
    CachedIdsHas(sel, cache, |sel|, k);
    var m := KnownDocumentVisited(sel, cache, downloads, pr.download, k);
    UploadedPushesCached(pr.todo, pr.download.fileIds, pr.download.failed, cache, uploads, |pr.todo|, pr.upload, m);
    UploadedExtends(pr.todo, pr.download.fileIds, pr.download.failed, cache, uploads, |pr.todo|, pr.upload);
    OccursTwice(pr.download.fileIds, pr.upload.fileIds, cache[sel[k].id]);
  }

  /** A recorded file id stays recorded while no later document shares its id. */
  lemma {:induction false} RecordPersists(todo: seq<Selected>, fileIds: seq<string>, failed: seq<FailedDocument>,
                                          cache: map<string, string>, uploads: nat -> Attempt,
                                          k: nat, n: nat, p: Pass, value: string)
    requires k < n <= |todo| && UniqueIds(todo) && p == Uploaded(todo, fileIds, failed, cache, uploads, n)
    requires todo[k].id in Uploaded(todo, fileIds, failed, cache, uploads, k + 1).cache
    requires Uploaded(todo, fileIds, failed, cache, uploads, k + 1).cache[todo[k].id] == value
    ensures todo[k].id in p.cache && p.cache[todo[k].id] == value
  {
    if n > k + 1 {
      var before := Uploaded(todo, fileIds, failed, cache, uploads, n - 1);
      RecordPersists(todo, fileIds, failed, cache, uploads, k, n - 1, before, value);
      assert todo[n - 1].id != todo[k].id;
      assert p == UploadStep(before, todo, n - 1, uploads);
    }
  }

  /** Every successful upload is recorded as the document's file id
      (public/app.js:231), when the selection's ids are distinct. */
  lemma UploadsRecorded(todo: seq<Selected>, fileIds: seq<string>, failed: seq<FailedDocument>,
                        cache: map<string, string>, uploads: nat -> Attempt, p: Pass, k: nat)
    requires p == Uploaded(todo, fileIds, failed, cache, uploads, |todo|)
    requires UniqueIds(todo) && k < |todo|
    requires !Cached(cache, todo[k].id) && uploads(k).Done?
    ensures todo[k].id in p.cache && p.cache[todo[k].id] == uploads(k).value
  {
    var before := Uploaded(todo, fileIds, failed, cache, uploads, k);
    assert forall j :: 0 <= j < k ==> todo[j].id != todo[k].id;
    UploadedTouchesVisited(todo, fileIds, failed, cache, uploads, k, before, todo[k].id);
    assert !Cached(before.cache, todo[k].id);
    assert Uploaded(todo, fileIds, failed, cache, uploads, k + 1) == UploadStep(before, todo, k, uploads);
    RecordPersists(todo, fileIds, failed, cache, uploads, k, |todo|, p, uploads(k).value);
  }

  /** The statuses report the failures: a pass is a success exactly when it
      adds no failure, an error exactly when none of its documents succeeds;
      a failure is reported for every document not processed. */
  lemma StatusesMeaning(sel: seq<Selected>, cache: map<string, string>,
                        downloads: nat -> Attempt, uploads: nat -> Attempt, pr: Processed)
    requires pr == Processing(sel, cache, downloads, uploads)
    ensures StatusOf(pr.download.successes, |sel|) == LoopSuccess <==> pr.download.failed == []
    ensures StatusOf(pr.download.successes, |sel|) == LoopError <==> |sel| > 0 && |pr.download.failed| == |sel|
    ensures StatusOf(pr.upload.successes, |pr.todo|) == LoopSuccess <==> |pr.upload.failed| == |pr.download.failed|
    ensures |pr.upload.failed| == (|sel| - pr.download.successes) + (|pr.todo| - pr.upload.successes)
  {
    DownloadedCounts(sel, cache, downloads, |sel|, pr.download);
  }
}
