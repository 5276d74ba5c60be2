/** Listing the remote assistants (app.js:879-934): page through the whole
    directory with an `after` cursor, sort newest first, keep those with the
    file_search tool and format a summary of each. */
module Listing {
  import opened Outcomes

  /** Entries per `assistants.list` page. */
  const PageLimit: nat := 100
  /** Characters of instructions kept in a summary. */
  const PreviewLength: nat := 100

  /** An assistant as `assistants.list` returns it (`created_at` as a number). */
  datatype Listed = Listed(
    id: string, name: string, createdAt: int, model: string, description: string,
    instructions: Option<string>, tools: seq<string>)

  /** The summary the endpoint returns for one assistant. */
  datatype Entry = Entry(
    id: string, name: string, createdAt: int, model: string, description: string, instructions: string)

  /** The remote directory: ids are non-empty and unique. */
  ghost predicate WellFormedDirectory(dir: seq<Listed>) {
    (forall i :: 0 <= i < |dir| ==> dir[i].id != "") &&
    (forall i, j :: 0 <= i < j < |dir| ==> dir[i].id != dir[j].id)
  }

  function Min(a: int, b: int): int {
    if a <= b then a else b
  }

  /** Position of the entry with the given id, -1 when there is none. */
  function IndexOf(dir: seq<Listed>, id: string): (i: int)
    ensures -1 <= i < |dir|
    ensures i >= 0 ==> dir[i].id == id && forall j :: 0 <= j < i ==> dir[j].id != id
    ensures i == -1 ==> forall j :: 0 <= j < |dir| ==> dir[j].id != id
  {
    if dir == [] then -1
    else if dir[0].id == id then 0
    else var k := IndexOf(dir[1..], id); if k == -1 then -1 else k + 1
  }

  /** The page `assistants.list({limit: 100, after})` answers: the entries
      following the one with id `after` (from the start when `after` is ""),
      at most 100 of them.  An unknown cursor has nothing after it. */
  function Page(dir: seq<Listed>, after: string): seq<Listed> {
    var from := if after == "" then 0 else (var i := IndexOf(dir, after); if i < 0 then |dir| else i + 1);
    dir[from .. Min(from + PageLimit, |dir|)]
  }

  /** The cursor of the j-th request: none, then the id of the last entry
      of the page before. */
  function Cursor(dir: seq<Listed>, j: nat): string
    requires j * PageLimit <= |dir|
  {
    if j == 0 then "" else dir[j * PageLimit - 1].id
  }

  lemma PageAt(dir: seq<Listed>, j: nat)
    requires WellFormedDirectory(dir) && j * PageLimit <= |dir|
    ensures Page(dir, Cursor(dir, j)) == dir[j * PageLimit .. Min(j * PageLimit + PageLimit, |dir|)]
  {
    if j > 0 {
      var p := j * PageLimit - 1;
      var i := IndexOf(dir, dir[p].id);
      assert i == p;
    }
  }

  /** What the j-th page contributes: a full page moves the cursor to its
      last entry; a short one ends the directory, and j is the last page. */
  lemma PageStep(dir: seq<Listed>, j: nat)
    requires WellFormedDirectory(dir) && j * PageLimit <= |dir|
    ensures var page := Page(dir, Cursor(dir, j));
            && dir[..j * PageLimit] + page == dir[..j * PageLimit + |page|]
            && (|page| < PageLimit ==> j * PageLimit + |page| == |dir| && j == |dir| / PageLimit)
            && (|page| == PageLimit ==>
                  (j + 1) * PageLimit <= |dir| && Cursor(dir, j + 1) == page[|page| - 1].id)
            && j <= |dir| / PageLimit
  {
    PageAt(dir, j);
  }

  /** Fetches every page (app.js:883-905).  `failing` holds the cursors
      whose request the service answers with an error.  The loop succeeds
      exactly when none of the cursors it must visit fails, and then it has
      collected the whole directory in order. */
  method FetchAll(dir: seq<Listed>, failing: set<string>) returns (r: Result<seq<Listed>, string>)
    requires WellFormedDirectory(dir)
    ensures r.Success? <==> forall j: nat :: j <= |dir| / PageLimit ==> Cursor(dir, j) !in failing
    ensures r.Success? ==> r.value == dir
  {
    var all: seq<Listed> := [];
    var lastId := "";
    ghost var j: nat := 0;
    while true
      invariant j * PageLimit <= |dir|
      invariant all == dir[..j * PageLimit]
      invariant lastId == Cursor(dir, j)
      invariant forall i: nat :: i < j ==> Cursor(dir, i) !in failing
      decreases |dir| - j * PageLimit
    {
      PageStep(dir, j);
      if lastId in failing {
        return Failure("Failed to fetch assistants");
      }
      var page := Page(dir, lastId);
      all := all + page;
      if |page| < PageLimit {
        forall i: nat | i <= |dir| / PageLimit ensures Cursor(dir, i) !in failing {
          assert i <= j;
        }
        return Success(all);
      }
      lastId := page[|page| - 1].id;
      j := j + 1;
    }
  }

  /** Later created first. */
  ghost predicate NewestFirstOrder(s: seq<Listed>) {
    forall i, j :: 0 <= i < j < |s| ==> s[i].createdAt >= s[j].createdAt
  }

  /** Inserts x after every leading entry created at the same time as x or later. */
  function InsertByAge(x: Listed, s: seq<Listed>): (r: seq<Listed>)
    ensures multiset(r) == multiset(s) + multiset{x}
  {
    if s == [] then [x]
    else if s[0].createdAt >= x.createdAt then
      assert s == [s[0]] + s[1..];
      [s[0]] + InsertByAge(x, s[1..])
    else [x] + s
  }

  /** Insertion into a newest-first sequence keeps it newest first, and
      the result starts with x or with the old first entry. */
  lemma {:induction false} InsertByAgeOrdered(x: Listed, s: seq<Listed>)
    requires NewestFirstOrder(s)
    ensures NewestFirstOrder(InsertByAge(x, s))
    ensures InsertByAge(x, s)[0] == x || (s != [] && InsertByAge(x, s)[0] == s[0])
  {
    if s == [] {
    } else if s[0].createdAt >= x.createdAt {
      var tail := s[1..];
      TailOrdered(s);
      InsertByAgeOrdered(x, tail);
      var rest := InsertByAge(x, tail);
      assert rest[0].createdAt <= s[0].createdAt by {
        if rest[0] != x {
          assert tail[0] == s[1];
        }
      }
      ConsOrdered(s[0], rest);
    } else {
      ConsOrdered(x, s);
    }
  }

  lemma TailOrdered(s: seq<Listed>)
    requires s != [] && NewestFirstOrder(s)
    ensures NewestFirstOrder(s[1..])
  {
    forall i, j | 0 <= i < j < |s| - 1 ensures s[1..][i].createdAt >= s[1..][j].createdAt {
      assert s[1..][i] == s[i + 1] && s[1..][j] == s[j + 1];
    }
  }

  /** An entry no older than the first of a newest-first sequence can lead it. */
  lemma ConsOrdered(h: Listed, rest: seq<Listed>)
    requires NewestFirstOrder(rest)
    requires rest != [] ==> h.createdAt >= rest[0].createdAt
    ensures NewestFirstOrder([h] + rest)
  {
    var r := [h] + rest;
    forall i, j | 0 <= i < j < |r| ensures r[i].createdAt >= r[j].createdAt {
      assert r[j] == rest[j - 1];
      if i > 0 {
        assert r[i] == rest[i - 1];
      }
    }
  }

  /** The sort by `created_at`, newest first (app.js:908-910); entries
      created at the same time keep their order. */
  function NewestFirst(s: seq<Listed>): (r: seq<Listed>)
    ensures multiset(r) == multiset(s)
    ensures NewestFirstOrder(r)
  {
    if s == [] then []
    else
      assert s == s[..|s| - 1] + [s[|s| - 1]];
      InsertByAgeOrdered(s[|s| - 1], NewestFirst(s[..|s| - 1]));
      InsertByAge(s[|s| - 1], NewestFirst(s[..|s| - 1]))
  }

  predicate HasFileSearch(a: Listed) {
    "file_search" in a.tools
  }

  /** The assistants with the file_search tool, in order (app.js:913-915). */
  function FileSearchOnly(s: seq<Listed>): (r: seq<Listed>)
    ensures forall a :: a in r ==> a in s && HasFileSearch(a)
    ensures forall i :: 0 <= i < |s| && HasFileSearch(s[i]) ==> s[i] in r
  {
    if s == [] then []
    else (if HasFileSearch(s[0]) then [s[0]] else []) + FileSearchOnly(s[1..])
  }

  /** How often an assistant occurs among the file_search ones. */
  lemma {:induction false} FileSearchOnlyCount(s: seq<Listed>, a: Listed)
    ensures multiset(FileSearchOnly(s))[a] == if HasFileSearch(a) then multiset(s)[a] else 0
  {
    if s != [] {
      FileSearchOnlyCount(s[1..], a);
      assert s == [s[0]] + s[1..];
    }
  }

  /** The instructions preview as written (app.js:926): missing instructions
      print as the string "undefined". */
  function PreviewAsWritten(instructions: Option<string>): (p: string)
    ensures instructions.None? ==> p == "undefined"
    ensures instructions.Some? ==> p == Preview(instructions)
  {
    match instructions
    case None => "undefined"
    case Some(_) => Preview(instructions)
  }

  lemma MissingInstructionsPreviewUndefined()
    ensures PreviewAsWritten(None) == "undefined"
    ensures PreviewAsWritten(None) != PreviewAsWritten(Some(""))
  {
  }

  /** The instructions preview: the instructions when at most 100
      characters long, else their first 100 characters and "..."; nothing
      when there are none. */
  function Preview(instructions: Option<string>): (p: string)
    ensures instructions.None? ==> p == ""
    ensures instructions.Some? && |instructions.value| <= PreviewLength ==> p == instructions.value
    ensures instructions.Some? && |instructions.value| > PreviewLength ==>
              |p| == PreviewLength + 3 && p[..PreviewLength] == instructions.value[..PreviewLength] &&
              p[PreviewLength..] == "..."
  {
    match instructions
    case None => ""
    case Some(text) => text[..Min(PreviewLength, |text|)] + (if |text| > PreviewLength then "..." else "")
  }

  /** The directory entry of an assistant (app.js:918-927), with the preview
      as written: the intended preview when instructions are present, the
      string "undefined" when they are missing. */
  function Summary(a: Listed): (e: Entry)
    ensures e.id == a.id && e.name == a.name && e.createdAt == a.createdAt
    ensures e.model == a.model && e.description == a.description
    ensures a.instructions.Some? ==> e.instructions == Preview(a.instructions)
    ensures a.instructions.None? ==> e.instructions == "undefined"
  {
    Entry(a.id, a.name, a.createdAt, a.model, a.description, PreviewAsWritten(a.instructions))
  }

  function Summaries(s: seq<Listed>): (r: seq<Entry>)
    ensures |r| == |s| && forall i :: 0 <= i < |s| ==> r[i] == Summary(s[i])
  {
    if s == [] then [] else [Summary(s[0])] + Summaries(s[1..])
  }

  /** What the endpoint returns for a directory (app.js:908-927). */
  function Present(all: seq<Listed>): (p: seq<Entry>)
    ensures forall i :: 0 <= i < |p| ==> exists a :: a in all && HasFileSearch(a) && p[i] == Summary(a)
  {
    var sorted := NewestFirst(all);
    var shown := FileSearchOnly(sorted);
    forall a | a in shown ensures a in all {
      assert a in multiset(sorted);
    }
    Summaries(shown)
  }

  /** The listing holds one summary per file_search assistant of the
      directory (as many times as it occurs there), newest first. */
  lemma PresentMeaning(all: seq<Listed>)
    ensures var shown := FileSearchOnly(NewestFirst(all));
            && Present(all) == Summaries(shown)
            && multiset(shown) == multiset(FileSearchOnly(all))
            && NewestFirstOrder(shown)
            && |Present(all)| == |FileSearchOnly(all)|
  {
    var sorted := NewestFirst(all);
    var shown := FileSearchOnly(sorted);
    forall a ensures multiset(shown)[a] == multiset(FileSearchOnly(all))[a] {
      FileSearchOnlyCount(sorted, a);
      FileSearchOnlyCount(all, a);
    }
    assert multiset(shown) == multiset(FileSearchOnly(all));
    assert |multiset(shown)| == |multiset(FileSearchOnly(all))|;
    FileSearchOnlyKeepsOrder(sorted);
  }

  /** Filtering keeps the newest-first order. */
  lemma {:induction false} FileSearchOnlyKeepsOrder(s: seq<Listed>)
    requires NewestFirstOrder(s)
    ensures NewestFirstOrder(FileSearchOnly(s))
  {
    if s != [] {
      FileSearchOnlyKeepsOrder(s[1..]);
      var rest := FileSearchOnly(s[1..]);
      forall a | a in rest ensures s[0].createdAt >= a.createdAt {
        var k :| 1 <= k < |s| && s[k] == a;
      }
    }
  }

  /** The listing endpoint: fetch every page, then present them. */
  method ListAssistants(dir: seq<Listed>, failing: set<string>) returns (r: Result<seq<Entry>, string>)
    requires WellFormedDirectory(dir)
    ensures r.Success? <==> forall j: nat :: j <= |dir| / PageLimit ==> Cursor(dir, j) !in failing
    ensures r.Success? ==> r.value == Present(dir)
  {
    var fetched := FetchAll(dir, failing);
    match fetched
    case Failure(e) => r := Failure(e);
    case Success(all) => r := Success(Present(all));
  }
}
