/** The strings the browser builds for a document of a collection
    (public/app.js:495-518) and the whitespace trimming it applies to what
    the user types (public/app.js:100-101, 663). */
module Citation {

  /** The characters JavaScript's `String.prototype.trim` removes: white
      space and line terminators. */
  predicate IsSpace(c: char) {
    c in {' ', '\t', '\n', '\r', '\U{000B}', '\U{000C}', '\U{00A0}', '\U{1680}', '\U{2028}', '\U{2029}',
          '\U{202F}', '\U{205F}', '\U{3000}', '\U{FEFF}'}
    || '\U{2000}' <= c <= '\U{200A}'
  }

  /** How many white-space characters `s` starts with. */
  function LeadingSpaces(s: string): (n: nat)
    ensures n <= |s|
    ensures forall k :: 0 <= k < n ==> IsSpace(s[k])
    ensures n == |s| || !IsSpace(s[n])
  {
    if s != [] && IsSpace(s[0]) then 1 + LeadingSpaces(s[1..]) else 0
  }

  /** How many white-space characters `s` ends with. */
  function TrailingSpaces(s: string): (n: nat)
    ensures n <= |s|
    ensures forall k :: |s| - n <= k < |s| ==> IsSpace(s[k])
    ensures n == |s| || !IsSpace(s[|s| - 1 - n])
  {
    if s != [] && IsSpace(s[|s| - 1]) then 1 + TrailingSpaces(s[..|s| - 1]) else 0
  }

  /** `trim()`: what lies between the leading and the trailing white space;
      it neither starts nor ends with white space, and it is empty exactly
      when the text is all white space. */
  function Trim(s: string): (r: string)
    ensures r == [] <==> forall k :: 0 <= k < |s| ==> IsSpace(s[k])
    ensures r != [] ==> r == s[LeadingSpaces(s)..|s| - TrailingSpaces(s)]
    ensures r != [] ==> !IsSpace(r[0]) && !IsSpace(r[|r| - 1])
  {
    var i := LeadingSpaces(s);
    if i == |s| then [] else s[i..|s| - TrailingSpaces(s)]
  }

  /** A document's creator: a first and last name, or a single name. */
  datatype Creator = Creator(firstName: string, lastName: string, name: string)

  /** "last, first" when both names are given, else the single name. */
  function CreatorLabel(c: Creator): (text: string)
    ensures c.firstName != "" && c.lastName != "" ==> text == c.lastName + ", " + c.firstName
    ensures !(c.firstName != "" && c.lastName != "") ==> text == c.name
  {
    if c.firstName != "" && c.lastName != "" then c.lastName + ", " + c.firstName else c.name
  }

  /** `parts.join('; ')`. */
  function Join(parts: seq<string>): (r: string)
    ensures parts == [] ==> r == ""
    ensures |parts| == 1 ==> r == parts[0]
  {
    if parts == [] then ""
    else if |parts| == 1 then parts[0]
    else parts[0] + "; " + Join(parts[1..])
  }

  /** Joining one more part appends the separator and the part. */
  lemma {:induction false} JoinAppend(parts: seq<string>, last: string)
    requires parts != []
    ensures Join(parts + [last]) == Join(parts) + "; " + last
  {
    if |parts| == 1 {
      assert (parts + [last])[1..] == [last];
    } else {
      assert (parts + [last])[1..] == parts[1..] + [last];
      JoinAppend(parts[1..], last);
    }
  }

  /** The creators' labels, in order. */
  function Labels(creators: seq<Creator>): (labels: seq<string>)
    ensures |labels| == |creators|
    ensures forall i :: 0 <= i < |creators| ==> labels[i] == CreatorLabel(creators[i])
  {
    seq(|creators|, i requires 0 <= i < |creators| => CreatorLabel(creators[i]))
  }

  /** The authors line: the creators' labels separated by "; " (public/app.js:498-503). */
  function Authors(creators: seq<Creator>): (authors: string)
    ensures creators == [] ==> authors == ""
    ensures |creators| == 1 ==> authors == CreatorLabel(creators[0])
  {
    Join(Labels(creators))
  }

  /** Each further creator adds "; " and its label to the authors line. */
  lemma AuthorsAppend(creators: seq<Creator>, c: Creator)
    requires creators != []
    ensures Authors(creators + [c]) == Authors(creators) + "; " + CreatorLabel(c)
  {
    assert Labels(creators + [c]) == Labels(creators) + [CreatorLabel(c)];
    JoinAppend(Labels(creators), CreatorLabel(c));
  }

  /** The year: the first four characters of the date, nothing without a date. */
  function Year(date: string): (year: string)
    ensures |year| == if |date| < 4 then |date| else 4
    ensures year == date[..|year|]
  {
    if |date| < 4 then date else date[..4]
  }

  /** The fields of a document the browser shows. */
  datatype Metadata = Metadata(
    title: string, date: string, itemType: string, creators: seq<Creator>,
    publicationTitle: string, volume: string, issue: string, pages: string,
    conferenceName: string, publisher: string)

  /** The title, 'Untitled Document' when there is none. */
  function Title(m: Metadata): (title: string)
    ensures title != ""
    ensures m.title != "" ==> title == m.title
  {
    if m.title == "" then "Untitled Document" else m.title
  }

  function Optional(present: string, prefix: string, suffix: string): (r: string)
    ensures present == "" ==> r == ""
    ensures present != "" ==> r == prefix + present + suffix
  {
    if present == "" then "" else prefix + present + suffix
  }

  /** The publication line (public/app.js:509-518): for a journal article
      the journal name then ", volume", "(issue)" and ", pp. pages" for the
      parts given; a conference paper's conference; a book's publisher;
      nothing for any other type. */
  function Journal(m: Metadata): (line: string)
    ensures m.itemType == "journalArticle" ==>
              var volumeAt := |m.publicationTitle|;
              var issueAt := volumeAt + (if m.volume == "" then 0 else 2 + |m.volume|);
              var pagesAt := issueAt + (if m.issue == "" then 0 else 2 + |m.issue|);
              && |line| == pagesAt + (if m.pages == "" then 0 else 6 + |m.pages|)
              && line[..volumeAt] == m.publicationTitle
              && (m.volume != "" ==> line[volumeAt..issueAt] == ", " + m.volume)
              && (m.issue != "" ==> line[issueAt..pagesAt] == "(" + m.issue + ")")
              && (m.pages != "" ==> line[pagesAt..] == ", pp. " + m.pages)
    ensures m.itemType == "conferencePaper" ==> line == m.conferenceName
    ensures m.itemType == "book" ==> line == m.publisher
    ensures m.itemType !in {"journalArticle", "conferencePaper", "book"} ==> line == ""
  {
    if m.itemType == "journalArticle" then
      var withVolume := m.publicationTitle + Optional(m.volume, ", ", "");
      var withIssue := withVolume + Optional(m.issue, "(", ")");
      var full := withIssue + Optional(m.pages, ", pp. ", "");
      assert withIssue[..|withVolume|] == withVolume;
      assert full[..|withIssue|] == withIssue;
      full
    else if m.itemType == "conferencePaper" then m.conferenceName
    else if m.itemType == "book" then m.publisher
    else ""
  }
}
