/** The server's view of a reference-library collection: fetching every
    page of its items (app.js:147-199), keeping the items worth showing
    (app.js:212-274), marking which have PDF attachments (app.js:290-329),
    and choosing the PDF file of an item (app.js:337-406). */
module Collection {
  import opened Outcomes

  const PageSize := 100
  const PdfType := "application/pdf"
  const AttachmentType := "attachment"

  /** An item of the library: `parentItem` is "" for a top-level item and
      `numChildren` is 0 when the item carries no child count. */
  datatype Item = Item(key: string, itemType: string, parentItem: string, numChildren: int,
                       contentType: string, title: string)

  // ---------------------------------------------------------------------
  // Remaining pages (app.js:167-199)
  // ---------------------------------------------------------------------

  /** The `total-results` header: missing or empty, a number, or text that does not parse. */
  datatype TotalHeader = NoTotal | Total(n: int) | Unparsable

  /** JavaScript's `Math.ceil(a / b)` for a positive divisor. */
  function CeilDiv(a: int, b: int): (q: int)
    requires b > 0
    ensures (q - 1) * b < a <= q * b
  {
    -((-a) / b)
  }

  /** How many more pages are requested after a first page of `firstLength`
      items: none without a next link; with one, enough pages of 100 to reach
      the announced total, or an estimate of at least two pages when no total
      is announced; an unparsable total yields no page (the loop bound is NaN). */
  function PageCount(hasNext: bool, header: TotalHeader, firstLength: nat): (count: nat)
    ensures !hasNext || header.Unparsable? ==> count == 0
    ensures hasNext && header.Total? ==>
              (count > 0 <==> header.n > firstLength) &&
              (count > 0 ==> (count - 1) * PageSize < header.n - firstLength <= count * PageSize)
    ensures hasNext && header.NoTotal? ==>
              var estimate := if 200 < 2 * firstLength then 2 * firstLength else 200;
              (count > 0 <==> estimate > firstLength) &&
              (count > 0 ==> (count - 1) * PageSize < estimate - firstLength <= count * PageSize)
  {
    if !hasNext then 0
    else
      var total := match header
        case Total(n) => n
        case NoTotal => if 200 < 2 * firstLength then 2 * firstLength else 200
        case Unparsable => firstLength;
      var c := CeilDiv(total - firstLength, PageSize);
      if c <= 0 then 0 else c
  }

  /** With a full first page and an announced total, the first page and the
      requested ones span every item of the collection and no page is wasted. */
  lemma PagesCoverTotal(header: TotalHeader)
    requires header.Total? && header.n > PageSize
    ensures var count := PageCount(true, header, PageSize);
            (count + 1) * PageSize >= header.n && count * PageSize < header.n
  {
  }

  /** The start offsets of the remaining pages (app.js:191-193). */
  method RemainingPageStarts(hasNext: bool, header: TotalHeader, firstLength: nat) returns (starts: seq<nat>)
    ensures |starts| == PageCount(hasNext, header, firstLength)
    ensures forall i :: 0 <= i < |starts| ==> starts[i] == (i + 1) * PageSize
  {
    var count := PageCount(hasNext, header, firstLength);
    starts := [];
    var i := 1;
    while i <= count
      invariant 1 <= i <= count + 1
      invariant |starts| == i - 1
      invariant forall j :: 0 <= j < |starts| ==> starts[j] == (j + 1) * PageSize
    {
      starts := starts + [i * PageSize];
      i := i + 1;
    }
  }

  /** The items of the first page followed by pages 1 .. `count`, or None
      when any of those pages fails (any rejection fails the whole request). */
  function Collected(first: seq<Item>, pageAt: nat -> Option<seq<Item>>, count: nat): (r: Option<seq<Item>>)
    ensures r.Some? <==> forall i :: 1 <= i <= count ==> pageAt(i * PageSize).Some?
    ensures r.Some? ==> |first| <= |r.value| && r.value[..|first|] == first
  {
    if count == 0 then Some(first)
    else match Collected(first, pageAt, count - 1)
      case None => None
      case Some(items) =>
        match pageAt(count * PageSize)
          case None => None
          case Some(page) =>
            assert (items + page)[..|first|] == items[..|first|];
            Some(items + page)
  }

  /** The collection as fetched: concatenates the remaining pages in order
      (app.js:195-198). */
  method CollectItems(first: seq<Item>, hasNext: bool, header: TotalHeader, pageAt: nat -> Option<seq<Item>>)
    returns (r: Option<seq<Item>>)
    ensures r == Collected(first, pageAt, PageCount(hasNext, header, |first|))
  {
    var starts := RemainingPageStarts(hasNext, header, |first|);
    var items := first;
    var i := 0;
    while i < |starts|
      invariant 0 <= i <= |starts|
      invariant Collected(first, pageAt, i) == Some(items)
    {
      var page := pageAt(starts[i]);
      if page.None? {
        return None;
      }
      items := items + page.value;
      i := i + 1;
    }
    r := Some(items);
  }

  // ---------------------------------------------------------------------
  // Which items the collection shows (app.js:212-274)
  // ---------------------------------------------------------------------

  const AcademicTypes: seq<string> := [
    "journalArticle", "book", "bookSection", "document", "report", "conferencePaper", "thesis",
    "manuscript", "preprint", "blogPost", "webpage", "magazineArticle", "newspaperArticle", "letter",
    "interview", "presentation", "audioRecording", "videoRecording", "podcast", "case", "statute",
    "bill", "hearing", "patent", "map"]

  /** An item that is not an attachment is shown when its type is academic
      or it has children. */
  predicate Academic(item: Item) {
    item.itemType in AcademicTypes || item.numChildren > 0
  }

  /** An attachment is shown when it names a parent outside `excluded`; any
      other item when it is academic. */
  predicate Shown(excluded: set<string>, item: Item) {
    if item.itemType == AttachmentType then item.parentItem != "" && item.parentItem !in excluded
    else Academic(item)
  }

  /** The items for which `Shown(excluded, _)` holds, in their order. */
  function Select(items: seq<Item>, excluded: set<string>): (r: seq<Item>)
    ensures |r| <= |items|
    ensures forall x :: x in r <==> x in items && Shown(excluded, x)
  {
    if items == [] then []
    else (if Shown(excluded, items[0]) then [items[0]] else []) + Select(items[1..], excluded)
  }

  /** Selection keeps order and multiplicity: selecting from two runs of
      items is selecting from each in turn. */
  lemma {:induction false} SelectAppend(a: seq<Item>, b: seq<Item>, excluded: set<string>)
    ensures Select(a + b, excluded) == Select(a, excluded) + Select(b, excluded)
  {
    if a != [] {
      assert (a + b)[0] == a[0] && (a + b)[1..] == a[1..] + b;
      SelectAppend(a[1..], b, excluded);
    } else {
      assert a + b == b;
    }
  }

  /** The parent references the first pass records (app.js:217-221): the
      `parentItem` of every item that has one. */
  function ParentRefs(items: seq<Item>): (refs: set<string>)
    ensures forall x :: x in items && x.parentItem != "" ==> x.parentItem in refs
  {
    set x | x in items && x.parentItem != "" :: x.parentItem
  }

  /** The keys of the collection's items. */
  function Keys(items: seq<Item>): (keys: set<string>)
    ensures forall x :: x in items ==> x.key in keys
  {
    set x | x in items :: x.key
  }

  /** The filter as written: attachments are tested against the recorded
      parent references. */
  function FilterItemsAsWritten(items: seq<Item>): (r: seq<Item>)
    ensures forall x :: x in r <==> x in items && Shown(ParentRefs(items), x)
  {
    Select(items, ParentRefs(items))
  }

  /** As written, no attachment is ever shown: each attachment that names a
      parent has recorded that very parent itself. */
  lemma {:induction false} NoAttachmentSurvives(items: seq<Item>)
    ensures forall x :: x in FilterItemsAsWritten(items) ==> x.itemType != AttachmentType
  {
    forall x | x in FilterItemsAsWritten(items)
      ensures x.itemType != AttachmentType
    {
      assert x in items && Shown(ParentRefs(items), x);
    }
  }

  /** A collection holding only an attachment whose parent lies elsewhere:
      the written filter drops it, the intended one keeps it. */
  lemma OrphanAttachmentDropped()
    ensures var orphan := Item("K1", AttachmentType, "P9", 0, PdfType, "paper.pdf");
            FilterItemsAsWritten([orphan]) == [] && FilterItems([orphan]) == [orphan]
  {
    var orphan := Item("K1", AttachmentType, "P9", 0, PdfType, "paper.pdf");
    assert ParentRefs([orphan]) == {"P9"};
    assert Keys([orphan]) == {"K1"};
  }

  /** The intended filter: an attachment is shown only when its parent is
      not itself an item of the collection. */
  function FilterItems(items: seq<Item>): (r: seq<Item>)
    ensures forall x :: x in r <==> x in items && Shown(Keys(items), x)
  {
    Select(items, Keys(items))
  }

  /** The intended filter never shows an item together with one of its
      attachments, and keeps every attachment whose parent is elsewhere. */
  lemma FilterItemsMeaning(items: seq<Item>)
    ensures forall x, y :: x in FilterItems(items) && y in FilterItems(items) && x.itemType == AttachmentType ==>
              x.parentItem != y.key
    ensures forall x :: (x in items && x.itemType == AttachmentType && x.parentItem != "" &&
                         forall y :: y in items ==> y.key != x.parentItem) ==> x in FilterItems(items)
  {
    forall x | x in items && x.itemType == AttachmentType && x.parentItem != "" &&
               (forall y :: y in items ==> y.key != x.parentItem)
      ensures x in FilterItems(items)
    {
      assert x.parentItem !in Keys(items);
    }
  }

  // ---------------------------------------------------------------------
  // PDF enrichment (app.js:290-329)
  // ---------------------------------------------------------------------

  datatype PdfRef = PdfRef(key: string, title: string)
  datatype Enriched = Enriched(item: Item, hasPdf: bool, pdfAttachments: seq<PdfRef>)

  /** The PDF children of an item, as references titled 'PDF' when untitled. */
  function PdfRefs(children: seq<Item>): (refs: seq<PdfRef>)
    ensures |refs| <= |children|
    ensures forall r :: r in refs ==>
              exists c :: c in children && c.contentType == PdfType && r.key == c.key &&
                          r.title == (if c.title == "" then "PDF" else c.title)
    ensures (exists c :: c in children && c.contentType == PdfType) <==> |refs| > 0
  {
    if children == [] then []
    else
      var c := children[0];
      var rest := PdfRefs(children[1..]);
      assert forall d :: d in children[1..] ==> d in children;
      if c.contentType == PdfType then [PdfRef(c.key, if c.title == "" then "PDF" else c.title)] + rest
      else rest
  }

  /** Every PDF child yields its reference. */
  lemma {:induction false} PdfRefsComplete(children: seq<Item>, c: Item)
    requires c in children && c.contentType == PdfType
    ensures PdfRef(c.key, if c.title == "" then "PDF" else c.title) in PdfRefs(children)
  {
    if children[0] != c {
      PdfRefsComplete(children[1..], c);
    }
  }

  /** The references follow the children's order: the map distributes over
      concatenation. */
  lemma {:induction false} PdfRefsAppend(a: seq<Item>, b: seq<Item>)
    ensures PdfRefs(a + b) == PdfRefs(a) + PdfRefs(b)
  {
    if a == [] {
      assert a + b == b;
    } else {
      assert (a + b)[0] == a[0] && (a + b)[1..] == a[1..] + b;
      PdfRefsAppend(a[1..], b);
    }
  }

  /** Marks an item with its PDF attachments: attachments themselves and
      items whose children cannot be fetched have none. */
  function Enrich(item: Item, children: Reply<seq<Item>>): (e: Enriched)
    ensures e.item == item
    ensures e.hasPdf <==> |e.pdfAttachments| > 0
    ensures e.hasPdf <==> item.itemType != AttachmentType && children.Ok? &&
                          exists c :: c in children.value && c.contentType == PdfType
  {
    if item.itemType == AttachmentType || children.Err? then Enriched(item, false, [])
    else
      var refs := PdfRefs(children.value);
      Enriched(item, |refs| > 0, refs)
  }

  /** The response of the collection endpoint (app.js:147-333): the items of
      every page, filtered as written and enriched, or a failure when a page
      fails.  As written, the response holds no attachment. */
  function CollectionItems(first: Reply<seq<Item>>, hasNext: bool, header: TotalHeader,
                           pageAt: nat -> Option<seq<Item>>, childrenOf: string -> Reply<seq<Item>>)
    : (r: Option<seq<Enriched>>)
    ensures r.Some? <==> first.Ok? && Collected(first.value, pageAt, PageCount(hasNext, header, |first.value|)).Some?
    ensures r.Some? ==>
              var shown := FilterItemsAsWritten(Collected(first.value, pageAt, PageCount(hasNext, header, |first.value|)).value);
              |r.value| == |shown| &&
              forall i :: 0 <= i < |shown| ==> r.value[i] == Enrich(shown[i], childrenOf(shown[i].key))
    ensures r.Some? ==> forall e :: e in r.value ==> e.item.itemType != AttachmentType
  {
    if first.Err? then None
    else match Collected(first.value, pageAt, PageCount(hasNext, header, |first.value|))
      case None => None
      case Some(items) =>
        var shown := FilterItemsAsWritten(items);
        NoAttachmentSurvives(items);
        Some(seq(|shown|, i requires 0 <= i < |shown| => Enrich(shown[i], childrenOf(shown[i].key))))
  }

  // ---------------------------------------------------------------------
  // Choosing the PDF of an item (app.js:337-406)
  // ---------------------------------------------------------------------

  datatype PdfError =
    | NoPdfAttachment       // 404: no child is a PDF
    | FileNotDownloadable   // 404: the file request failed
    | FetchFailed           // 500: the item or its children could not be fetched

  /** The index of the first PDF child, if any. */
  function FirstPdf(children: seq<Item>): (i: Option<nat>)
    ensures i.None? <==> forall c :: c in children ==> c.contentType != PdfType
    ensures i.Some? ==> i.value < |children| && children[i.value].contentType == PdfType &&
                        forall j :: 0 <= j < i.value ==> children[j].contentType != PdfType
  {
    if children == [] then None
    else if children[0].contentType == PdfType then Some(0)
    else match FirstPdf(children[1..])
      case None => None
      case Some(j) => Some(j + 1)
  }

  /** The key whose file is fetched: a given attachment key; else the item
      itself when it is a PDF; else its first PDF child. */
  function ChoosePdf(itemKey: string, attachmentKey: string, item: Reply<Item>, children: Reply<seq<Item>>)
    : (r: Result<string, PdfError>)
    ensures attachmentKey != "" ==> r == Success(attachmentKey)
    ensures attachmentKey == "" && item.Ok? && item.value.contentType == PdfType ==> r == Success(itemKey)
    ensures attachmentKey == "" && (item.Err? || (item.value.contentType != PdfType && children.Err?)) ==>
              r == Failure(FetchFailed)
    ensures r == Failure(NoPdfAttachment) <==>
              attachmentKey == "" && item.Ok? && item.value.contentType != PdfType && children.Ok? &&
              forall c :: c in children.value ==> c.contentType != PdfType
    ensures r.Success? && attachmentKey == "" && item.value.contentType != PdfType ==>
              exists i :: 0 <= i < |children.value| && r.value == children.value[i].key &&
                          children.value[i].contentType == PdfType &&
                          forall j :: 0 <= j < i ==> children.value[j].contentType != PdfType
  {
    if attachmentKey != "" then Success(attachmentKey)
    else if item.Err? then Failure(FetchFailed)
    else if item.value.contentType == PdfType then Success(itemKey)
    else if children.Err? then Failure(FetchFailed)
    else match FirstPdf(children.value)
      case None => Failure(NoPdfAttachment)
      case Some(i) => Success(children.value[i].key)
  }

  /** The PDF endpoint: the chosen file is downloaded and stored under the
      item's key in the temporary directory, whose path is answered. */
  function FetchPdf(itemKey: string, attachmentKey: string, item: Reply<Item>, children: Reply<seq<Item>>,
                    download: string -> Reply<()>)
    : (r: Result<string, PdfError>)
    ensures r.Success? <==> (ChoosePdf(itemKey, attachmentKey, item, children).Success? &&
                             download(ChoosePdf(itemKey, attachmentKey, item, children).value).Ok?)
    ensures r.Success? ==> r.value == "temp/" + itemKey + ".pdf"
    ensures ChoosePdf(itemKey, attachmentKey, item, children).Success? && r.Failure? ==>
              r.error == FileNotDownloadable
  {
    match ChoosePdf(itemKey, attachmentKey, item, children)
      case Failure(e) => Failure(e)
      case Success(key) => if download(key).Ok? then Success("temp/" + itemKey + ".pdf") else Failure(FileNotDownloadable)
  }
}
