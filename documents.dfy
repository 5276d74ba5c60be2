/** The documents of the open collection as the browser holds them, and the
    selection among them (public/app.js:59-80, 546-558). */
module Documents {
  import opened Citation
  import Collection

  /** A document of the collection, as the collection endpoint returns it. */
  datatype Doc = Doc(key: string, data: Metadata, hasPdf: bool, pdfAttachments: seq<Collection.PdfRef>)

  /** A selected document; `localFilePath` is set once its PDF is downloaded. */
  datatype Selected = Selected(id: string, key: string, title: string, pdfAttachments: seq<Collection.PdfRef>,
                               localFilePath: string)

  /** The documents that have a PDF, in document order. */
  function WithPdf(docs: seq<Doc>): (r: seq<Doc>)
    ensures |r| <= |docs|
    ensures forall d :: d in r <==> d in docs && d.hasPdf
  {
    if docs == [] then []
    else (if docs[0].hasPdf then [docs[0]] else []) + WithPdf(docs[1..])
  }

  /** Keeping the documents with a PDF preserves their order and
      multiplicity: it distributes over concatenation. */
  lemma {:induction false} WithPdfAppend(a: seq<Doc>, b: seq<Doc>)
    ensures WithPdf(a + b) == WithPdf(a) + WithPdf(b)
  {
    if a != [] {
      assert (a + b)[0] == a[0] && (a + b)[1..] == a[1..] + b;
      WithPdfAppend(a[1..], b);
    } else {
      assert a + b == b;
    }
  }

  /** The selection entry of a document; its title defaults to 'Untitled Document'. */
  function SelectionOf(doc: Doc): (s: Selected)
    ensures s.id == doc.key && s.key == doc.key && s.title == Title(doc.data)
    ensures s.pdfAttachments == doc.pdfAttachments && s.localFilePath == ""
  {
    Selected(doc.key, doc.key, Title(doc.data), doc.pdfAttachments, "")
  }

  /** The selection entries of `docs`, in the same order. */
  function Selections(docs: seq<Doc>): (r: seq<Selected>)
    ensures |r| == |docs|
    ensures forall i :: 0 <= i < |docs| ==> r[i] == SelectionOf(docs[i])
  {
    seq(|docs|, i requires 0 <= i < |docs| => SelectionOf(docs[i]))
  }

  predicate HasId(sel: seq<Selected>, id: string) {
    exists i :: 0 <= i < |sel| && sel[i].id == id
  }

  predicate UniqueIds(sel: seq<Selected>) {
    forall i, j :: 0 <= i < j < |sel| ==> sel[i].id != sel[j].id
  }

  predicate UniqueKeys(docs: seq<Doc>) {
    forall i, j :: 0 <= i < j < |docs| ==> docs[i].key != docs[j].key
  }

  /** The selection without the entries of `id`. */
  function Without(sel: seq<Selected>, id: string): (r: seq<Selected>)
    ensures forall x :: x in r <==> x in sel && x.id != id
    ensures !HasId(r, id)
    ensures !HasId(sel, id) ==> r == sel
  {
    if sel == [] then []
    else
      var rest := Without(sel[1..], id);
      assert !HasId(sel, id) ==> !HasId(sel[1..], id) by {
        if HasId(sel[1..], id) {
          var i :| 0 <= i < |sel[1..]| && sel[1..][i].id == id;
          assert sel[i + 1].id == id;
        }
      }
      if sel[0].id != id then
        assert !HasId(sel, id) ==> [sel[0]] + sel[1..] == sel;
        [sel[0]] + rest
      else rest
  }

  /** Removing entries keeps the others in their order: removal distributes
      over concatenation. */
  lemma {:induction false} WithoutDistributes(a: seq<Selected>, b: seq<Selected>, id: string)
    ensures Without(a + b, id) == Without(a, id) + Without(b, id)
  {
    if a == [] {
      assert a + b == b;
    } else {
      assert (a + b)[1..] == a[1..] + b;
      WithoutDistributes(a[1..], b, id);
    }
  }

  /** Removing entries keeps the ids unique. */
  lemma {:induction false} WithoutKeepsUnique(sel: seq<Selected>, id: string)
    requires UniqueIds(sel)
    ensures UniqueIds(Without(sel, id))
  {
    if sel != [] {
      WithoutKeepsUnique(sel[1..], id);
      var rest := Without(sel[1..], id);
      forall x | x in rest ensures x.id != sel[0].id {
        var j :| 0 <= j < |sel[1..]| && sel[1..][j] == x;
        assert sel[j + 1] == x;
      }
    }
  }

  /** Appending an entry whose id is absent keeps the ids unique. */
  lemma AppendKeepsUnique(sel: seq<Selected>, doc: Doc)
    requires UniqueIds(sel) && !HasId(sel, doc.key)
    ensures UniqueIds(sel + [SelectionOf(doc)])
  {
    var r := sel + [SelectionOf(doc)];
    forall i, j | 0 <= i < j < |r| ensures r[i].id != r[j].id {
      if j == |sel| {
        assert r[i] == sel[i];
      }
    }
  }

  /** Documents with distinct keys give a selection with distinct ids. */
  lemma {:induction false} SelectionsUnique(docs: seq<Doc>)
    requires UniqueKeys(docs)
    ensures UniqueKeys(WithPdf(docs)) && UniqueIds(Selections(WithPdf(docs)))
  {
    if docs != [] {
      assert UniqueKeys(docs[1..]) by {
        forall i, j | 0 <= i < j < |docs[1..]| ensures docs[1..][i].key != docs[1..][j].key {
          assert docs[1..][i] == docs[i + 1] && docs[1..][j] == docs[j + 1];
        }
      }
      SelectionsUnique(docs[1..]);
      var rest := WithPdf(docs[1..]);
      forall x | x in rest ensures x.key != docs[0].key {
        var j :| 0 <= j < |docs[1..]| && docs[1..][j] == x;
        assert docs[j + 1] == x;
      }
    }
  }
}
