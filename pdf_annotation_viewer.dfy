/**
 * `PDFAnnotationViewer` of web/pdf_annotation_viewer.js: the sidebar that
 * lists one comment card per annotation record, grouped by page. `#pages`
 * maps a page number to the page's container (here: whether it is hidden)
 * and its cards. Two things hold as the code is written:
 *  - pages are created under the numbers 1..numPages but looked up by the
 *    record's 0-based `pageIndex`, so a record on the first page (index 0)
 *    finds no page, and any other record lands under the number of the page
 *    before its own;
 *  - a card never gets an `id` property, so the card that edit and delete
 *    look for is the one whose (missing) id equals the record's id, which
 *    happens only when the record has no id either.
 */
module AnnotationViewer {
  import opened Wrappers
  import opened Records

  /** A `PDFAnnotationComment`: the record it was rendered from (its title). */
  datatype Card = Card(title: Record) {
    /** The card's `id` property, which is never assigned. */
    function Id(): Option<string> { None }
  }

  /** An entry of `#pages`: whether its container is hidden, and its cards in order. */
  datatype Page = Page(hidden: bool, editors: seq<Card>)

  const EmptyPage := Page(true, [])

  /** What a data-change event carries: an array of records or a single record. */
  datatype ChangeData = RecordList(records: seq<Record>) | SingleRecord(record: Record)

  /** `pages` after `onDocumentNumPages(numPages)`: numbers 1..numPages get a fresh empty page; other entries stay. */
  function NumberedPages(pages: map<int, Page>, numPages: int): (r: map<int, Page>)
    ensures forall k :: k in r <==> k in pages || 1 <= k <= numPages
    ensures forall k :: 1 <= k <= numPages ==> r[k] == EmptyPage
    ensures forall k :: k in pages && !(1 <= k <= numPages) ==> r[k] == pages[k]
  {
    if numPages < 1 then pages else NumberedPages(pages, numPages - 1)[numPages := EmptyPage]
  }

  /** The first card whose id equals `id` (`findIndex`), or -1. */
  function FindCard(cards: seq<Card>, id: Option<string>): (i: int)
    ensures -1 <= i < |cards|
    ensures 0 <= i ==> cards[i].Id() == id
    ensures forall j :: 0 <= j < (if i < 0 then |cards| else i) ==> cards[j].Id() != id
  {
    if cards == [] then -1
    else if cards[0].Id() == id then 0
    else
      var j := FindCard(cards[1..], id);
      if j < 0 then -1 else j + 1
  }

  /** `addEditor`: a card for `r` goes at the end of the page stored under `r`'s page index, which becomes visible. */
  function AddCard(pages: map<int, Page>, r: Record): (result: map<int, Page>)
    ensures r.PageIndex() !in pages ==> result == pages
    ensures r.PageIndex() in pages ==>
      result == pages[r.PageIndex() := Page(false, pages[r.PageIndex()].editors + [Card(r)])]
  {
    var p := r.PageIndex();
    if p !in pages then pages
    else pages[p := Page(false, pages[p].editors + [Card(r)])]
  }

  /** `editEditor`: the first card whose id equals the record's gets the record as its title. */
  function EditCard(pages: map<int, Page>, r: Record): (result: map<int, Page>)
    ensures result.Keys == pages.Keys
    ensures forall k :: k in pages ==>
      result[k].hidden == pages[k].hidden && |result[k].editors| == |pages[k].editors|
    ensures forall k :: k in pages && k != r.PageIndex() ==> result[k] == pages[k]
    ensures r.PageIndex() in pages ==>
      var cards := pages[r.PageIndex()].editors;
      var i := FindCard(cards, r.Id());
      result[r.PageIndex()].editors == if i < 0 then cards else cards[i := Card(r)]
  {
    var p := r.PageIndex();
    if p !in pages then pages
    else
      var cards := pages[p].editors;
      var i := FindCard(cards, r.Id());
      if i < 0 then pages
      else pages[p := pages[p].(editors := cards[i := Card(r)])]
  }

  /** `deleteEditor`: the first card whose id equals the record's leaves its page; the rest keep their order. */
  function DeleteCard(pages: map<int, Page>, r: Record): (result: map<int, Page>)
    ensures result.Keys == pages.Keys
    ensures forall k :: k in pages && k != r.PageIndex() ==> result[k] == pages[k]
    ensures r.PageIndex() in pages ==>
      var cards := pages[r.PageIndex()].editors;
      var i := FindCard(cards, r.Id());
      result[r.PageIndex()].hidden == pages[r.PageIndex()].hidden
      && result[r.PageIndex()].editors == if i < 0 then cards else cards[..i] + cards[i + 1..]
  {
    var p := r.PageIndex();
    if p !in pages then pages
    else
      var cards := pages[p].editors;
      var i := FindCard(cards, r.Id());
      if i < 0 then pages
      else pages[p := pages[p].(editors := cards[..i] + cards[i + 1..])]
  }

  /** `handleInitData` on an array: `addEditor` for each record, in order. */
  function AddCards(pages: map<int, Page>, records: seq<Record>): (result: map<int, Page>)
    ensures result.Keys == pages.Keys
  {
    if records == [] then pages
    else AddCard(AddCards(pages, records[..|records| - 1]), records[|records| - 1])
  }

  /** The cards that records on page index `p` produce, in order. */
  function CardsFor(records: seq<Record>, p: int): seq<Card> {
    if records == [] then []
    else
      CardsFor(records[..|records| - 1], p)
      + (if records[|records| - 1].PageIndex() == p then [Card(records[|records| - 1])] else [])
  }

  class PDFAnnotationViewer {
    var pages: map<int, Page>

    constructor()
      ensures pages == map[]
    {
      pages := map[];
    }

    /** Creates an empty, hidden page for each number from 1 to `numPages`. */
    method OnDocumentNumPages(numPages: int)
      modifies this
      ensures pages == NumberedPages(old(pages), numPages)
    {
      var i := 1;
      while i <= numPages
        invariant 1 <= i && (numPages >= 1 ==> i <= numPages + 1)
        invariant numPages < 1 ==> i == 1
        invariant pages == NumberedPages(old(pages), i - 1)
      {
        pages := pages[i := EmptyPage];
        i := i + 1;
      }
    }

    /** Routes `init`, `add`, `edit` and `delete` to their handlers and ignores any other type. */
    method OnAnnotationEditorManagerDataChange(eventType: string, data: ChangeData)
      modifies this
      ensures eventType == "init" ==> pages == (if data.RecordList? then AddCards(old(pages), data.records) else old(pages))
      ensures eventType == "add" ==> pages == (if data.SingleRecord? then AddCard(old(pages), data.record) else old(pages))
      ensures eventType == "edit" ==> pages == (if data.SingleRecord? then EditCard(old(pages), data.record) else old(pages))
      ensures eventType == "delete" ==> pages == (if data.SingleRecord? then DeleteCard(old(pages), data.record) else old(pages))
      ensures eventType !in {"init", "add", "edit", "delete"} ==> pages == old(pages)
    {
      if eventType == "init" {
        HandleInitData(data);
      } else if eventType == "add" || eventType == "edit" || eventType == "delete" {
        // An array has no `pageIndex`, so no page is found for it.
        if data.SingleRecord? {
          if eventType == "add" {
            AddEditor(data.record);
          } else if eventType == "edit" {
            EditEditor(data.record);
          } else {
            DeleteEditor(data.record);
          }
        }
      }
    }

    /** Adds a card for each record of an array, in order; anything else is ignored. */
    method HandleInitData(data: ChangeData)
      modifies this
      ensures pages == if data.RecordList? then AddCards(old(pages), data.records) else old(pages)
    {
      if data.RecordList? {
        var records := data.records;
        var i := 0;
        while i < |records|
          invariant 0 <= i <= |records|
          invariant pages == AddCards(old(pages), records[..i])
        {
          AddEditor(records[i]);
          assert records[..i + 1][..i] == records[..i];
          i := i + 1;
        }
        assert records[..i] == records;
      }
    }

    method AddEditor(editorParams: Record)
      modifies this
      ensures pages == AddCard(old(pages), editorParams)
    {
      var pageIndex := editorParams.PageIndex();
      if pageIndex !in pages {
        return;
      }
      var targetPage := pages[pageIndex];
      pages := pages[pageIndex := Page(false, targetPage.editors + [Card(editorParams)])];
    }

    method EditEditor(editorParams: Record)
      modifies this
      ensures pages == EditCard(old(pages), editorParams)
    {
      var pageIndex := editorParams.PageIndex();
      if pageIndex !in pages {
        return;
      }
      var editors := pages[pageIndex].editors;
      var target := FindCard(editors, editorParams.Id());
      if target >= 0 {
        pages := pages[pageIndex := pages[pageIndex].(editors := editors[target := Card(editorParams)])];
      }
    }

    method DeleteEditor(editorParams: Record)
      modifies this
      ensures pages == DeleteCard(old(pages), editorParams)
    {
      var pageIndex := editorParams.PageIndex();
      if pageIndex !in pages {
        return;
      }
      var editors := pages[pageIndex].editors;
      var targetIndex := FindCard(editors, editorParams.Id());
      if targetIndex > -1 {
        pages := pages[pageIndex := pages[pageIndex].(editors := editors[..targetIndex] + editors[targetIndex + 1..])];
      }
    }
  }

  /** A viewer that starts empty holds exactly the pages 1..numPages afterwards, all empty and hidden. */
  lemma FreshPagesAreNumbered(numPages: int)
    ensures forall k :: k in NumberedPages(map[], numPages) <==> 1 <= k <= numPages
    ensures forall k :: k in NumberedPages(map[], numPages) ==> NumberedPages(map[], numPages)[k] == EmptyPage
  {
  }

  /** A record on the first page (index 0) is never listed: no page is stored under 0. */
  lemma FirstPageRecordsDropped(numPages: int, r: Record)
    requires r.PageIndex() == 0
    ensures AddCard(NumberedPages(map[], numPages), r) == NumberedPages(map[], numPages)
  {
  }

  /**
   * A record on the last page (index numPages - 1) is listed under page
   * number numPages - 1, the page before its own.
   */
  lemma RecordsListedUnderPreviousPage(numPages: int, r: Record)
    requires numPages >= 2 && r.PageIndex() == numPages - 1
    ensures AddCard(NumberedPages(map[], numPages), r)[numPages - 1].editors == [Card(r)]
    ensures AddCard(NumberedPages(map[], numPages), r)[numPages] == EmptyPage
  {
  }

  /** Edit and delete never find the card of a record that has an id. */
  lemma IdentifiedRecordsNeverMatch(pages: map<int, Page>, r: Record)
    requires r.Id().Some?
    ensures EditCard(pages, r) == pages
    ensures DeleteCard(pages, r) == pages
  {
    if r.PageIndex() in pages {
      var cards := pages[r.PageIndex()].editors;
      assert FindCard(cards, r.Id()) == -1;
    }
  }

  /** A record without an id matches the first card of its page: edit retitles it and delete removes it. */
  lemma AnonymousRecordsMatchFirstCard(pages: map<int, Page>, r: Record)
    requires r.Id().None? && r.PageIndex() in pages && pages[r.PageIndex()].editors != []
    ensures EditCard(pages, r)[r.PageIndex()].editors[0] == Card(r)
    ensures DeleteCard(pages, r)[r.PageIndex()].editors == pages[r.PageIndex()].editors[1..]
  {
    assert FindCard(pages[r.PageIndex()].editors, r.Id()) == 0;
  }

  /**
   * After `handleInitData`, a page holds its old cards followed by a card for
   * each record on its page index, in the records' order; the set of pages
   * does not change.
   */
  lemma {:induction false} AddCardsPerPage(pages: map<int, Page>, records: seq<Record>, p: int)
    ensures AddCards(pages, records).Keys == pages.Keys
    ensures p in pages ==> AddCards(pages, records)[p].editors == pages[p].editors + CardsFor(records, p)
  {
    if records != [] {
      AddCardsPerPage(pages, records[..|records| - 1], p);
      var before := AddCards(pages, records[..|records| - 1]);
      var r := records[|records| - 1];
      if p in pages {
        if r.PageIndex() == p {
          assert before[p].editors + [Card(r)] == pages[p].editors + (CardsFor(records[..|records| - 1], p) + [Card(r)]);
        } else {
          assert CardsFor(records, p) == CardsFor(records[..|records| - 1], p);
        }
      }
    }
  }
}
