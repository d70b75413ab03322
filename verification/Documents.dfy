/** The document inbox (src/pages/Documents.tsx): AI status derived from the
    extraction confidence, the confidence colour, the status counts, the filter
    and the row selection. */
module Documents {
  import opened Seqs
  import opened Text

  datatype AiStatus = Processed | Processing | ReviewNeeded | Failed

  /** `Document`, with the fields the logic reads. */
  datatype Document = Document(id: int, name: string, client: string, aiStatus: AiStatus, confidence: int)

  function DocId(d: Document): int { d.id }

  /** What the mock generator draws for one document. */
  datatype DocPick = DocPick(name: string, client: string, confidence: int)

  /** `confidence > 85 ? 'processed' : confidence > 70 ? 'review-needed' : 'processing'`:
      strict thresholds, and never `failed`. */
  function StatusFor(confidence: int): (r: AiStatus)
    ensures r != Failed
    ensures r == Processed <==> confidence > 85
    ensures r == ReviewNeeded <==> 70 < confidence <= 85
    ensures r == Processing <==> confidence <= 70
  {
    if confidence > 85 then Processed
    else if confidence > 70 then ReviewNeeded
    else Processing
  }

  /** The order of the statuses from least to most finished. */
  function Rank(s: AiStatus): int
  {
    match s
    case Failed => 0
    case Processing => 1
    case ReviewNeeded => 2
    case Processed => 3
  }

  /** More confidence never gives a less finished status. */
  lemma StatusMonotone(c1: int, c2: int)
    requires c1 <= c2
    ensures Rank(StatusFor(c1)) <= Rank(StatusFor(c2))
  {
  }

  /** `getConfidenceColor(confidence)`: inclusive thresholds at 85 and 70. */
  function ConfidenceColor(confidence: int): (r: string)
    ensures r == "text-green-600 bg-green-100" <==> confidence >= 85
    ensures r == "text-yellow-600 bg-yellow-100" <==> 70 <= confidence < 85
    ensures r == "text-red-600 bg-red-100" <==> confidence < 70
  {
    if confidence >= 85 then "text-green-600 bg-green-100"
    else if confidence >= 70 then "text-yellow-600 bg-yellow-100"
    else "text-red-600 bg-red-100"
  }

  /** The colour band whose threshold matches a status's own threshold. */
  function BandOf(s: AiStatus): string
  {
    match s
    case Processed => "text-green-600 bg-green-100"
    case ReviewNeeded => "text-yellow-600 bg-yellow-100"
    case Processing => "text-red-600 bg-red-100"
    case Failed => "text-red-600 bg-red-100"
  }

  /** The colour and the status disagree exactly at 70 and 85: 85 is `review-needed` but
      green, 70 is `processing` but yellow. */
  lemma ColorAgreesExceptAtThresholds(confidence: int)
    ensures ConfidenceColor(confidence) == BandOf(StatusFor(confidence)) <==> confidence != 70 && confidence != 85
  {
  }

  /** `Array.from({ length: 15 }, ...)`: ids `1..n`, status derived from the drawn confidence. */
  function MockDocuments(picks: seq<DocPick>): (r: seq<Document>)
    ensures |r| == |picks|
    ensures forall i :: 0 <= i < |r| ==>
      && r[i].id == i + 1 && r[i].name == picks[i].name && r[i].client == picks[i].client
      && r[i].confidence == picks[i].confidence && r[i].aiStatus == StatusFor(picks[i].confidence)
  {
    seq(|picks|, i requires 0 <= i < |picks| =>
      Document(i + 1, picks[i].name, picks[i].client, StatusFor(picks[i].confidence), picks[i].confidence))
  }

  /** `faker.number.int({ min: 65, max: 99 })` for each of the 15 documents. */
  predicate WellFormedPicks(picks: seq<DocPick>)
  {
    |picks| == 15 && forall i :: 0 <= i < |picks| ==> 65 <= picks[i].confidence <= 99
  }

  /** Generated documents have distinct ids 1..15, confidence in 65..99, and no `failed` status. */
  lemma MockDocumentsShape(picks: seq<DocPick>)
    requires WellFormedPicks(picks)
    ensures var docs := MockDocuments(picks);
      && DistinctBy(docs, DocId)
      && forall i :: 0 <= i < |docs| ==>
           && 1 <= docs[i].id <= 15 && 65 <= docs[i].confidence <= 99 && docs[i].aiStatus != Failed
  {
  }

  function HasStatus(s: AiStatus): Document -> bool
  {
    (d: Document) => d.aiStatus == s
  }

  function StatusOf(d: Document): AiStatus { d.aiStatus }

  /** `mockDocuments.filter(d => d.aiStatus === s).length`: the number of documents whose
      status is `s`, that is, how often `s` occurs among the documents' statuses. */
  function StatusCount(docs: seq<Document>, s: AiStatus): (r: nat)
    ensures r <= |docs|
    ensures r == multiset(Map(docs, StatusOf))[s]
  {
    FilterCountsStatus(docs, s);
    |Filter(docs, HasStatus(s))|
  }

  lemma {:induction false} FilterCountsStatus(docs: seq<Document>, s: AiStatus)
    ensures |Filter(docs, HasStatus(s))| == multiset(Map(docs, StatusOf))[s]
  {
    if docs != [] {
      FilterCountsStatus(docs[1..], s);
      assert Map(docs, StatusOf) == [docs[0].aiStatus] + Map(docs[1..], StatusOf);
    }
  }

  /** The three status counts on the statistics cards add up to the total. */
  lemma {:induction false} CountsSumToTotal(docs: seq<Document>)
    requires forall i :: 0 <= i < |docs| ==> docs[i].aiStatus != Failed
    ensures StatusCount(docs, Processed) + StatusCount(docs, ReviewNeeded) + StatusCount(docs, Processing) == |docs|
  {
    if docs != [] {
      CountsSumToTotal(docs[1..]);
    }
  }

  /** One row of `filteredDocuments`: the search hits name or client, and the status select admits it. */
  predicate DocumentShown(d: Document, search: string, status: Choice<AiStatus>)
  {
    (MatchesSearch(d.name, search) || MatchesSearch(d.client, search)) && Admits(status, d.aiStatus)
  }

  function Shown(search: string, status: Choice<AiStatus>): Document -> bool
  {
    (d: Document) => DocumentShown(d, search, status)
  }

  lemma NoFilterShowsAll(docs: seq<Document>)
    ensures Filter(docs, Shown("", All)) == docs
  {
    forall i | 0 <= i < |docs| ensures Shown("", All)(docs[i]) {
      EmptySearchMatches(docs[i].name);
    }
    FilterKeepsAll(docs, Shown("", All));
  }

  /** `filteredDocuments`: exactly the documents shown, in list order. */
  function FilteredDocuments(docs: seq<Document>, search: string, status: Choice<AiStatus>): (r: seq<Document>)
    ensures forall i :: 0 <= i < |r| ==> r[i] in docs && DocumentShown(r[i], search, status)
    ensures forall i :: 0 <= i < |docs| && DocumentShown(docs[i], search, status) ==> docs[i] in r
    ensures IsSubsequence(r, docs)
    ensures search == "" && status == All ==> r == docs
  {
    FilterIsSubsequence(docs, Shown(search, status));
    NoFilterShowsAll(docs);
    Filter(docs, Shown(search, status))
  }

  function IsNot(id: int): int -> bool
  {
    (x: int) => x != id
  }

  /** `selectedDocs.filter(id => id !== docId)`: every occurrence of `id` goes, every other
      id stays, in order. */
  function Unselected(selected: seq<int>, id: int): (r: seq<int>)
    ensures id !in r
    ensures forall x :: x != id ==> (x in r <==> x in selected)
    ensures IsSubsequence(r, selected)
  {
    FilterIsSubsequence(selected, IsNot(id));
    Filter(selected, IsNot(id))
  }

  /** Checking a row and unchecking it again leaves the selection as it was when the
      row was not selected before. */
  lemma {:induction false} CheckThenUncheck(selected: seq<int>, id: int)
    ensures Unselected(selected + [id], id) == Unselected(selected, id)
    ensures id !in selected ==> Unselected(selected, id) == selected
  {
    if selected != [] {
      CheckThenUncheck(selected[1..], id);
      assert (selected + [id])[1..] == selected[1..] + [id];
    }
    if id !in selected {
      assert forall i :: 0 <= i < |selected| ==> IsNot(id)(selected[i]);
      FilterKeepsAll(selected, IsNot(id));
    }
  }

  /** Unselecting keeps every remaining id among the document ids `1..15`. */
  lemma UnselectedInRange(selected: seq<int>, id: int)
    requires forall i :: 0 <= i < |selected| ==> 1 <= selected[i] <= 15
    ensures forall i :: 0 <= i < |Unselected(selected, id)| ==> 1 <= Unselected(selected, id)[i] <= 15
  {
    var r := Unselected(selected, id);
    forall j | 0 <= j < |r| ensures 1 <= r[j] <= 15 {
      assert r[j] in selected;
    }
  }

  class DocumentsPage {
    /** `mockDocuments`, drawn afresh on every render. */
    var documents: seq<Document>
    var searchTerm: string
    var statusFilter: Choice<AiStatus>
    /** The `selectedDocs` state cell. */
    var selectedDocs: seq<int>

    /** The documents come from the generator, and every selected id is a document id. */
    predicate Valid()
      reads this
    {
      && |documents| == 15
      && (forall i :: 0 <= i < |documents| ==> documents[i].id == i + 1)
      && forall i :: 0 <= i < |selectedDocs| ==> 1 <= selectedDocs[i] <= 15
    }

    constructor (picks: seq<DocPick>)
      requires WellFormedPicks(picks)
      ensures Valid()
      ensures documents == MockDocuments(picks) && searchTerm == "" && statusFilter == All && selectedDocs == []
    {
      documents := MockDocuments(picks);
      searchTerm := "";
      statusFilter := All;
      selectedDocs := [];
    }

    /** A re-render draws new documents; the selection survives, still naming documents. */
    method Render(picks: seq<DocPick>)
      requires Valid() && WellFormedPicks(picks)
      modifies this
      ensures Valid()
      ensures documents == MockDocuments(picks)
      ensures selectedDocs == old(selectedDocs) && searchTerm == old(searchTerm) && statusFilter == old(statusFilter)
    {
      documents := MockDocuments(picks);
    }

    /** The rows the table shows. */
    function Visible(): (r: seq<Document>)
      reads this
      ensures IsSubsequence(r, documents)
      ensures forall i :: 0 <= i < |r| ==> DocumentShown(r[i], searchTerm, statusFilter)
      ensures forall i :: 0 <= i < |documents| && DocumentShown(documents[i], searchTerm, statusFilter) ==> documents[i] in r
    {
      FilteredDocuments(documents, searchTerm, statusFilter)
    }

    /** A row's checkbox is ticked when its id is selected. */
    predicate IsSelected(id: int)
      reads this
    {
      id in selectedDocs
    }

    /** The header checkbox: ticking selects exactly the visible rows' ids, in row order;
        unticking clears the selection. */
    method ToggleAll(checked: bool)
      requires Valid()
      modifies this
      ensures Valid()
      ensures documents == old(documents) && searchTerm == old(searchTerm) && statusFilter == old(statusFilter)
      ensures checked ==>
        |selectedDocs| == |Visible()| && forall i :: 0 <= i < |selectedDocs| ==> selectedDocs[i] == Visible()[i].id
      ensures !checked ==> selectedDocs == []
    {
      if checked {
        var visible := Visible();
        forall i | 0 <= i < |visible| ensures 1 <= visible[i].id <= 15 {
          var k :| 0 <= k < |documents| && documents[k] == visible[i];
        }
        selectedDocs := Map(visible, DocId);
      } else {
        selectedDocs := [];
      }
    }

    /** A row's checkbox for a visible document: ticking appends its id, unticking removes
        every occurrence of it and keeps the other ids in place. */
    method ToggleRow(id: int, checked: bool)
      requires Valid()
      requires exists i :: 0 <= i < |Visible()| && Visible()[i].id == id
      modifies this
      ensures Valid()
      ensures documents == old(documents) && searchTerm == old(searchTerm) && statusFilter == old(statusFilter)
      ensures checked ==> selectedDocs == old(selectedDocs) + [id] && IsSelected(id)
      ensures !checked ==> selectedDocs == Unselected(old(selectedDocs), id) && !IsSelected(id)
    {
      var visible := Visible();
      var i :| 0 <= i < |visible| && visible[i].id == id;
      assert visible[i] in documents;
      if checked {
        selectedDocs := selectedDocs + [id];
      } else {
        UnselectedInRange(selectedDocs, id);
        selectedDocs := Unselected(selectedDocs, id);
      }
    }
  }
}
