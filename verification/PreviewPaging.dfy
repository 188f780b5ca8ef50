/** The pages of a tag operation preview (server/tagManagement.ts): the first sample and then
    pages after a document id, until the cursor is null. */
module PreviewPaging {
  import opened Options

  type DocId = string

  const SAMPLE_LIMIT := 20
  const PAGE_MAX_LIMIT := 100

  datatype Page = Page(documents: seq<DocId>, next: Option<DocId>)

  ghost predicate Distinct(ids: seq<DocId>) {
    forall i, j :: 0 <= i < j < |ids| ==> ids[i] != ids[j]
  }

  /** previewFromPlan: the cursor is the last document shown, null at the end of the plan. */
  function PreviewFromPlan(affected: seq<DocId>, documents: seq<DocId>): Page {
    var start := if documents == [] then None else Some(documents[|documents| - 1]);
    var last := if affected == [] then None else Some(affected[|affected| - 1]);
    Page(documents, if start.Some? && start != last then start else None)
  }

  function FirstPage(affected: seq<DocId>): Page {
    PreviewFromPlan(affected, affected[..if |affected| < SAMPLE_LIMIT then |affected| else SAMPLE_LIMIT])
  }

  /** findIndex; |ids| when absent. */
  function IndexOf(ids: seq<DocId>, id: DocId): (i: nat)
    ensures i <= |ids|
    ensures i < |ids| ==> ids[i] == id
    ensures i == |ids| ==> id !in ids
  {
    if ids == [] then 0 else if ids[0] == id then 0 else 1 + IndexOf(ids[1..], id)
  }

  /** previewTagOperationPage on an unchanged plan; None where it throws. */
  function PreviewPage(affected: seq<DocId>, after: Option<DocId>, limit: int): Option<Page> {
    if limit <= 0 || limit > PAGE_MAX_LIMIT then None
    else if after.Some? && after.value !in affected then None
    else
      var start := if after.None? then 0 else IndexOf(affected, after.value) + 1;
      var end := if start + limit < |affected| then start + limit else |affected|;
      Some(PreviewFromPlan(affected, affected[start..end]))
  }

  lemma IndexOfAt(ids: seq<DocId>, i: nat)
    requires Distinct(ids) && i < |ids|
    ensures IndexOf(ids, ids[i]) == i
  {
    var j := IndexOf(ids, ids[i]);
    assert ids[i] in ids;
  }

  /** Where a page ends is where the next one begins; only the last page has no cursor. */
  lemma PageContinues(affected: seq<DocId>, shown: nat, limit: int)
    requires Distinct(affected) && 0 < shown < |affected| && 0 < limit <= PAGE_MAX_LIMIT
    ensures var page := PreviewPage(affected, Some(affected[shown - 1]), limit);
            && page.Some? && 0 < |page.value.documents| <= limit
            && affected[..shown] + page.value.documents == affected[..shown + |page.value.documents|]
            && page.value.next == if shown + |page.value.documents| == |affected| then None
                                  else Some(affected[shown + |page.value.documents| - 1])
  {
    IndexOfAt(affected, shown - 1);
    assert affected[shown - 1] in affected;
    var end := if shown + limit < |affected| then shown + limit else |affected|;
    assert affected[shown..end][end - shown - 1] == affected[end - 1];
  }

  /** Following the cursors shows every affected document exactly once, in order, whatever limit
      each request uses. */
  method ListAll(affected: seq<DocId>, limitAt: nat -> int) returns (all: seq<DocId>, requests: nat)
    requires Distinct(affected) && forall n :: 0 < limitAt(n) <= PAGE_MAX_LIMIT
    ensures all == affected
    ensures requests <= |affected| + 1
  {
    var page := FirstPage(affected);
    all, requests := page.documents, 1;
    var cursor := page.next;
    while cursor.Some?
      invariant |all| <= |affected| && all == affected[..|all|]
      invariant cursor == if |all| == |affected| then None else Some(affected[|all| - 1])
      invariant |all| < |affected| ==> 0 < |all|
      invariant requests <= |all| + 1
      decreases |affected| - |all|
    {
      PageContinues(affected, |all|, limitAt(requests));
      page := PreviewPage(affected, cursor, limitAt(requests)).value;
      all := all + page.documents;
      cursor := page.next;
      requests := requests + 1;
    }
  }
}
