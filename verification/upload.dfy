/**
 * The upload queue of hooks/use-upload.ts: items added per file, removed by
 * id, driven through pending, uploading, complete or error with a simulated
 * progress value, uploaded in bulk, and cleared once complete. Timer ticks
 * and upload completions are explicit steps; the storage call's outcome is
 * an input.
 */
module Upload {
  import opened Outcomes
  import opened Seqs
  import opened Text

  datatype UploadStatus = Pending | Uploading | Complete | Failed

  datatype LocalFile = LocalFile(name: string, mimeType: string, size: nat)

  datatype UploadItem = UploadItem(
    id: string,
    file: LocalFile,
    preview: Option<string>,
    status: UploadStatus,
    progress: int,
    url: Option<string>,
    error: Option<string>)

  /** Progress stays within 0..100 and is 100 exactly for complete items. */
  predicate WellFormed(item: UploadItem) {
    0 <= item.progress <= 100 && (item.progress == 100 <==> item.status == Complete)
  }

  predicate AllWellFormed(items: seq<UploadItem>) {
    forall i :: 0 <= i < |items| ==> WellFormed(items[i])
  }

  /** Only image files get a preview URL. */
  predicate IsImage(file: LocalFile) {
    StartsWith(file.mimeType, "image/")
  }

  /** The item `addFiles` creates for a file, given its fresh id and the object URL a preview would use. */
  function NewItem(file: LocalFile, id: string, previewUrl: string): (item: UploadItem)
    ensures item.id == id && item.file == file
    ensures item.status == Pending && item.progress == 0 && item.url.None? && item.error.None?
    ensures item.preview.Some? <==> IsImage(file)
    ensures IsImage(file) ==> item.preview == Some(previewUrl)
    ensures WellFormed(item)
  {
    UploadItem(id, file, if IsImage(file) then Some(previewUrl) else None, Pending, 0, None, None)
  }

  /**
   * `addFiles`: one new pending item per file, in file order, after the
   * existing items, which are untouched. The ids (`crypto.randomUUID()`) and
   * object URLs are inputs.
   */
  function AddFiles(items: seq<UploadItem>, files: seq<LocalFile>, ids: seq<string>, previewUrls: seq<string>): (r: seq<UploadItem>)
    requires |ids| == |files| && |previewUrls| == |files|
    ensures |r| == |items| + |files|
    ensures r[..|items|] == items
    ensures forall k :: 0 <= k < |files| ==> r[|items| + k] == NewItem(files[k], ids[k], previewUrls[k])
    decreases |files|
  {
    if |files| == 0 then items
    else
      var r := AddFiles(items + [NewItem(files[0], ids[0], previewUrls[0])], files[1..], ids[1..], previewUrls[1..]);
      assert forall k :: 1 <= k < |files| ==> r[|items| + k] == NewItem(files[k], ids[k], previewUrls[k]) by {
        forall k | 1 <= k < |files| ensures r[|items| + k] == NewItem(files[k], ids[k], previewUrls[k]) {
          assert |items| + k == |items + [NewItem(files[0], ids[0], previewUrls[0])]| + (k - 1);
          assert files[1..][k - 1] == files[k] && ids[1..][k - 1] == ids[k] && previewUrls[1..][k - 1] == previewUrls[k];
        }
      }
      r
  }

  function HasId(id: string): UploadItem -> bool {
    (item: UploadItem) => item.id == id
  }

  /** `removeItem`: drop exactly the items with that id, keeping the rest in order. */
  function RemoveItem(items: seq<UploadItem>, id: string): (r: seq<UploadItem>)
    ensures forall x :: x in r <==> x in items && x.id != id
    ensures IsSubsequence(r, items)
    ensures |r| == |items| - Count(HasId(id), items)
  {
    FilterIsSubsequence(Not(HasId(id)), items);
    FilterPartition(HasId(id), items);
    Filter(Not(HasId(id)), items)
  }

  /** Adding a file under a fresh id and then removing that id gives back the queue. */
  lemma {:induction false} AddThenRemove(items: seq<UploadItem>, file: LocalFile, id: string, previewUrl: string)
    requires forall i :: 0 <= i < |items| ==> items[i].id != id
    ensures RemoveItem(AddFiles(items, [file], [id], [previewUrl]), id) == items
  {
    var item := NewItem(file, id, previewUrl);
    assert AddFiles(items, [file], [id], [previewUrl]) == items + [item];
    FilterConcat(Not(HasId(id)), items, [item]);
    FilterKeepsAll(Not(HasId(id)), items);
    assert Filter(Not(HasId(id)), [item]) == [];
  }

  /** Removing an id twice is removing it once; removing an absent id changes nothing. */
  lemma RemoveItemIdempotent(items: seq<UploadItem>, id: string)
    ensures RemoveItem(RemoveItem(items, id), id) == RemoveItem(items, id)
    ensures (forall i :: 0 <= i < |items| ==> items[i].id != id) ==> RemoveItem(items, id) == items
  {
    FilterIdempotent(Not(HasId(id)), items);
    if forall i :: 0 <= i < |items| ==> items[i].id != id {
      FilterKeepsAll(Not(HasId(id)), items);
    }
  }

  function MarkUploading(): UploadItem -> UploadItem {
    (item: UploadItem) => item.(status := Uploading, progress := 10)
  }

  /** The first update of `uploadSingle`: the item becomes uploading at 10%. */
  function StartUpload(items: seq<UploadItem>, id: string): (r: seq<UploadItem>)
    ensures |r| == |items|
    ensures forall i :: 0 <= i < |items| && items[i].id == id ==> r[i] == items[i].(status := Uploading, progress := 10)
    ensures forall i :: 0 <= i < |items| && items[i].id != id ==> r[i] == items[i]
  {
    UpdateWhere(items, HasId(id), MarkUploading())
  }

  function UploadingWithId(id: string): UploadItem -> bool {
    (item: UploadItem) => item.id == id && item.status == Uploading
  }

  function Advance(): UploadItem -> UploadItem {
    (item: UploadItem) => item.(progress := if item.progress + 15 < 90 then item.progress + 15 else 90)
  }

  /** One tick of the progress timer: +15, capped at 90, and only while the item is uploading. */
  function Tick(items: seq<UploadItem>, id: string): (r: seq<UploadItem>)
    ensures |r| == |items|
    ensures forall i :: 0 <= i < |items| && items[i].id == id && items[i].status == Uploading ==>
              r[i] == items[i].(progress := if items[i].progress + 15 < 90 then items[i].progress + 15 else 90)
    ensures forall i :: 0 <= i < |items| && !(items[i].id == id && items[i].status == Uploading) ==>
              r[i] == items[i]
  {
    UpdateWhere(items, UploadingWithId(id), Advance())
  }

  /** What `uploadFile` gave: an error result, a URL, or a thrown value. */
  datatype UploadOutcome = ReturnedError(message: string) | ReturnedUrl(url: string) | Threw(reason: Option<string>)

  function Settle(outcome: UploadOutcome): UploadItem -> UploadItem {
    (item: UploadItem) =>
      match outcome
      case ReturnedUrl(url) => item.(status := Complete, progress := 100, url := Some(url))
      case ReturnedError(message) => item.(status := Failed, progress := 0, error := Some(message))
      case Threw(reason) => item.(status := Failed, progress := 0, error := Some(RejectionText(reason, "Upload failed")))
  }

  /**
   * The final update of `uploadSingle`: success makes the item complete at
   * 100% with its URL; an error result or a throw makes it an error at 0%
   * with the message ("Upload failed" for a non-Error throw). Only items
   * with that id change.
   */
  function FinishUpload(items: seq<UploadItem>, id: string, outcome: UploadOutcome): (r: seq<UploadItem>)
    ensures |r| == |items|
    ensures forall i :: 0 <= i < |items| && items[i].id != id ==> r[i] == items[i]
    ensures forall i :: 0 <= i < |items| && items[i].id == id ==>
              r[i].id == id && r[i].file == items[i].file && r[i].preview == items[i].preview
    ensures forall i :: 0 <= i < |items| && items[i].id == id && outcome.ReturnedUrl? ==>
              r[i].status == Complete && r[i].progress == 100 && r[i].url == Some(outcome.url)
              && r[i].error == items[i].error
    ensures forall i :: 0 <= i < |items| && items[i].id == id && outcome.ReturnedError? ==>
              r[i].status == Failed && r[i].progress == 0 && r[i].error == Some(outcome.message)
              && r[i].url == items[i].url
    ensures forall i :: 0 <= i < |items| && items[i].id == id && outcome.Threw? ==>
              r[i].status == Failed && r[i].progress == 0
              && r[i].error == Some(RejectionText(outcome.reason, "Upload failed"))
              && r[i].url == items[i].url
  {
    UpdateWhere(items, HasId(id), Settle(outcome))
  }

  /** Starting keeps every item well formed. */
  lemma StartPreservesWellFormed(items: seq<UploadItem>, id: string)
    requires AllWellFormed(items)
    ensures AllWellFormed(StartUpload(items, id))
  {
  }

  /** A tick keeps every item well formed: an uploading item is below 100 and stays at or below 90. */
  lemma TickPreservesWellFormed(items: seq<UploadItem>, id: string)
    requires AllWellFormed(items)
    ensures AllWellFormed(Tick(items, id))
  {
  }

  /** Settling keeps every item well formed. */
  lemma FinishPreservesWellFormed(items: seq<UploadItem>, id: string, outcome: UploadOutcome)
    requires AllWellFormed(items)
    ensures AllWellFormed(FinishUpload(items, id, outcome))
  {
  }

  /** Ticks never bring an uploading item to 100: only completion does. */
  lemma {:induction false} TicksStayBelowComplete(items: seq<UploadItem>, id: string, n: nat)
    requires AllWellFormed(items)
    ensures AllWellFormed(Ticks(items, id, n))
    ensures forall i :: 0 <= i < |items| ==> (Ticks(items, id, n)[i].status == Complete <==> items[i].status == Complete)
    decreases n
  {
    if n > 0 {
      TickPreservesWellFormed(items, id);
      TicksStayBelowComplete(Tick(items, id), id, n - 1);
    }
  }

  /** `n` timer ticks in a row. */
  function Ticks(items: seq<UploadItem>, id: string, n: nat): (r: seq<UploadItem>)
    ensures |r| == |items|
    decreases n
  {
    if n == 0 then items else Ticks(Tick(items, id), id, n - 1)
  }

  const IsPending: UploadItem -> bool := (item: UploadItem) => item.status == Pending
  const IsComplete: UploadItem -> bool := (item: UploadItem) => item.status == Complete
  const IsUploadingItem: UploadItem -> bool := (item: UploadItem) => item.status == Uploading

  function Ids(items: seq<UploadItem>): (r: seq<string>)
    ensures |r| == |items|
    ensures forall k :: 0 <= k < |items| ==> r[k] == items[k].id
  {
    if |items| == 0 then [] else [items[0].id] + Ids(items[1..])
  }

  /** Every listed item started, in order. */
  function StartAll(items: seq<UploadItem>, ids: seq<string>): (r: seq<UploadItem>)
    ensures |r| == |items|
    ensures forall i :: 0 <= i < |items| && items[i].id !in ids ==> r[i] == items[i]
    ensures forall i :: 0 <= i < |items| && items[i].id in ids ==> r[i] == items[i].(status := Uploading, progress := 10)
    decreases |ids|
  {
    if |ids| == 0 then items else StartAll(StartUpload(items, ids[0]), ids[1..])
  }

  /** Starting never changes an item's id. */
  lemma {:induction false} StartAllKeepsIds(items: seq<UploadItem>, ids: seq<string>)
    ensures forall i :: 0 <= i < |items| ==> StartAll(items, ids)[i].id == items[i].id
    decreases |ids|
  {
    if |ids| > 0 {
      StartAllKeepsIds(StartUpload(items, ids[0]), ids[1..]);
    }
  }

  /** Every listed item settled with its outcome, in order. */
  function FinishAll(items: seq<UploadItem>, ids: seq<string>, outcomes: seq<UploadOutcome>): (r: seq<UploadItem>)
    requires |outcomes| == |ids|
    ensures |r| == |items|
    ensures forall i :: 0 <= i < |items| && items[i].id !in ids ==> r[i] == items[i]
    ensures forall i :: 0 <= i < |items| && items[i].id in ids ==> r[i].status == Complete || r[i].status == Failed
    decreases |ids|
  {
    if |ids| == 0 then items else FinishAll(FinishUpload(items, ids[0], outcomes[0]), ids[1..], outcomes[1..])
  }

  /** An item is listed by `Ids` of any sequence it belongs to. */
  lemma IdListed(items: seq<UploadItem>, x: UploadItem)
    requires x in items
    ensures x.id in Ids(items)
  {
    var k :| 0 <= k < |items| && items[k] == x;
    assert Ids(items)[k] == x.id;
  }

  /** Starting keeps every item well formed, for any list of ids. */
  lemma {:induction false} StartAllPreservesWellFormed(items: seq<UploadItem>, ids: seq<string>)
    requires AllWellFormed(items)
    ensures AllWellFormed(StartAll(items, ids))
    decreases |ids|
  {
    if |ids| > 0 {
      StartPreservesWellFormed(items, ids[0]);
      StartAllPreservesWellFormed(StartUpload(items, ids[0]), ids[1..]);
    }
  }

  /** Settling keeps every item well formed, for any list of ids and outcomes. */
  lemma {:induction false} FinishAllPreservesWellFormed(items: seq<UploadItem>, ids: seq<string>, outcomes: seq<UploadOutcome>)
    requires |outcomes| == |ids| && AllWellFormed(items)
    ensures AllWellFormed(FinishAll(items, ids, outcomes))
    decreases |ids|
  {
    if |ids| > 0 {
      FinishPreservesWellFormed(items, ids[0], outcomes[0]);
      FinishAllPreservesWellFormed(FinishUpload(items, ids[0], outcomes[0]), ids[1..], outcomes[1..]);
    }
  }

  const ReturnsUrl: UploadOutcome -> bool := (o: UploadOutcome) => o.ReturnedUrl?

  /**
   * The URLs the successful uploads pushed onto `completedUrlsRef`, in
   * outcome order: one per URL outcome, and only the URLs of those outcomes.
   */
  function CollectedUrls(outcomes: seq<UploadOutcome>): (r: seq<string>)
    ensures |r| == Count(ReturnsUrl, outcomes)
    ensures |r| == 0 <==> forall k :: 0 <= k < |outcomes| ==> !outcomes[k].ReturnedUrl?
    decreases |outcomes|
  {
    if |outcomes| == 0 then []
    else UrlOf(outcomes[0]) + CollectedUrls(outcomes[1..])
  }

  /** A URL is collected exactly when some outcome returned it. */
  lemma {:induction false} CollectedUrlsMembers(outcomes: seq<UploadOutcome>)
    ensures forall u :: u in CollectedUrls(outcomes) <==> ReturnedUrl(u) in outcomes
    decreases |outcomes|
  {
    if |outcomes| > 0 {
      CollectedUrlsMembers(outcomes[1..]);
      assert forall o :: o in outcomes <==> o == outcomes[0] || o in outcomes[1..];
    }
  }

  /** The URL one outcome contributes: its own for a URL outcome, none otherwise. */
  function UrlOf(o: UploadOutcome): (r: seq<string>)
    ensures o.ReturnedUrl? ==> r == [o.url]
    ensures !o.ReturnedUrl? ==> r == []
  {
    if o.ReturnedUrl? then [o.url] else []
  }

  /** One step of collecting: the first outcome's URL, then the rest's. */
  lemma CollectedUrlsStep(outcomes: seq<UploadOutcome>)
    requires |outcomes| > 0
    ensures CollectedUrls(outcomes) == UrlOf(outcomes[0]) + CollectedUrls(outcomes[1..])
  {
  }

  /** Collecting keeps outcome order: the URLs of two runs of outcomes are the two URL lists, one after the other. */
  lemma {:induction false} CollectedUrlsConcat(a: seq<UploadOutcome>, b: seq<UploadOutcome>)
    ensures CollectedUrls(a + b) == CollectedUrls(a) + CollectedUrls(b)
    decreases |a|
  {
    if |a| == 0 {
      assert a + b == b;
    } else {
      var ab := a + b;
      assert ab[0] == a[0] && ab[1..] == a[1..] + b;
      CollectedUrlsConcat(a[1..], b);
      CollectedUrlsStep(ab);
      CollectedUrlsStep(a);
      AppendAssoc(UrlOf(a[0]), CollectedUrls(a[1..]), CollectedUrls(b));
    }
  }

  lemma AppendAssoc(x: seq<string>, y: seq<string>, z: seq<string>)
    ensures x + (y + z) == (x + y) + z
  {
  }

  /** The queue after `uploadAll` and the URLs handed to `onAllComplete`, if it was called. */
  datatype UploadAllRun = UploadAllRun(items: seq<UploadItem>, notified: Option<seq<string>>)

  /**
   * `uploadAll`: every item pending at the call is uploaded (one outcome per
   * pending item, in queue order; the items' completions are applied in that
   * order); items that were not pending keep their state, and
   * `onAllComplete` is called exactly when at least one URL was collected.
   */
  function UploadAll(items: seq<UploadItem>, outcomes: seq<UploadOutcome>): (r: UploadAllRun)
    requires |outcomes| == |Filter(IsPending, items)|
    ensures |r.items| == |items|
    ensures forall i :: 0 <= i < |items| && items[i].id !in Ids(Filter(IsPending, items)) ==> r.items[i] == items[i]
    ensures r.notified.Some? <==> exists k :: 0 <= k < |outcomes| && outcomes[k].ReturnedUrl?
    ensures r.notified.Some? ==> r.notified.value == CollectedUrls(outcomes)
  {
    var ids := Ids(Filter(IsPending, items));
    var settled := FinishAll(StartAll(items, ids), ids, outcomes);
    var urls := CollectedUrls(outcomes);
    UploadAllRun(settled, if |urls| > 0 then Some(urls) else None)
  }

  /** With distinct ids, the item with the `k`-th id is settled by the `k`-th outcome. */
  lemma {:induction false} FinishAllSettles(items: seq<UploadItem>, ids: seq<string>, outcomes: seq<UploadOutcome>, i: nat, k: nat)
    requires |outcomes| == |ids| && NoDuplicates(ids)
    requires i < |items| && k < |ids| && items[i].id == ids[k]
    ensures FinishAll(items, ids, outcomes)[i] == Settle(outcomes[k])(items[i])
    decreases |ids|
  {
    var settled := FinishUpload(items, ids[0], outcomes[0]);
    assert NoDuplicates(ids[1..]);
    if k == 0 {
      assert ids[0] !in ids[1..];
      assert settled[i].id == ids[0];
    } else {
      assert ids[1..][k - 1] == ids[k];
      FinishAllSettles(settled, ids[1..], outcomes[1..], i, k - 1);
    }
  }

  /** Every item pending when `uploadAll` is called ends complete or in error. */
  lemma UploadAllSettlesPending(items: seq<UploadItem>, outcomes: seq<UploadOutcome>)
    requires |outcomes| == |Filter(IsPending, items)|
    ensures forall i :: 0 <= i < |items| && items[i].status == Pending ==>
              UploadAll(items, outcomes).items[i].status in {Complete, Failed}
  {
    var ids := Ids(Filter(IsPending, items));
    var started := StartAll(items, ids);
    forall i | 0 <= i < |items| && items[i].status == Pending
      ensures UploadAll(items, outcomes).items[i].status in {Complete, Failed}
    {
      IdListed(Filter(IsPending, items), items[i]);
      assert started[i].id == items[i].id by {
        StartAllKeepsIds(items, ids);
      }
    }
  }

  /**
   * With the queue's pending ids distinct (they are `crypto.randomUUID()`
   * values), the `k`-th pending item ends exactly as the `k`-th outcome
   * settles it.
   */
  lemma UploadAllSettlesInOrder(items: seq<UploadItem>, outcomes: seq<UploadOutcome>, i: nat, k: nat)
    requires |outcomes| == |Filter(IsPending, items)|
    requires NoDuplicates(Ids(Filter(IsPending, items)))
    requires i < |items| && k < |outcomes| && items[i].id == Filter(IsPending, items)[k].id
    ensures UploadAll(items, outcomes).items[i] == Settle(outcomes[k])(items[i])
  {
    var ids := Ids(Filter(IsPending, items));
    assert items[i].id == ids[k];
    StartAllKeepsIds(items, ids);
    FinishAllSettles(StartAll(items, ids), ids, outcomes, i, k);
  }

  /** `uploadAll` keeps every item well formed. */
  lemma UploadAllPreservesWellFormed(items: seq<UploadItem>, outcomes: seq<UploadOutcome>)
    requires |outcomes| == |Filter(IsPending, items)| && AllWellFormed(items)
    ensures AllWellFormed(UploadAll(items, outcomes).items)
  {
    var ids := Ids(Filter(IsPending, items));
    StartAllPreservesWellFormed(items, ids);
    FinishAllPreservesWellFormed(StartAll(items, ids), ids, outcomes);
  }

  /** `clearCompleted`: drop exactly the complete items, keeping the rest in order. */
  function ClearCompleted(items: seq<UploadItem>): (r: seq<UploadItem>)
    ensures forall x :: x in r <==> x in items && x.status != Complete
    ensures IsSubsequence(r, items)
  {
    FilterIsSubsequence(Not(IsComplete), items);
    Filter(Not(IsComplete), items)
  }

  /** `completedCount`: at most the total, and zero exactly when no item is complete. */
  function CompletedCount(items: seq<UploadItem>): (n: nat)
    ensures n <= |items|
    ensures n == 0 <==> forall i :: 0 <= i < |items| ==> items[i].status != Complete
  {
    CountZeroIffNone(IsComplete, items);
    Count(IsComplete, items)
  }

  /** `totalCount`: every item counts, whatever its status. */
  function TotalCount(items: seq<UploadItem>): (n: nat)
    ensures n == |Filter(IsComplete, items)| + |Filter(Not(IsComplete), items)|
  {
    FilterPartition(IsComplete, items);
    |items|
  }

  /** `isUploading`: some item is uploading. */
  function IsUploading(items: seq<UploadItem>): (b: bool)
    ensures b <==> exists i :: 0 <= i < |items| && items[i].status == Uploading
  {
    Any(IsUploadingItem, items)
  }

  /** After clearing, no item is complete and the total drops by the completed count. */
  lemma ClearCompletedCounts(items: seq<UploadItem>)
    ensures CompletedCount(ClearCompleted(items)) == 0
    ensures TotalCount(ClearCompleted(items)) == TotalCount(items) - CompletedCount(items)
  {
    FilterPartition(IsComplete, items);
    FilterKeepsNone(IsComplete, ClearCompleted(items));
  }

  /** Clearing twice is clearing once. */
  lemma ClearCompletedIdempotent(items: seq<UploadItem>)
    ensures ClearCompleted(ClearCompleted(items)) == ClearCompleted(items)
  {
    FilterIdempotent(Not(IsComplete), items);
  }
}
