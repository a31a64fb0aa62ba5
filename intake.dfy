/**
 * Upload intake in src/App.js: `handleFiles` filters a dropped or selected
 * batch and appends the accepted files to the queue as pending items;
 * `removeFile` drops queue items by id.
 */
module Intake {
  import opened Seqs
  import opened Domain

  /** 50 MiB, the largest accepted file. */
  const MaxFileSize: int := 50 * 1024 * 1024

  /** The media types `handleFiles` lets through. */
  const ValidTypes: seq<string> := ["image/jpeg", "image/png", "image/gif", "image/webp", "application/pdf"]

  /** The per-file filter of `handleFiles`: not too large, and of an accepted type. */
  predicate Accepts(file: UploadedFile)
  {
    file.size <= MaxFileSize && file.mediaType in ValidTypes
  }

  /** A fresh queue entry: pending, with no images and no prompts yet. */
  function NewItem(file: UploadedFile, id: Id): QueueItem
  {
    QueueItem(file, id, Pending, [], [])
  }

  /**
   * `handleFiles(fileList)`: `ids(k)` is the id drawn for the k-th accepted
   * file (`Date.now() + Math.random()` in the source).
   */
  function HandleFiles(queue: seq<QueueItem>, batch: seq<UploadedFile>, ids: nat -> Id): (queue': seq<QueueItem>)
    ensures |queue| <= |queue'| <= |queue| + |batch|
    ensures queue'[..|queue|] == queue
  {
    queue + NewItems(Filter(Accepts, batch), ids)
  }

  /** `newFiles.map(file => ({file, id, status: 'pending', images: [], prompts: []}))` */
  function NewItems(files: seq<UploadedFile>, ids: nat -> Id): (items: seq<QueueItem>)
    ensures |items| == |files|
    ensures forall k :: 0 <= k < |files| ==>
      && items[k].file == files[k] && items[k].id == ids(k)
      && items[k].status == Pending && items[k].images == [] && items[k].prompts == []
  {
    var items := seq(|files|, k requires 0 <= k < |files| => NewItem(files[k], ids(k)));
    assert forall k :: 0 <= k < |files| ==> items[k] == NewItem(files[k], ids(k));
    items
  }

  /** The items `HandleFiles` appended, as their files. */
  function AddedFiles(queue: seq<QueueItem>, batch: seq<UploadedFile>, ids: nat -> Id): seq<UploadedFile>
  {
    var queue' := HandleFiles(queue, batch, ids);
    Map((item: QueueItem) => item.file, queue'[|queue|..])
  }

  lemma AddedAreAccepted(queue: seq<QueueItem>, batch: seq<UploadedFile>, ids: nat -> Id)
    ensures AddedFiles(queue, batch, ids) == Filter(Accepts, batch)
  {
    var accepted := Filter(Accepts, batch);
    assert HandleFiles(queue, batch, ids)[|queue|..] == NewItems(accepted, ids);
    var added := AddedFiles(queue, batch, ids);
    assert |added| == |accepted|;
    assert forall k :: 0 <= k < |added| ==> added[k] == accepted[k];
  }

  /** The existing queue is untouched; every added item is pending, empty and carries its drawn id. */
  lemma HandleFilesAppends(queue: seq<QueueItem>, batch: seq<UploadedFile>, ids: nat -> Id)
    ensures var queue' := HandleFiles(queue, batch, ids);
      && |queue| <= |queue'| <= |queue| + |batch|
      && queue'[..|queue|] == queue
      && forall k :: |queue| <= k < |queue'| ==>
           && queue'[k].status == Pending && queue'[k].images == [] && queue'[k].prompts == []
           && queue'[k].id == ids(k - |queue|) && Accepts(queue'[k].file)
  {
    var accepted := Filter(Accepts, batch);
    var queue' := HandleFiles(queue, batch, ids);
    assert queue' == queue + NewItems(accepted, ids);
    forall k | |queue| <= k < |queue'|
      ensures queue'[k] == NewItem(accepted[k - |queue|], ids(k - |queue|)) && Accepts(queue'[k].file)
    {
      assert Accepts(accepted[k - |queue|]);
    }
  }

  /**
   * The added files are exactly the accepted files of the batch: in batch
   * order, each as often as it occurs there, and a file is added iff it is
   * in the batch and accepted.
   */
  lemma HandleFilesAdmits(queue: seq<QueueItem>, batch: seq<UploadedFile>, ids: nat -> Id)
    ensures IsSubsequence(AddedFiles(queue, batch, ids), batch)
    ensures forall f :: multiset(AddedFiles(queue, batch, ids))[f] == if Accepts(f) then multiset(batch)[f] else 0
    ensures forall f :: f in AddedFiles(queue, batch, ids) <==> f in batch && Accepts(f)
  {
    AddedAreAccepted(queue, batch, ids);
    FilterOrder(Accepts, batch);
    FilterCount(Accepts, batch);
    FilterMembership(Accepts, batch);
  }

  /** The size limit is inclusive. */
  lemma SizeLimitInclusive(name: string, mediaType: string)
    requires mediaType in ValidTypes
    ensures Accepts(UploadedFile(name, mediaType, 52428800))
    ensures !Accepts(UploadedFile(name, mediaType, 52428801))
  {
  }

  /** No two queue items share an id. */
  predicate IdsDistinct(queue: seq<QueueItem>)
  {
    forall i, j :: 0 <= i < j < |queue| ==> queue[i].id != queue[j].id
  }

  /** Fresh ids for the added items keep the ids of the queue distinct. */
  lemma HandleFilesKeepsIdsDistinct(queue: seq<QueueItem>, batch: seq<UploadedFile>, ids: nat -> Id)
    requires IdsDistinct(queue)
    requires forall k, j :: 0 <= k < j < |batch| ==> ids(k) != ids(j)
    requires forall k, i :: 0 <= k < |batch| && 0 <= i < |queue| ==> ids(k) != queue[i].id
    ensures IdsDistinct(HandleFiles(queue, batch, ids))
  {
    var queue' := HandleFiles(queue, batch, ids);
    HandleFilesAppends(queue, batch, ids);
    forall i, j | 0 <= i < j < |queue'| ensures queue'[i].id != queue'[j].id {
      if j >= |queue| {
        assert queue'[j].id == ids(j - |queue|);
        if i >= |queue| {
          assert queue'[i].id == ids(i - |queue|);
        } else {
          assert queue'[i] == queue[i];
        }
      } else {
        assert queue'[i] == queue[i] && queue'[j] == queue[j];
      }
    }
  }

  /** `removeFile(id)`: `files.filter(f => f.id !== id)`. */
  function RemoveFile(queue: seq<QueueItem>, id: Id): (queue': seq<QueueItem>)
    ensures |queue'| <= |queue|
    ensures forall k :: 0 <= k < |queue'| ==> queue'[k].id != id
  {
    Filter((item: QueueItem) => item.id != id, queue)
  }

  /**
   * Removal drops exactly the items with that id: the rest stay, in their
   * order, each as often as before.
   */
  lemma RemoveFileExact(queue: seq<QueueItem>, id: Id)
    ensures IsSubsequence(RemoveFile(queue, id), queue)
    ensures forall item: QueueItem :: item in RemoveFile(queue, id) <==> item in queue && item.id != id
    ensures forall item: QueueItem :: item.id != id ==> multiset(RemoveFile(queue, id))[item] == multiset(queue)[item]
  {
    var keep := (item: QueueItem) => item.id != id;
    FilterOrder(keep, queue);
    FilterCount(keep, queue);
    FilterMembership(keep, queue);
  }

  /** Removing an id that no item carries leaves the queue as it was. */
  lemma {:induction false} RemoveAbsentId(queue: seq<QueueItem>, id: Id)
    requires forall k :: 0 <= k < |queue| ==> queue[k].id != id
    ensures RemoveFile(queue, id) == queue
  {
    if queue != [] {
      RemoveAbsentId(queue[1..], id);
    }
  }

  /** With distinct ids, removing an id that is present shortens the queue by exactly one. */
  lemma {:induction false} RemovePresentId(queue: seq<QueueItem>, id: Id, k: nat)
    requires IdsDistinct(queue) && k < |queue| && queue[k].id == id
    ensures |RemoveFile(queue, id)| == |queue| - 1
  {
    if k == 0 {
      RemoveAbsentId(queue[1..], id);
    } else {
      RemovePresentId(queue[1..], id, k - 1);
    }
  }

  /** Removal keeps the ids of the queue distinct. */
  lemma {:induction false} RemoveFileKeepsIdsDistinct(queue: seq<QueueItem>, id: Id)
    requires IdsDistinct(queue)
    ensures IdsDistinct(RemoveFile(queue, id))
  {
    if queue != [] {
      var rest := RemoveFile(queue[1..], id);
      RemoveFileKeepsIdsDistinct(queue[1..], id);
      if queue[0].id != id {
        forall j | 0 <= j < |rest| ensures queue[0].id != rest[j].id {
          FilterElement((item: QueueItem) => item.id != id, queue[1..], j);
          var m :| 0 <= m < |queue[1..]| && queue[1..][m] == rest[j];
          assert queue[m + 1] == rest[j];
        }
        assert RemoveFile(queue, id) == [queue[0]] + rest;
        ConsKeepsIdsDistinct(queue[0], rest);
      } else {
        assert RemoveFile(queue, id) == rest;
      }
    }
  }

  lemma ConsKeepsIdsDistinct(head: QueueItem, rest: seq<QueueItem>)
    requires IdsDistinct(rest)
    requires forall j :: 0 <= j < |rest| ==> head.id != rest[j].id
    ensures IdsDistinct([head] + rest)
  {
    var queue := [head] + rest;
    forall i, j | 0 <= i < j < |queue| ensures queue[i].id != queue[j].id {
      assert queue[j] == rest[j - 1];
      if i > 0 { assert queue[i] == rest[i - 1]; }
    }
  }
}
