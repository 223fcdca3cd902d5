/** Cutting records into chunks and counting publishes (internal/uap/usecase/helpers_common.go and publisher.go). */
module Chunks {
  import opened Model

  const CHUNK_SIZE := 20

  function Joined<T>(chunks: seq<seq<T>>): seq<T> {
    if chunks == [] then [] else Joined(chunks[..|chunks| - 1]) + chunks[|chunks| - 1]
  }

  /** `chunkRecords`. */
  method ChunkRecords<T>(records: seq<T>) returns (chunks: seq<seq<T>>)
    ensures Joined(chunks) == records
    ensures |chunks| == (|records| + 19) / 20
    ensures forall i :: 0 <= i < |chunks| - 1 ==> |chunks[i]| == 20
    ensures forall i :: 0 <= i < |chunks| ==> 0 < |chunks[i]| <= 20
  {
    chunks := [];
    if |records| == 0 {
      return;
    }
    var start := 0;
    while start < |records|
      invariant start == CHUNK_SIZE * |chunks| && start < |records| + CHUNK_SIZE
      invariant Joined(chunks) == records[..if start < |records| then start else |records|]
      invariant forall i :: 0 <= i < |chunks| ==> 0 < |chunks[i]| <= CHUNK_SIZE
      invariant forall i :: 0 <= i < |chunks| && CHUNK_SIZE * (i + 1) <= |records| ==> |chunks[i]| == CHUNK_SIZE
    {
      var end := start + CHUNK_SIZE;
      if end > |records| {
        end := |records|;
      }
      ghost var before := chunks;
      chunks := chunks + [records[start..end]];
      assert chunks[..|chunks| - 1] == before;
      assert records[..end] == records[..start] + records[start..end];
      start := start + CHUNK_SIZE;
    }
    assert records[..|records|] == records;
  }

  class Stats {
    var attempted: nat
    var succeeded: nat
    var failed: nat
    var lastError: Option<string>

    constructor ()
      ensures attempted == succeeded == failed == 0 && lastError == None
    {
      attempted, succeeded, failed, lastError := 0, 0, 0, None;
    }

    /** `publishRecord`: `outcome` is the publisher's error, if any; without a publisher nothing counts. */
    method PublishRecord(hasPublisher: bool, outcome: Option<string>)
      modifies this
      ensures attempted == old(attempted) + if hasPublisher then 1 else 0
      ensures succeeded == old(succeeded) + if hasPublisher && outcome.None? then 1 else 0
      ensures failed == old(failed) + if hasPublisher && outcome.Some? then 1 else 0
      ensures lastError == if hasPublisher && outcome.Some? then outcome else old(lastError)
    {
      if !hasPublisher {
        return;
      }
      attempted := attempted + 1;
      if outcome.Some? {
        failed := failed + 1;
        lastError := outcome;
        return;
      }
      succeeded := succeeded + 1;
    }

    /** Publishing each record of a batch in turn. */
    method PublishAll(hasPublisher: bool, outcomes: seq<Option<string>>)
      requires attempted == succeeded + failed
      modifies this
      ensures attempted == succeeded + failed
      ensures attempted == old(attempted) + if hasPublisher then |outcomes| else 0
      ensures failed == old(failed) + if hasPublisher then |set i | 0 <= i < |outcomes| && outcomes[i].Some?| else 0
    {
      ghost var lost: set<int> := {};
      for i := 0 to |outcomes|
        invariant attempted == succeeded + failed
        invariant attempted == old(attempted) + if hasPublisher then i else 0
        invariant failed == old(failed) + if hasPublisher then |lost| else 0
        invariant lost == set j | 0 <= j < i && outcomes[j].Some?
      {
        PublishRecord(hasPublisher, outcomes[i]);
        if outcomes[i].Some? {
          lost := lost + {i};
        }
      }
    }
  }
}
