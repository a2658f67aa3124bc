/**
 * The moderation queue: the pending records among the first thousand of the
 * store, oldest first, at most `size` of them (20 by default, 100 at most).
 */
module AdminListPending {
  import opened Wrappers
  import opened Json
  import opened JsArray
  import opened Platform
  import opened SpotsRepo
  import opened AdminAuth

  /** `s.status === 'pending'`. */
  predicate IsPending(s: Record) {
    Get(s, "status") == Some(Str("pending"))
  }

  /** The sort key: `new Date(s.createdAt).getTime()`, given as `time`. */
  function CreatedAt(time: Option<Value> -> int): Record -> int {
    (s: Record) => time(Get(s, "createdAt"))
  }

  /** The queue: filter, sort by creation time, then slice to `size`. */
  function Queue(query: map<string, string>, spots: seq<Record>, parse: string -> JsNumber, time: Option<Value> -> int)
    : (items: seq<Record>)
    ensures forall i :: 0 <= i < |items| ==> IsPending(items[i])
    ensures SortedByKey(items, CreatedAt(time))
    ensures var pending := SortByKey(Filter(SliceTo(spots, Finite(1000.0)), IsPending), CreatedAt(time));
      items == SliceTo(pending, RequestedSize(query, 20.0, 100.0, parse))
  {
    var candidates := SliceTo(spots, Finite(1000.0));
    var pending := SortByKey(Filter(candidates, IsPending), CreatedAt(time));
    var items := SliceTo(pending, RequestedSize(query, 20.0, 100.0, parse));
    PendingSortedPrefix(Filter(candidates, IsPending), pending, items, CreatedAt(time));
    items
  }

  /** A prefix of a sorted permutation of pending records is still pending and sorted. */
  lemma PendingSortedPrefix(filtered: seq<Record>, sorted: seq<Record>, items: seq<Record>, key: Record -> int)
    requires forall i :: 0 <= i < |filtered| ==> IsPending(filtered[i])
    requires multiset(sorted) == multiset(filtered) && SortedByKey(sorted, key)
    requires |items| <= |sorted| && items == sorted[..|items|]
    ensures forall i :: 0 <= i < |items| ==> IsPending(items[i])
    ensures SortedByKey(items, key)
  {
    forall i | 0 <= i < |items| ensures IsPending(items[i]) {
      assert items[i] == sorted[i];
      assert sorted[i] in multiset(sorted);
      assert sorted[i] in filtered;
    }
  }

  /** The handler: the guard, then `{ items, count }`; the store is only read. */
  function ListPending(req: Request, spots: seq<Record>, cfg: Config, md5: string -> string,
                       parse: string -> JsNumber, time: Option<Value> -> int): (r: Response)
    ensures Gate(req.headers, cfg.adminToken, md5).Some? ==> r == Gate(req.headers, cfg.adminToken, md5).value
    ensures Gate(req.headers, cfg.adminToken, md5).None? ==> r == Listing(Queue(req.query, spots, parse, time))
  {
    var gate := Gate(req.headers, cfg.adminToken, md5);
    if gate.Some? then gate.value else Listing(Queue(req.query, spots, parse, time))
  }

  /** Every queued record is one of the first thousand records of the store. */
  lemma QueueFromFirstThousand(query: map<string, string>, spots: seq<Record>, parse: string -> JsNumber,
                               time: Option<Value> -> int, x: Record)
    requires x in Queue(query, spots, parse, time)
    ensures x in spots[..if |spots| < 1000 then |spots| else 1000]
  {
    var candidates := SliceTo(spots, Finite(1000.0));
    var filtered := Filter(candidates, IsPending);
    var pending := SortByKey(filtered, CreatedAt(time));
    assert x in pending;
    assert x in multiset(filtered);
    SliceToWhole(spots, 1000);
  }

  /** Without `size`, or with one that is not negative, at most a hundred records are queued. */
  lemma QueueCapped(query: map<string, string>, spots: seq<Record>, parse: string -> JsNumber, time: Option<Value> -> int)
    requires "size" in query ==> parse(query["size"]).NaN? || parse(query["size"]).Infinity? || parse(query["size"]).x >= 0.0
    ensures |Queue(query, spots, parse, time)| <= 100
  {
    var pending := SortByKey(Filter(SliceTo(spots, Finite(1000.0)), IsPending), CreatedAt(time));
    SliceToCapped(pending, RequestedSize(query, 20.0, 100.0, parse), 100);
  }

  /** Once approved, a spot leaves the queue (in a store whose ids are unique). */
  lemma ApprovedLeavesQueue(query: map<string, string>, spots: seq<Record>, id: string,
                            parse: string -> JsNumber, time: Option<Value> -> int)
    requires UniqueIds(spots)
    ensures forall x :: x in Queue(query, StatusUpdate(spots, id, "approved").spots, parse, time) ==> !HasId(x, id)
  {
    var after := StatusUpdate(spots, id, "approved").spots;
    StatusUpdateKeepsUnique(spots, id, "approved");
    forall x | x in Queue(query, after, parse, time) ensures !HasId(x, id) {
      var candidates := SliceTo(after, Finite(1000.0));
      var filtered := Filter(candidates, IsPending);
      var pending := SortByKey(filtered, CreatedAt(time));
      assert x in pending;
      assert x in multiset(filtered);
      assert x in candidates;
      var k :| 0 <= k < |after| && after[k] == x;
    }
  }
}
