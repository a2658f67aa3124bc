/**
 * The admin listing: the first `size` records of the store (a thousand at most
 * by default), optionally narrowed to one moderation status.
 */
module AdminListSpots {
  import opened Wrappers
  import opened Text
  import opened Json
  import opened JsArray
  import opened Platform
  import opened AdminAuth

  /** `(event.queryStringParameters?.status || 'all').toLowerCase()`. */
  function StatusParam(query: map<string, string>): (status: string)
    ensures "status" in query && query["status"] != "" ==> status == Lower(query["status"])
    ensures !("status" in query && query["status"] != "") ==> status == "all"
    ensures Lower(status) == status
  {
    LowerIdempotent(if "status" in query && query["status"] != "" then query["status"] else "all");
    Lower(if "status" in query && query["status"] != "" then query["status"] else "all")
  }

  /** The statuses that narrow the listing; any other value lists everything. */
  predicate IsFilter(status: string) {
    status == "pending" || status == "approved" || status == "rejected"
  }

  /** `s.status === status`. */
  predicate HasStatus(s: Record, status: string) {
    Get(s, "status") == Some(Str(status))
  }

  /** The listed records: the truncated store, then the status filter. */
  function Listed(query: map<string, string>, spots: seq<Record>, parse: string -> JsNumber): (items: seq<Record>)
    ensures var head := SliceTo(spots, RequestedSize(query, 1000.0, 1000.0, parse));
      && (IsFilter(StatusParam(query)) ==> items == Filter(head, (s: Record) => HasStatus(s, StatusParam(query))))
      && (!IsFilter(StatusParam(query)) ==> items == head)
    ensures IsFilter(StatusParam(query)) ==> forall i :: 0 <= i < |items| ==> HasStatus(items[i], StatusParam(query))
    ensures forall x :: x in items ==> x in spots
  {
    var head := SliceTo(spots, RequestedSize(query, 1000.0, 1000.0, parse));
    var status := StatusParam(query);
    if IsFilter(status) then Filter(head, (s: Record) => HasStatus(s, status)) else head
  }

  /** The handler: the guard, then `{ items, count }`; the store is only read. */
  function ListSpots(req: Request, spots: seq<Record>, cfg: Config, md5: string -> string, parse: string -> JsNumber): (r: Response)
    ensures Gate(req.headers, cfg.adminToken, md5).Some? ==> r == Gate(req.headers, cfg.adminToken, md5).value
    ensures Gate(req.headers, cfg.adminToken, md5).None? ==> r == Listing(Listed(req.query, spots, parse))
  {
    var gate := Gate(req.headers, cfg.adminToken, md5);
    if gate.Some? then gate.value else Listing(Listed(req.query, spots, parse))
  }

  /** With no `size`, or a size that is not negative, the listing holds at most a thousand records. */
  lemma ListingCapped(query: map<string, string>, spots: seq<Record>, parse: string -> JsNumber)
    requires "size" in query ==> parse(query["size"]).NaN? || parse(query["size"]).Infinity? || parse(query["size"]).x >= 0.0
    ensures |Listed(query, spots, parse)| <= 1000
  {
    SliceToCapped(spots, RequestedSize(query, 1000.0, 1000.0, parse), 1000);
  }

  /** A negative size escapes the cap: `slice(0, -1)` of 1002 records keeps 1001 of them. */
  lemma NegativeSizeExceedsCap(parse: string -> JsNumber)
    requires parse("-1") == Finite(-1.0)
    ensures |Listed(map["size" := "-1"], seq(1002, i => map[]), parse)| == 1001
  {
    var spots: seq<Record> := seq(1002, i => map[]);
    var q := map["size" := "-1"];
    assert StatusParam(q) == Lower("all");
    assert !IsFilter(StatusParam(q));
    SliceToNegative(spots, -1);
  }

  /** The status parameter is read without regard to letter case. */
  lemma StatusIgnoresCase(query: map<string, string>, spots: seq<Record>, parse: string -> JsNumber, status: string)
    ensures Listed(query["status" := status], spots, parse) == Listed(query["status" := Lower(status)], spots, parse)
  {
    LowerIdempotent(status);
    assert |Lower(status)| == |status|;
  }

  /** Filtering happens after truncation: an unfiltered listing is exactly the truncated store. */
  lemma AllIsUnfiltered(query: map<string, string>, spots: seq<Record>, parse: string -> JsNumber)
    requires "status" !in query
    ensures Listed(query, spots, parse) == SliceTo(spots, RequestedSize(query, 1000.0, 1000.0, parse))
  {
    assert Lower("all") == "all";
  }
}
