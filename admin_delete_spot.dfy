/**
 * Deleting a spot: admin guard, then the path id, then removal of the first
 * record with that id. No mail is sent.
 */
module AdminDeleteSpot {
  import opened Wrappers
  import opened Text
  import opened Json
  import opened Platform
  import opened SpotsRepo
  import opened AdminAuth

  /** What one delete request does; it never sends mail. */
  function DeleteRequest(req: Request, spots: seq<Record>, cfg: Config, md5: string -> string): (e: Effect)
    ensures e.mails == []
    ensures Gate(req.headers, cfg.adminToken, md5).Some? ==> e == Effect(Gate(req.headers, cfg.adminToken, md5).value, spots, [])
    ensures Gate(req.headers, cfg.adminToken, md5).None? && Filled(req.pathId).None? ==> e == Effect(Message(400, "Missing id"), spots, [])
    ensures e.response.statusCode == 404 <==>
      Gate(req.headers, cfg.adminToken, md5).None? && Filled(req.pathId).Some? && IndexOfId(spots, req.pathId.value) < 0
    ensures e.response.statusCode == 404 ==> e == Effect(Message(404, "Not found"), spots, [])
    ensures e.response.statusCode == 204 <==>
      Gate(req.headers, cfg.adminToken, md5).None? && Filled(req.pathId).Some? && IndexOfId(spots, req.pathId.value) >= 0
    ensures e.response.statusCode == 204 ==>
      e.response == Response(204, Empty) && e.spots == Removal(spots, req.pathId.value).spots
  {
    var gate := Gate(req.headers, cfg.adminToken, md5);
    if gate.Some? then Effect(gate.value, spots, [])
    else if Filled(req.pathId).None? then Effect(Message(400, "Missing id"), spots, [])
    else
      var d := Removal(spots, req.pathId.value);
      if !d.deleted then Effect(Message(404, "Not found"), spots, [])
      else Effect(Response(204, Empty), d.spots, [])
  }

  /** The handler over the live store. */
  method Delete(store: SpotStore, req: Request, cfg: Config, md5: string -> string) returns (r: Response)
    modifies store
    ensures var e := DeleteRequest(req, old(store.spots), cfg, md5);
      r == e.response && store.spots == e.spots
  {
    var gate := Gate(req.headers, cfg.adminToken, md5);
    if gate.Some? {
      return gate.value;
    }
    if Filled(req.pathId).None? {
      return Message(400, "Missing id");
    }
    var ok := store.Delete(req.pathId.value);
    if !ok {
      return Message(404, "Not found");
    }
    r := Response(204, Empty);
  }

  /**
   * After a successful delete in a store whose ids are unique, the spot cannot be
   * found any more, and the other records keep their order.
   */
  lemma DeletedSpotIsGone(req: Request, spots: seq<Record>, cfg: Config, md5: string -> string)
    requires UniqueIds(spots)
    requires DeleteRequest(req, spots, cfg, md5).response.statusCode == 204
    ensures var e, i := DeleteRequest(req, spots, cfg, md5), IndexOfId(spots, req.pathId.value);
      && IndexOfId(e.spots, req.pathId.value) < 0
      && UniqueIds(e.spots)
      && e.spots == spots[..i] + spots[i + 1..]
  {
    DeletedIsGone(spots, req.pathId.value);
  }

  /** A refused caller leaves every record in place, whatever id the path names. */
  lemma RefusedLeavesStore(req: Request, spots: seq<Record>, md5: string -> string, mail: string)
    ensures DeleteRequest(req, spots, Config("", mail), md5).spots == spots
    ensures DeleteRequest(req, spots, Config("", mail), md5).response.statusCode in {400, 401}
  {
    NoTokenNoAdmin(req.headers, md5);
  }
}
