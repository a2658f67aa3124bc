/**
 * Approving a submission: admin guard, then the path id, then the status
 * update in the store, then a best-effort mail to the author.
 */
module ApproveSpot {
  import opened Wrappers
  import opened Text
  import opened Json
  import opened Platform
  import opened SpotsRepo
  import opened AdminAuth

  /** The mail telling the author the spot was approved; the name is mentioned only when it is truthy. */
  function ApprovalNotice(updated: Record, numText: real -> string): (m: Email)
    requires "contactEmail" in updated
    ensures m.to == updated["contactEmail"] && m.source.None?
    ensures m.text.Str? && Contains(m.text.s, Slot(updated, "spotId", numText))
  {
    var named := if Present(Get(updated, "name")) then ", Nom: " + Slot(updated, "name", numText) else "";
    var tail := named + ") a été approuvée.\nMerci pour votre contribution !";
    ContainsInfix("Bonjour,\n\nVotre soumission (ID: ", Slot(updated, "spotId", numText), tail);
    Email(updated["contactEmail"], Str("PumpFoilMap — Votre soumission a été approuvée"),
      Str("Bonjour,\n\nVotre soumission (ID: " + Slot(updated, "spotId", numText) + tail), None)
  }

  /** The notification for an approved record: one mail when it has a truthy `contactEmail`, none otherwise. */
  function ApprovalNotices(updated: Record, numText: real -> string): (mails: seq<Email>)
    ensures |mails| <= 1
    ensures mails != [] <==> Present(Get(updated, "contactEmail"))
    ensures mails != [] ==> mails[0].to == updated["contactEmail"] && mails[0] == ApprovalNotice(updated, numText)
  {
    if Present(Get(updated, "contactEmail")) then [ApprovalNotice(updated, numText)] else []
  }

  /** What one approval request does. */
  function Approval(req: Request, spots: seq<Record>, cfg: Config, md5: string -> string, numText: real -> string): (e: Effect)
    ensures Gate(req.headers, cfg.adminToken, md5).Some? ==> e == Effect(Gate(req.headers, cfg.adminToken, md5).value, spots, [])
    ensures Gate(req.headers, cfg.adminToken, md5).None? && Filled(req.pathId).None? ==> e == Effect(Message(400, "Missing id"), spots, [])
    ensures e.response.statusCode == 404 <==>
      Gate(req.headers, cfg.adminToken, md5).None? && Filled(req.pathId).Some? && IndexOfId(spots, req.pathId.value) < 0
    ensures e.response.statusCode == 404 ==> e == Effect(Message(404, "Not found"), spots, [])
    ensures e.response.statusCode == 200 <==>
      Gate(req.headers, cfg.adminToken, md5).None? && Filled(req.pathId).Some? && IndexOfId(spots, req.pathId.value) >= 0
    ensures e.response.statusCode == 200 ==>
      var u := StatusUpdate(spots, req.pathId.value, "approved");
      && e.spots == u.spots
      && e.response == Reply(200, map["spotId" := Str(req.pathId.value), "status" := Str("approved")])
      && e.mails == ApprovalNotices(u.result.value, numText)
  {
    var gate := Gate(req.headers, cfg.adminToken, md5);
    if gate.Some? then Effect(gate.value, spots, [])
    else if Filled(req.pathId).None? then Effect(Message(400, "Missing id"), spots, [])
    else
      var id := req.pathId.value;
      var u := StatusUpdate(spots, id, "approved");
      if u.result.None? then Effect(Message(404, "Not found"), spots, [])
      else
        var updated := u.result.value;
        Effect(Reply(200, map["spotId" := updated["spotId"], "status" := updated["status"]]), u.spots,
          ApprovalNotices(updated, numText))
  }

  /** The handler over the live store and outbox. */
  method Approve(store: SpotStore, outbox: Outbox, req: Request, cfg: Config, md5: string -> string, numText: real -> string)
    returns (r: Response)
    modifies store, outbox
    ensures var e := Approval(req, old(store.spots), cfg, md5, numText);
      r == e.response && store.spots == e.spots && outbox.sent == old(outbox.sent) + e.mails
  {
    var gate := Gate(req.headers, cfg.adminToken, md5);
    if gate.Some? {
      return gate.value;
    }
    if Filled(req.pathId).None? {
      return Message(400, "Missing id");
    }
    var id := req.pathId.value;
    var updated := store.UpdateStatus(id, "approved");
    if updated.None? {
      return Message(404, "Not found");
    }
    if Present(Get(updated.value, "contactEmail")) {
      outbox.Send(ApprovalNotice(updated.value, numText));
    }
    r := Reply(200, map["spotId" := updated.value["spotId"], "status" := updated.value["status"]]);
  }

  /**
   * A successful approval changes only the matched record, and in it only `status`,
   * which becomes `approved` whatever it was before.
   */
  lemma OnlyStatusChanges(req: Request, spots: seq<Record>, cfg: Config, md5: string -> string, numText: real -> string)
    requires Approval(req, spots, cfg, md5, numText).response.statusCode == 200
    ensures var e, i := Approval(req, spots, cfg, md5, numText), IndexOfId(spots, req.pathId.value);
      && |e.spots| == |spots|
      && (forall j :: 0 <= j < |spots| && j != i ==> e.spots[j] == spots[j])
      && e.spots[i].Keys == spots[i].Keys + {"status"}
      && e.spots[i]["status"] == Str("approved")
      && (forall k :: k in spots[i] && k != "status" ==> e.spots[i][k] == spots[i][k])
  {
  }

  /** Approving an approved spot again changes nothing in the store. */
  lemma ApproveTwice(req: Request, spots: seq<Record>, cfg: Config, md5: string -> string, numText: real -> string)
    requires Approval(req, spots, cfg, md5, numText).response.statusCode == 200
    ensures var once := Approval(req, spots, cfg, md5, numText).spots;
      Approval(req, once, cfg, md5, numText).spots == once
  {
    StatusUpdateIdempotent(spots, req.pathId.value, "approved");
  }

  /** Whatever the request, the response does not depend on how the notification went: only the store decides it. */
  lemma ResponseIgnoresMail(req: Request, spots: seq<Record>, cfg: Config, md5: string -> string, n1: real -> string, n2: real -> string)
    ensures Approval(req, spots, cfg, md5, n1).response == Approval(req, spots, cfg, md5, n2).response
  {
  }
}
