/**
 * Editing a spot as an administrator: admin guard, path id, the body restricted
 * to an allow-list of fields, a merge into the first matching record, and a
 * best-effort mail to the author whose wording follows the new status.
 */
module AdminUpdateSpot {
  import opened Wrappers
  import opened Text
  import opened Json
  import opened Platform
  import opened SpotsRepo
  import opened AdminAuth

  /** The fields an administrator may change, in the order the handler copies them. */
  const Allowed: seq<string> := ["name", "lat", "lng", "description", "imageUrl", "contactEmail", "heightCm", "lengthM",
                                 "access", "address", "url", "website", "type", "status", "moderationNote"]

  /** The body restricted to the allowed fields it has. */
  function AllowedPatch(fields: map<string, Value>): (patch: Record)
    ensures forall k :: k in patch <==> k in fields && k in Allowed
    ensures forall k :: k in patch ==> patch[k] == fields[k]
  {
    map k | k in fields && k in Allowed :: fields[k]
  }

  /** The identity of a spot, its creation date and its submitter are never forwarded, whatever the body holds. */
  lemma PatchKeepsIdentity(fields: map<string, Value>)
    ensures "spotId" !in AllowedPatch(fields) && "createdAt" !in AllowedPatch(fields) && "submittedBy" !in AllowedPatch(fields)
  {
    IdentityNotAllowed();
  }

  /** None of the identity fields is on the allow-list. */
  lemma IdentityNotAllowed()
    ensures "spotId" !in Allowed && "createdAt" !in Allowed && "submittedBy" !in Allowed
  {
    assert "spotId"[1] != "status"[1];
    assert "spotId"[0] != "access"[0];
    assert "submittedBy"[0] != "description"[0];
  }

  /** Every allowed field the body has is forwarded as it is. */
  lemma PatchForwardsAllowed(fields: map<string, Value>, k: string, v: Value)
    requires k in Allowed
    ensures AllowedPatch(fields[k := v])[k] == v
  {
  }

  /** `for (const k of allowed) if (k in body) patch[k] = body[k];` */
  method FilterPatch(fields: map<string, Value>) returns (patch: Record)
    ensures patch == AllowedPatch(fields)
  {
    patch := map[];
    for n := 0 to |Allowed|
      invariant forall k :: k in patch <==> k in fields && k in Allowed[..n]
      invariant forall k :: k in patch ==> patch[k] == fields[k]
    {
      var k := Allowed[n];
      if k in fields {
        patch := patch[k := fields[k]];
      }
    }
    assert Allowed[..|Allowed|] == Allowed;
  }

  /** The patch a request body gives, or `None` when reading it throws. */
  function BodyPatch(b: Body): (p: Option<Record>)
    ensures p.None? <==> b.Unparsable? || (b.Parsed? && !b.json.Obj? && !b.json.Arr?)
    ensures b.Parsed? && b.json.Obj? ==> p == Some(AllowedPatch(b.json.fields))
    ensures b.NoBody? || (b.Parsed? && b.json.Arr?) ==> p == Some(map[])
  {
    match b
    case NoBody => Some(map[])
    case Unparsable => None
    case Parsed(v) =>
      // `k in body` throws on a primitive or `null`; an array has none of the allowed keys.
      if v.Obj? then Some(AllowedPatch(v.fields)) else if v.Arr? then Some(map[]) else None
  }

  /** The mail subject and the line saying what happened. */
  datatype Wording = Wording(subject: string, actionLine: string)

  const Updated := Wording("PumpFoilMap — Votre soumission a été mise à jour", "a été mise à jour par un administrateur.")
  const Validated := Wording("PumpFoilMap — Votre soumission a été validée", "a été validée par un administrateur.")
  const Rejected := Wording("PumpFoilMap — Votre soumission a été rejetée", "a été rejetée par un administrateur.")

  /** The wording follows the status the patch sets: validated for `approved`, rejected for `rejected`, updated otherwise. */
  function WordingFor(patch: Record): (w: Wording)
    ensures w == Validated <==> "status" in patch && patch["status"] == Str("approved")
    ensures w == Rejected <==> "status" in patch && patch["status"] == Str("rejected")
    ensures w == Updated <==> !("status" in patch && patch["status"] in {Str("approved"), Str("rejected")})
  {
    if "status" in patch && patch["status"] == Str("approved") then Validated
    else if "status" in patch && patch["status"] == Str("rejected") then Rejected
    else Updated
  }

  /** The `let subject … ; if … else if …` chain of the handler. */
  method ChooseWording(patch: Record) returns (subject: string, actionLine: string)
    ensures Wording(subject, actionLine) == WordingFor(patch)
  {
    var statusChanged := "status" in patch;
    subject := "PumpFoilMap — Votre soumission a été mise à jour";
    actionLine := "a été mise à jour par un administrateur.";
    if statusChanged && patch["status"] == Str("approved") {
      subject := "PumpFoilMap — Votre soumission a été validée";
      actionLine := "a été validée par un administrateur.";
    } else if statusChanged && patch["status"] == Str("rejected") {
      subject := "PumpFoilMap — Votre soumission a été rejetée";
      actionLine := "a été rejetée par un administrateur.";
    }
  }

  /** The last line of the mail: the moderation note, only when the patch carries a truthy one. */
  function NoteLine(patch: Record, numText: real -> string): (line: string)
    ensures line != "" <==> Present(Get(patch, "moderationNote"))
    ensures line != "" ==> line == "Note de modération: " + JsString(patch["moderationNote"], numText)
  {
    if Present(Get(patch, "moderationNote")) then "Note de modération: " + JsString(patch["moderationNote"], numText) else ""
  }

  /** Where the id, the action line and the note sit in the text of the update notice. */
  lemma NoticeLayout(greeting: string, id: string, named: string, action: string, note: string)
    ensures var t := greeting + id + (named + ") " + action + "\n" + note);
      && Contains(t, id)
      && |t| > |note| && t[|t| - |note|..] == note && t[|t| - |note| - 1] == '\n'
      && Contains(t, action)
  {
    var rest := named + ") " + action + "\n" + note;
    var t := greeting + id + rest;
    ContainsInfix(greeting, id, rest);
    var pre := greeting + id + named + ") ";
    assert t == pre + action + ("\n" + note);
    ContainsInfix(pre, action, "\n" + note);
    assert t == (pre + action) + "\n" + note;
  }

  /** The mail to the author; the id in it is the one from the path. */
  function UpdateNotice(id: string, updated: Record, patch: Record, numText: real -> string): (m: Email)
    requires "contactEmail" in updated
    ensures m.to == updated["contactEmail"] && m.subject == Str(WordingFor(patch).subject) && m.source.None?
    ensures m.text.Str? && Contains(m.text.s, id)
    ensures var t, n := m.text.s, NoteLine(patch, numText);
      && |t| > |n| && t[|t| - |n|..] == n && t[|t| - |n| - 1] == '\n'
      && Contains(t, WordingFor(patch).actionLine)
  {
    var w := WordingFor(patch);
    var named := if Present(Get(updated, "name")) then ", Nom: " + Slot(updated, "name", numText) else "";
    var rest := named + ") " + w.actionLine + "\n" + NoteLine(patch, numText);
    NoticeLayout("Bonjour,\n\nVotre soumission (ID: ", id, named, w.actionLine, NoteLine(patch, numText));
    Email(updated["contactEmail"], Str(w.subject), Str("Bonjour,\n\nVotre soumission (ID: " + id + rest), None)
  }

  /** One mail when the merged record has a truthy `contactEmail`, none otherwise. */
  function UpdateNotices(id: string, updated: Record, patch: Record, numText: real -> string): (mails: seq<Email>)
    ensures |mails| <= 1
    ensures mails != [] <==> Present(Get(updated, "contactEmail"))
    ensures mails != [] ==> mails[0] == UpdateNotice(id, updated, patch, numText)
    ensures mails != [] ==> mails[0].to == updated["contactEmail"] && mails[0].subject == Str(WordingFor(patch).subject)
  {
    if Present(Get(updated, "contactEmail")) then [UpdateNotice(id, updated, patch, numText)] else []
  }

  /** What one update request does. */
  function UpdateRequest(req: Request, spots: seq<Record>, cfg: Config, md5: string -> string, numText: real -> string): (e: Effect)
    ensures Gate(req.headers, cfg.adminToken, md5).Some? ==> e == Effect(Gate(req.headers, cfg.adminToken, md5).value, spots, [])
    ensures Gate(req.headers, cfg.adminToken, md5).None? && Filled(req.pathId).None? ==> e == Effect(Message(400, "Missing id"), spots, [])
    ensures Gate(req.headers, cfg.adminToken, md5).None? && Filled(req.pathId).Some? && BodyPatch(req.body).None? ==>
      e == Effect(InternalError(), spots, [])
    ensures e.response.statusCode == 404 ==> e == Effect(Message(404, "Not found"), spots, [])
    ensures e.response.statusCode == 200 <==>
      Gate(req.headers, cfg.adminToken, md5).None? && Filled(req.pathId).Some? && BodyPatch(req.body).Some?
      && IndexOfId(spots, req.pathId.value) >= 0
    ensures e.response.statusCode == 200 ==>
      var u := FieldsUpdate(spots, req.pathId.value, BodyPatch(req.body).value);
      && e.spots == u.spots
      && e.response == Reply(200, u.result.value)
      && e.mails == UpdateNotices(req.pathId.value, u.result.value, BodyPatch(req.body).value, numText)
  {
    var gate := Gate(req.headers, cfg.adminToken, md5);
    if gate.Some? then Effect(gate.value, spots, [])
    else if Filled(req.pathId).None? then Effect(Message(400, "Missing id"), spots, [])
    else PatchRequest(req.pathId.value, req.body, spots, numText)
  }

  /** What an authorized request with an id does: read the patch, merge it, notify the author. */
  function PatchRequest(id: string, b: Body, spots: seq<Record>, numText: real -> string): (e: Effect)
    ensures BodyPatch(b).None? ==> e == Effect(InternalError(), spots, [])
    ensures e.response.statusCode == 404 <==> BodyPatch(b).Some? && IndexOfId(spots, id) < 0
    ensures e.response.statusCode == 404 ==> e == Effect(Message(404, "Not found"), spots, [])
    ensures e.response.statusCode == 200 <==> BodyPatch(b).Some? && IndexOfId(spots, id) >= 0
    ensures e.response.statusCode == 200 ==>
      var u := FieldsUpdate(spots, id, BodyPatch(b).value);
      && e.spots == u.spots
      && e.response == Reply(200, u.result.value)
      && e.mails == UpdateNotices(id, u.result.value, BodyPatch(b).value, numText)
  {
    match BodyPatch(b)
    case None => Effect(InternalError(), spots, [])
    case Some(patch) =>
      var u := FieldsUpdate(spots, id, patch);
      if u.result.None? then Effect(Message(404, "Not found"), spots, [])
      else Effect(Reply(200, u.result.value), u.spots, UpdateNotices(id, u.result.value, patch, numText))
  }

  /** The handler over the live store and outbox. */
  method Update(store: SpotStore, outbox: Outbox, req: Request, cfg: Config, md5: string -> string, numText: real -> string)
    returns (r: Response)
    modifies store, outbox
    ensures var e := UpdateRequest(req, old(store.spots), cfg, md5, numText);
      r == e.response && store.spots == e.spots && outbox.sent == old(outbox.sent) + e.mails
  {
    ghost var spots := store.spots;
    var gate := Gate(req.headers, cfg.adminToken, md5);
    if gate.Some? {
      return gate.value;
    }
    if Filled(req.pathId).None? {
      return Message(400, "Missing id");
    }
    assert UpdateRequest(req, spots, cfg, md5, numText) == PatchRequest(req.pathId.value, req.body, spots, numText);
    r := ApplyPatch(store, outbox, req.pathId.value, req.body, numText);
  }

  /** The steps after the guard and the id check. */
  method ApplyPatch(store: SpotStore, outbox: Outbox, id: string, b: Body, numText: real -> string) returns (r: Response)
    modifies store, outbox
    ensures var e := PatchRequest(id, b, old(store.spots), numText);
      r == e.response && store.spots == e.spots && outbox.sent == old(outbox.sent) + e.mails
  {
    var patch := ReadPatch(b);
    if patch.None? {
      return InternalError();
    }
    var updated := store.UpdateFields(id, patch.value);
    if updated.None? {
      return Message(404, "Not found");
    }
    NotifyAuthor(outbox, id, updated.value, patch.value, numText);
    r := Reply(200, updated.value);
  }

  /** `JSON.parse` of the body followed by the allow-list loop. */
  method ReadPatch(b: Body) returns (patch: Option<Record>)
    ensures patch == BodyPatch(b)
  {
    match b {
      case Unparsable => patch := None;
      case NoBody => patch := Some(map[]);
      case Parsed(v) =>
        if v.Obj? {
          var p := FilterPatch(v.fields);
          patch := Some(p);
        } else if v.Arr? {
          patch := Some(map[]);
        } else {
          patch := None;
        }
    }
  }

  /** The best-effort mail to the author of an updated spot. */
  method NotifyAuthor(outbox: Outbox, id: string, updated: Record, patch: Record, numText: real -> string)
    modifies outbox
    ensures outbox.sent == old(outbox.sent) + UpdateNotices(id, updated, patch, numText)
  {
    if Present(Get(updated, "contactEmail")) {
      var subject, actionLine := ChooseWording(patch);
      var named := if Present(Get(updated, "name")) then ", Nom: " + Slot(updated, "name", numText) else "";
      var note := if Present(Get(patch, "moderationNote")) then "Note de modération: " + JsString(patch["moderationNote"], numText) else "";
      var rest := named + ") " + actionLine + "\n" + note;
      outbox.Send(Email(updated["contactEmail"], Str(subject), Str("Bonjour,\n\nVotre soumission (ID: " + id + rest), None));
    }
  }

  /**
   * The merge a successful update performs keeps the spot's id, creation date and
   * submitter, every field off the allow-list, and every other record.
   */
  lemma MergeKeepsIdentity(spots: seq<Record>, id: string, b: Body)
    requires BodyPatch(b).Some? && IndexOfId(spots, id) >= 0
    ensures var u, i := FieldsUpdate(spots, id, BodyPatch(b).value), IndexOfId(spots, id);
      && u.result == Some(u.spots[i])
      && HasId(u.spots[i], id)
      && (forall k :: k in spots[i] && k !in Allowed ==> k in u.spots[i] && u.spots[i][k] == spots[i][k])
      && (forall j :: 0 <= j < |spots| && j != i ==> u.spots[j] == spots[j])
  {
    var patch := BodyPatch(b).value;
    var u, i := FieldsUpdate(spots, id, patch), IndexOfId(spots, id);
    PatchWithinAllowed(b);
    IdentityNotAllowed();
    assert u.spots[i]["spotId"] == spots[i]["spotId"];
  }

  /** A patch only ever names allowed fields. */
  lemma PatchWithinAllowed(b: Body)
    requires BodyPatch(b).Some?
    ensures forall k :: k in BodyPatch(b).value ==> k in Allowed
  {
  }

  /** Changing the status through an update keeps the store's ids unique. */
  lemma UpdateKeepsUnique(req: Request, spots: seq<Record>, cfg: Config, md5: string -> string, numText: real -> string)
    requires UniqueIds(spots)
    ensures UniqueIds(UpdateRequest(req, spots, cfg, md5, numText).spots)
  {
    var patch := BodyPatch(req.body);
    if patch.Some? && req.pathId.Some? {
      if req.body.Parsed? && req.body.json.Obj? {
        PatchKeepsIdentity(req.body.json.fields);
      }
      FieldsUpdateKeepsUnique(spots, req.pathId.value, patch.value);
    }
  }
}
