/**
 * Public spot submission: validate the payload, store it as a new pending spot
 * at the front of the store, notify the administrator (and the author, when a
 * contact address was given) without waiting, and answer 202 with the receipt.
 */
module SubmitSpot {
  import opened Wrappers
  import opened Text
  import opened Json
  import opened Platform
  import opened SpotsRepo

  /** `SpotCreateSchema.safeParse(body)`: the cleaned record, or the list of issues. */
  datatype Validation = Accepted(data: Record) | Rejected(issues: Value)

  /** `event.body ? JSON.parse(event.body) : {}`, once parsing succeeded. */
  function BodyValue(b: Body): Value {
    if b.Parsed? then b.json else Obj(map[])
  }

  /** `{ spotId, createdAt, status: 'pending', ...parsed.data }`: the schema output is spread last. */
  function NewSpot(data: Record, uuid: string, now: string): (spot: Record)
    ensures spot.Keys == {"spotId", "createdAt", "status"} + data.Keys
    ensures forall k :: k in data ==> spot[k] == data[k]
    ensures "status" !in data ==> spot["status"] == Str("pending")
    ensures "spotId" !in data ==> spot["spotId"] == Str(uuid)
    ensures "createdAt" !in data ==> spot["createdAt"] == Str(now)
  {
    map["spotId" := Str(uuid), "createdAt" := Str(now), "status" := Str("pending")] + data
  }

  /** The 202 body: exactly the stored spot's `spotId`, `status` and `createdAt`. */
  function Receipt(spot: Record): (r: Record)
    requires {"spotId", "createdAt", "status"} <= spot.Keys
    ensures r.Keys == {"spotId", "status", "createdAt"}
    ensures forall k :: k in r ==> r[k] == spot[k]
  {
    map["spotId" := spot["spotId"], "status" := spot["status"], "createdAt" := spot["createdAt"]]
  }

  /** The mail to the administrator. */
  function AdminNotice(spot: Record, adminMail: string, numText: real -> string): (m: Email)
    ensures m.to == Str(adminMail) && m.source.None?
    ensures m.text.Str? && Contains(m.text.s, Slot(spot, "spotId", numText))
  {
    var head := "Un nouveau spot a été soumis:\n\nNom: " + Slot(spot, "name", numText) + "\nType: " + Slot(spot, "type", numText)
      + "\nCoordonnées: lat " + Slot(spot, "lat", numText) + ", lng " + Slot(spot, "lng", numText)
      + "\nSoumis par: " + Slot(spot, "submittedBy", numText) + "\nSpot ID: ";
    ContainsInfix(head, Slot(spot, "spotId", numText), "");
    assert head + Slot(spot, "spotId", numText) + "" == head + Slot(spot, "spotId", numText);
    Email(Str(adminMail), Str("PumpFoilMap — Nouveau spot soumis"), Str(head + Slot(spot, "spotId", numText)), None)
  }

  /** The acknowledgement to the author, sent to whatever `contactEmail` holds. */
  function AuthorNotice(spot: Record, numText: real -> string): (m: Email)
    requires "contactEmail" in spot
    ensures m.to == spot["contactEmail"] && m.source.None?
    ensures m.text.Str? && Contains(m.text.s, Slot(spot, "spotId", numText))
  {
    var head := "Bonjour " + Slot(spot, "submittedBy", numText) + ",\n\nVotre soumission du spot \"" + Slot(spot, "name", numText)
      + "\" a été reçue et sera modérée sous peu.\n\nIdentifiant: ";
    ContainsInfix(head, Slot(spot, "spotId", numText), "\nMerci !");
    Email(spot["contactEmail"], Str("PumpFoilMap — Votre soumission a été reçue"),
      Str(head + Slot(spot, "spotId", numText) + "\nMerci !"), None)
  }

  /** The notifications, in the order they are handed to `sendEmail`; the author one is nested in the admin branch. */
  function Notices(spot: Record, adminMail: string, numText: real -> string): (mails: seq<Email>)
    ensures |mails| <= 2
    ensures mails != [] <==> Trim(adminMail) != ""
    ensures |mails| == 2 <==> Trim(adminMail) != "" && Present(Get(spot, "contactEmail"))
    ensures mails != [] ==> mails[0] == AdminNotice(spot, Trim(adminMail), numText)
    ensures |mails| == 2 ==> mails[1].to == spot["contactEmail"] && mails[1] == AuthorNotice(spot, numText)
  {
    var to := Trim(adminMail);
    if to == "" then []
    else if Present(Get(spot, "contactEmail")) then [AdminNotice(spot, to, numText), AuthorNotice(spot, numText)]
    else [AdminNotice(spot, to, numText)]
  }

  /** What one submission does to the store and the outbox, and what it answers. */
  function Submission(b: Body, spots: seq<Record>, cfg: Config, validate: Value -> Validation,
                      uuid: string, now: string, numText: real -> string): (e: Effect)
    ensures b.Unparsable? ==> e == Effect(InternalError(), spots, [])
    ensures !b.Unparsable? && validate(BodyValue(b)).Rejected? ==>
      e == Effect(Reply(400, map["message" := Str("Invalid payload"), "errors" := validate(BodyValue(b)).issues]), spots, [])
    ensures e.response.statusCode == 202 <==> !b.Unparsable? && validate(BodyValue(b)).Accepted?
    ensures e.response.statusCode == 202 ==>
      var spot := NewSpot(validate(BodyValue(b)).data, uuid, now);
      && e.spots == [spot] + spots
      && e.response == Reply(202, Receipt(spot))
      && e.mails == Notices(spot, cfg.adminMail, numText)
  {
    if b.Unparsable? then Effect(InternalError(), spots, [])
    else match validate(BodyValue(b))
      case Rejected(issues) =>
        Effect(Reply(400, map["message" := Str("Invalid payload"), "errors" := issues]), spots, [])
      case Accepted(data) =>
        var spot := NewSpot(data, uuid, now);
        Effect(Reply(202, Receipt(spot)), [spot] + spots, Notices(spot, cfg.adminMail, numText))
  }

  /** The handler over the live store and outbox. */
  method Submit(store: SpotStore, outbox: Outbox, b: Body, cfg: Config, validate: Value -> Validation,
                uuid: string, now: string, numText: real -> string) returns (r: Response)
    modifies store, outbox
    ensures var e := Submission(b, old(store.spots), cfg, validate, uuid, now, numText);
      r == e.response && store.spots == e.spots && outbox.sent == old(outbox.sent) + e.mails
  {
    if b.Unparsable? {
      return InternalError();
    }
    var parsed := validate(BodyValue(b));
    if parsed.Rejected? {
      return Reply(400, map["message" := Str("Invalid payload"), "errors" := parsed.issues]);
    }
    var spot := NewSpot(parsed.data, uuid, now);
    store.Create(spot);
    Notify(outbox, spot, cfg.adminMail, numText);
    r := Reply(202, Receipt(spot));
  }

  /** The fire-and-forget notifications of a stored spot. */
  method Notify(outbox: Outbox, spot: Record, adminMailSetting: string, numText: real -> string)
    modifies outbox
    ensures outbox.sent == old(outbox.sent) + Notices(spot, adminMailSetting, numText)
  {
    var adminMail := Trim(adminMailSetting);
    if adminMail != "" {
      outbox.Send(AdminNotice(spot, adminMail, numText));
      if Present(Get(spot, "contactEmail")) {
        outbox.Send(AuthorNotice(spot, numText));
      }
    }
  }

  /** The answer never depends on the mail configuration: notifications cannot change it. */
  lemma ResponseIgnoresMail(b: Body, spots: seq<Record>, c1: Config, c2: Config, validate: Value -> Validation,
                            uuid: string, now: string, numText: real -> string)
    ensures Submission(b, spots, c1, validate, uuid, now, numText).response
      == Submission(b, spots, c2, validate, uuid, now, numText).response
    ensures Submission(b, spots, c1, validate, uuid, now, numText).spots
      == Submission(b, spots, c2, validate, uuid, now, numText).spots
  {
  }

  /** The receipt reports the stored spot's own id, status and creation date. */
  lemma ReceiptDescribesStoredSpot(b: Body, spots: seq<Record>, cfg: Config, validate: Value -> Validation,
                                   uuid: string, now: string, numText: real -> string)
    requires Submission(b, spots, cfg, validate, uuid, now, numText).response.statusCode == 202
    ensures var e := Submission(b, spots, cfg, validate, uuid, now, numText);
      |e.spots| == |spots| + 1 && e.spots[1..] == spots
      && e.response.body == JsonBody(Obj(map[
        "spotId" := e.spots[0]["spotId"], "status" := e.spots[0]["status"], "createdAt" := e.spots[0]["createdAt"]]))
  {
    var e := Submission(b, spots, cfg, validate, uuid, now, numText);
    assert e.spots[1..] == spots;
  }

  /**
   * A new spot is pending, carries the fresh id and is dated now exactly when the
   * schema output does not set those keys itself.
   */
  lemma FreshPendingSpot(data: Record, uuid: string, now: string, spots: seq<Record>)
    requires "status" !in data && "spotId" !in data && "createdAt" !in data
    requires UniqueIds(spots) && IndexOfId(spots, uuid) < 0
    ensures var spot := NewSpot(data, uuid, now);
      spot["status"] == Str("pending") && spot["createdAt"] == Str(now)
      && HasId(spot, uuid) && UniqueIds([spot] + spots)
  {
    CreateUnique(spots, NewSpot(data, uuid, now), uuid);
  }

  /** Because the schema output is spread after the defaults, a `status` in it wins over `pending`. */
  lemma SpreadStatusWins(uuid: string, now: string)
    ensures NewSpot(map["status" := Str("approved")], uuid, now)["status"] == Str("approved")
  {
  }

  /** A submission with a contact address but no `ADMIN_MAIL` sends nothing at all. */
  lemma AuthorMailNeedsAdminMail(spot: Record, numText: real -> string)
    requires Present(Get(spot, "contactEmail"))
    ensures Notices(spot, " ", numText) == []
  {
    assert IsSpace(' ');
    TrimEmptyIff(" ");
  }
}
