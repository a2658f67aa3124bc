/**
 * The in-memory spot store: an ordered array of spot records that create prepends
 * to, list takes a prefix of, and status update, field merge and delete address by
 * the first record whose `spotId` matches. Also the normalisation of seed records.
 */
module SpotsRepo {
  import opened Wrappers
  import opened Json
  import opened JsArray

  /** `s.spotId === id`. */
  predicate HasId(r: Record, id: string) {
    "spotId" in r && r["spotId"] == Str(id)
  }

  /** `arr.findIndex((s) => s.spotId === id)`. */
  function IndexOfId(spots: seq<Record>, id: string): (i: int)
    ensures -1 <= i < |spots|
    ensures i >= 0 ==> HasId(spots[i], id)
    ensures i >= 0 ==> forall j :: 0 <= j < i ==> !HasId(spots[j], id)
    ensures i < 0 <==> forall j :: 0 <= j < |spots| ==> !HasId(spots[j], id)
    decreases |spots|
  {
    if spots == [] then -1
    else if HasId(spots[0], id) then 0
    else
      var k := IndexOfId(spots[1..], id);
      if k < 0 then -1 else k + 1
  }

  /** No two records carry the same string id. */
  ghost predicate UniqueIds(spots: seq<Record>) {
    forall i, j, id :: 0 <= i < |spots| && 0 <= j < |spots| && HasId(spots[i], id) && HasId(spots[j], id) ==> i == j
  }

  /** The record a store operation returns (or `null`) and the store it leaves. */
  datatype Update = Update(result: Option<Record>, spots: seq<Record>)

  /** `{ ...arr[idx], status }` written back at the first match. */
  function StatusUpdate(spots: seq<Record>, id: string, status: string): (u: Update)
    ensures u.result.None? <==> IndexOfId(spots, id) < 0
    ensures u.result.None? ==> u.spots == spots
    ensures |u.spots| == |spots|
    ensures forall j :: 0 <= j < |spots| && j != IndexOfId(spots, id) ==> u.spots[j] == spots[j]
    ensures u.result.Some? ==> var i := IndexOfId(spots, id);
      u.spots[i] == u.result.value
      && u.result.value.Keys == spots[i].Keys + {"status"}
      && u.result.value["status"] == Str(status)
      && forall k :: k in spots[i] && k != "status" ==> u.result.value[k] == spots[i][k]
  {
    var i := IndexOfId(spots, id);
    if i < 0 then Update(None, spots)
    else
      var next := spots[i]["status" := Str(status)];
      Update(Some(next), spots[i := next])
  }

  /** `{ ...arr[idx], ...patch }` written back at the first match. */
  function FieldsUpdate(spots: seq<Record>, id: string, patch: Record): (u: Update)
    ensures u.result.None? <==> IndexOfId(spots, id) < 0
    ensures u.result.None? ==> u.spots == spots
    ensures |u.spots| == |spots|
    ensures forall j :: 0 <= j < |spots| && j != IndexOfId(spots, id) ==> u.spots[j] == spots[j]
    ensures u.result.Some? ==> var i := IndexOfId(spots, id);
      u.spots[i] == u.result.value
      && u.result.value.Keys == spots[i].Keys + patch.Keys
      && (forall k :: k in patch ==> u.result.value[k] == patch[k])
      && forall k :: k in spots[i] && k !in patch ==> u.result.value[k] == spots[i][k]
  {
    var i := IndexOfId(spots, id);
    if i < 0 then Update(None, spots)
    else
      var next := spots[i] + patch;
      Update(Some(next), spots[i := next])
  }

  /** Whether `deleteInMemory` found a record, and the store it leaves. */
  datatype Deletion = Deletion(deleted: bool, spots: seq<Record>)

  /** `arr.splice(idx, 1)` at the first match. */
  function Removal(spots: seq<Record>, id: string): (d: Deletion)
    ensures d.deleted <==> IndexOfId(spots, id) >= 0
    ensures !d.deleted ==> d.spots == spots
    ensures d.deleted ==> var i := IndexOfId(spots, id);
      |d.spots| == |spots| - 1
      && (forall j :: 0 <= j < i ==> d.spots[j] == spots[j])
      && forall j :: i < j < |spots| ==> d.spots[j - 1] == spots[j]
  {
    var i := IndexOfId(spots, id);
    if i < 0 then Deletion(false, spots)
    else Deletion(true, spots[..i] + spots[i + 1..])
  }

  /** The module-level `memory` array, with the file round trip of every operation elided. */
  class SpotStore {
    var spots: seq<Record>

    constructor (initial: seq<Record>)
      ensures spots == initial
    {
      spots := initial;
    }

    /** `createInMemory`: `arr.unshift(spot)`, with no check for an existing id. */
    method Create(spot: Record)
      modifies this
      ensures spots == [spot] + old(spots)
    {
      spots := [spot] + spots;
    }

    /** `listFromMemory`: `memory.slice(0, limit)`. */
    method List(limit: JsNumber) returns (items: seq<Record>)
      ensures items == SliceTo(spots, limit)
    {
      items := spots[..RelativeIndex(limit, |spots|)];
    }

    /** `updateStatusInMemory`. */
    method UpdateStatus(id: string, status: string) returns (updated: Option<Record>)
      modifies this
      ensures Update(updated, spots) == StatusUpdate(old(spots), id, status)
    {
      var i := IndexOfId(spots, id);
      if i < 0 {
        updated := None;
      } else {
        var next := spots[i]["status" := Str(status)];
        spots := spots[i := next];
        updated := Some(next);
      }
    }

    /** `updateFieldsInMemory`. */
    method UpdateFields(id: string, patch: Record) returns (updated: Option<Record>)
      modifies this
      ensures Update(updated, spots) == FieldsUpdate(old(spots), id, patch)
    {
      var i := IndexOfId(spots, id);
      if i < 0 {
        updated := None;
      } else {
        var next := spots[i] + patch;
        spots := spots[i := next];
        updated := Some(next);
      }
    }

    /** `deleteInMemory`. */
    method Delete(id: string) returns (deleted: bool)
      modifies this
      ensures Deletion(deleted, spots) == Removal(old(spots), id)
    {
      var i := IndexOfId(spots, id);
      if i < 0 {
        deleted := false;
      } else {
        spots := spots[..i] + spots[i + 1..];
        deleted := true;
      }
    }
  }

  /** First-match search only looks at which records carry the id. */
  lemma {:induction false} IndexOfIdSameIds(a: seq<Record>, b: seq<Record>, id: string)
    requires |a| == |b|
    requires forall j :: 0 <= j < |a| ==> (HasId(a[j], id) <==> HasId(b[j], id))
    ensures IndexOfId(a, id) == IndexOfId(b, id)
    decreases |a|
  {
    if a != [] && !HasId(a[0], id) {
      IndexOfIdSameIds(a[1..], b[1..], id);
    }
  }

  /** Approving (or setting any status) twice leaves the store as setting it once. */
  lemma StatusUpdateIdempotent(spots: seq<Record>, id: string, status: string)
    ensures var once := StatusUpdate(spots, id, status).spots;
      StatusUpdate(once, id, status).spots == once
  {
    var once := StatusUpdate(spots, id, status).spots;
    IndexOfIdSameIds(spots, once, id);
    var i := IndexOfId(spots, id);
    if i >= 0 {
      assert once[i]["status" := Str(status)] == once[i];
    }
  }

  /** A status update changes no record's id, so it keeps ids unique. */
  lemma StatusUpdateKeepsUnique(spots: seq<Record>, id: string, status: string)
    requires UniqueIds(spots)
    ensures UniqueIds(StatusUpdate(spots, id, status).spots)
  {
  }

  /** A merge of a patch that does not carry `spotId` keeps ids unique. */
  lemma FieldsUpdateKeepsUnique(spots: seq<Record>, id: string, patch: Record)
    requires UniqueIds(spots)
    requires "spotId" !in patch
    ensures UniqueIds(FieldsUpdate(spots, id, patch).spots)
  {
    var u := FieldsUpdate(spots, id, patch);
    forall j, x | 0 <= j < |spots| && HasId(u.spots[j], x)
      ensures HasId(spots[j], x)
    {
    }
  }

  /** With unique ids, a deleted spot can no longer be found. */
  lemma DeletedIsGone(spots: seq<Record>, id: string)
    requires UniqueIds(spots)
    ensures IndexOfId(Removal(spots, id).spots, id) < 0
    ensures UniqueIds(Removal(spots, id).spots)
  {
    var d := Removal(spots, id);
    if d.deleted {
      var i := IndexOfId(spots, id);
      forall j | 0 <= j < |d.spots|
        ensures !HasId(d.spots[j], id)
      {
        if j < i {
          assert d.spots[j] == spots[j];
        } else {
          assert d.spots[j] == spots[j + 1];
        }
      }
      forall j, k, x | 0 <= j < |d.spots| && 0 <= k < |d.spots| && HasId(d.spots[j], x) && HasId(d.spots[k], x)
        ensures j == k
      {
        var j' := if j < i then j else j + 1;
        var k' := if k < i then k else k + 1;
        assert d.spots[j] == spots[j'] && d.spots[k] == spots[k'];
      }
    }
  }

  /** Create prepends without looking for the id, so a second create of an existing id duplicates it. */
  lemma CreateUnique(spots: seq<Record>, spot: Record, id: string)
    requires UniqueIds(spots)
    requires HasId(spot, id)
    ensures UniqueIds([spot] + spots) <==> IndexOfId(spots, id) < 0
  {
    var s := [spot] + spots;
    if IndexOfId(spots, id) >= 0 {
      var i := IndexOfId(spots, id);
      assert HasId(s[0], id) && HasId(s[i + 1], id);
    } else {
      forall j, k, x | 0 <= j < |s| && 0 <= k < |s| && HasId(s[j], x) && HasId(s[k], x)
        ensures j == k
      {
        if j > 0 && k > 0 {
          assert s[j] == spots[j - 1] && s[k] == spots[k - 1];
        }
      }
    }
  }

  /** Without unique ids, delete removes only the first of two records sharing an id. */
  lemma DuplicateSurvivesDelete(a: Record, b: Record, id: string)
    requires HasId(a, id) && HasId(b, id)
    ensures var d := Removal([a, b], id);
      d.deleted && d.spots == [b] && IndexOfId(d.spots, id) == 0
  {
    assert [a, b][..0] + [a, b][1..] == [b];
  }

  /** What the seeds file gave: nothing readable, text that is not JSON, or a parsed value. */
  datatype SeedFile = NoFile | NotJson | SeedJson(data: Value)

  /** The seed items: the array itself, or its `points` array, or none. */
  function SeedItems(data: Value): (items: seq<Value>)
    ensures data.Arr? ==> items == data.items
    ensures !data.Arr? && Field(data, "points").Some? && Field(data, "points").value.Arr? ==> items == Field(data, "points").value.items
  {
    if data.Arr? then data.items
    else match Field(data, "points")
      case Some(Arr(xs)) => xs
      case _ => []
  }

  /** The keys each part of a normalised seed may contribute. */
  const HeaderKeys: set<string> := {"spotId", "createdAt", "status"}
  const CommonKeys: set<string> := {"name", "lat", "lng", "submittedBy", "description", "imageUrl", "contactEmail"}
  const PontonKeys: set<string> := {"type", "heightCm", "lengthM", "access", "address"}
  const AssociationKeys: set<string> := {"type", "url"}

  /** The parts never overlap, so each field of a normalised seed comes from exactly one part. */
  lemma SeedKeysDisjoint()
    ensures HeaderKeys !! CommonKeys && HeaderKeys !! PontonKeys && HeaderKeys !! AssociationKeys
    ensures CommonKeys !! PontonKeys && CommonKeys !! AssociationKeys
    ensures "website" !in HeaderKeys + CommonKeys + PontonKeys + AssociationKeys
    ensures "url" !in HeaderKeys + CommonKeys + PontonKeys
  {
  }

  /** The fields every seed spot gets first: `spotId`, `createdAt` and `status`. */
  function SeedHeader(s: Value, uuid: string, nowIso: string): (r: Record)
    ensures r.Keys == HeaderKeys
  {
    map[
      "spotId" := OrElse(Field(s, "spotId"), Str(uuid)),
      "createdAt" := OrElse(Field(s, "createdAt"), Str(nowIso)),
      "status" := OrElse(Field(s, "status"), Str("approved"))]
  }

  /** The fields shared by both kinds of spot. */
  function SeedCommon(s: Value, parse: string -> JsNumber, numText: real -> string): (r: Record)
    ensures {"name", "lat", "lng", "submittedBy"} <= r.Keys <= CommonKeys
  {
    var common := map[
      "name" := Coalesce(Nullish(Field(s, "name"), Field(s, "title")), Str("Spot")),
      "lat" := FromNumber(ToNumber(Field(s, "lat"), parse, numText)),
      "lng" := FromNumber(ToNumber(Nullish(Field(s, "lng"), Field(s, "lon")), parse, numText)),
      "submittedBy" := Coalesce(Field(s, "submittedBy"), Str("seed"))];
    // `s.k || undefined` for the three optional fields: a falsy value leaves the key out.
    var optional := map k | k in {"description", "imageUrl", "contactEmail"} && Present(Field(s, k)) :: Field(s, k).value;
    common + optional
  }

  /** The kind-specific fields: ponton dimensions and access, or an association's url. */
  function SeedSpecifics(s: Value, parse: string -> JsNumber, numText: real -> string): (r: Record)
    ensures Field(s, "type") != Some(Str("association")) ==> r.Keys == PontonKeys
    ensures Field(s, "type") == Some(Str("association")) ==> {"type"} <= r.Keys <= AssociationKeys
  {
    if Field(s, "type") != Some(Str("association")) then
      map[
        "type" := Str("ponton"),
        "heightCm" := FromNumber(ToNumber(Some(Coalesce(Field(s, "heightCm"), Num(100.0))), parse, numText)),
        "lengthM" := FromNumber(ToNumber(Some(Coalesce(Field(s, "lengthM"), Num(1.0))), parse, numText)),
        "access" := Coalesce(Field(s, "access"), Str("autorise")),
        "address" := Str(JsString(Coalesce(Field(s, "address"), Str("")), numText))]
    else
      WithOptional(map["type" := Str("association")], "url", IfTruthy(Some(OrElse(Field(s, "url"), OrElse(Field(s, "website"), Null)))))
  }

  /** Spot defaulting for one seed item `s`, with `uuid` the id `randomUUID` would give. */
  function NormaliseSeed(s: Value, uuid: string, nowIso: string, parse: string -> JsNumber, numText: real -> string): (r: Record)
    ensures HeaderKeys + {"name", "lat", "lng", "submittedBy", "type"} <= r.Keys
    ensures r.Keys <= HeaderKeys + CommonKeys + PontonKeys + AssociationKeys
    ensures "website" !in r
  {
    SeedKeysDisjoint();
    SeedHeader(s, uuid, nowIso) + SeedCommon(s, parse, numText) + SeedSpecifics(s, parse, numText)
  }

  /** Each field of a normalised seed is the field of the one part that has it. */
  lemma NormalisedField(s: Value, uuid: string, nowIso: string, parse: string -> JsNumber, numText: real -> string, k: string)
    ensures var h, c, p := SeedHeader(s, uuid, nowIso), SeedCommon(s, parse, numText), SeedSpecifics(s, parse, numText);
      var r := NormaliseSeed(s, uuid, nowIso, parse, numText);
      && (k in r <==> k in h || k in c || k in p)
      && (k in h ==> r[k] == h[k])
      && (k in c ==> r[k] == c[k])
      && (k in p ==> r[k] == p[k])
  {
    SeedKeysDisjoint();
  }

  /** How the header fields default. */
  lemma HeaderValues(s: Value, uuid: string, nowIso: string)
    ensures var h := SeedHeader(s, uuid, nowIso);
      && h["status"] == (if Present(Field(s, "status")) then Field(s, "status").value else Str("approved"))
      && h["spotId"] == (if Present(Field(s, "spotId")) then Field(s, "spotId").value else Str(uuid))
      && h["createdAt"] == (if Present(Field(s, "createdAt")) then Field(s, "createdAt").value else Str(nowIso))
  {
  }

  /** How the name defaults. */
  lemma CommonName(s: Value, parse: string -> JsNumber, numText: real -> string)
    ensures var c := SeedCommon(s, parse, numText);
      && (Coalesce(Field(s, "name"), Null) != Null ==> c["name"] == Field(s, "name").value)
      && (Coalesce(Field(s, "name"), Null) == Null && Coalesce(Field(s, "title"), Null) != Null ==> c["name"] == Field(s, "title").value)
      && (Coalesce(Field(s, "name"), Null) == Null && Coalesce(Field(s, "title"), Null) == Null ==> c["name"] == Str("Spot"))
  {
    var c := SeedCommon(s, parse, numText);
    var n := Nullish(Field(s, "name"), Field(s, "title"));
    assert c["name"] == Coalesce(n, Str("Spot"));
    if Coalesce(Field(s, "name"), Null) != Null {
      assert n == Field(s, "name");
    } else {
      assert n == Field(s, "title");
    }
  }

  /** How the submitter defaults. */
  lemma CommonSubmitter(s: Value, parse: string -> JsNumber, numText: real -> string)
    ensures SeedCommon(s, parse, numText)["submittedBy"] == Coalesce(Field(s, "submittedBy"), Str("seed"))
  {
  }

  /** How the ponton fields default. */
  lemma PontonValues(s: Value, parse: string -> JsNumber, numText: real -> string)
    requires Field(s, "type") != Some(Str("association"))
    ensures var p := SeedSpecifics(s, parse, numText);
      && p["type"] == Str("ponton")
      && (Coalesce(Field(s, "heightCm"), Null) == Null ==> p["heightCm"] == Num(100.0))
      && (Coalesce(Field(s, "lengthM"), Null) == Null ==> p["lengthM"] == Num(1.0))
      && (Coalesce(Field(s, "access"), Null) == Null ==> p["access"] == Str("autorise"))
      && (Coalesce(Field(s, "address"), Null) == Null ==> p["address"] == Str(""))
  {
  }

  /** The association fields. */
  lemma AssociationValues(s: Value, parse: string -> JsNumber, numText: real -> string)
    requires Field(s, "type") == Some(Str("association"))
    ensures var p := SeedSpecifics(s, parse, numText);
      && p["type"] == Str("association")
      && ("url" in p <==> Present(Field(s, "url")) || Present(Field(s, "website")))
  {
  }

  /** A seed is an association exactly when its `type` says so; every other seed is a ponton. */
  lemma SeedKind(s: Value, uuid: string, nowIso: string, parse: string -> JsNumber, numText: real -> string)
    ensures var r := NormaliseSeed(s, uuid, nowIso, parse, numText);
      && "type" in r
      && (r["type"] == Str("association") <==> Field(s, "type") == Some(Str("association")))
      && (r["type"] != Str("association") ==> r["type"] == Str("ponton"))
  {
    if Field(s, "type") == Some(Str("association")) {
      AssociationValues(s, parse, numText);
    } else {
      PontonValues(s, parse, numText);
    }
  }

  /** Status defaults to `approved`, and a falsy id or creation date is replaced. */
  lemma SeedHeaderDefaults(s: Value, uuid: string, nowIso: string, parse: string -> JsNumber, numText: real -> string)
    ensures var r := NormaliseSeed(s, uuid, nowIso, parse, numText);
      && {"status", "spotId", "createdAt"} <= r.Keys
      && r["status"] == (if Present(Field(s, "status")) then Field(s, "status").value else Str("approved"))
      && r["spotId"] == (if Present(Field(s, "spotId")) then Field(s, "spotId").value else Str(uuid))
      && r["createdAt"] == (if Present(Field(s, "createdAt")) then Field(s, "createdAt").value else Str(nowIso))
  {
    HeaderValues(s, uuid, nowIso);
    NormalisedField(s, uuid, nowIso, parse, numText, "status");
    NormalisedField(s, uuid, nowIso, parse, numText, "spotId");
    NormalisedField(s, uuid, nowIso, parse, numText, "createdAt");
  }

  /** The name falls back from `name` to `title` to `Spot`; the submitter falls back to `seed`. */
  lemma SeedNames(s: Value, uuid: string, nowIso: string, parse: string -> JsNumber, numText: real -> string)
    ensures var r := NormaliseSeed(s, uuid, nowIso, parse, numText);
      && "name" in r && "submittedBy" in r
      && (Coalesce(Field(s, "name"), Null) != Null ==> r["name"] == Field(s, "name").value)
      && (Coalesce(Field(s, "name"), Null) == Null && Coalesce(Field(s, "title"), Null) != Null ==> r["name"] == Field(s, "title").value)
      && (Coalesce(Field(s, "name"), Null) == Null && Coalesce(Field(s, "title"), Null) == Null ==> r["name"] == Str("Spot"))
      && r["submittedBy"] == Coalesce(Field(s, "submittedBy"), Str("seed"))
  {
    CommonName(s, parse, numText);
    CommonSubmitter(s, parse, numText);
    NormalisedField(s, uuid, nowIso, parse, numText, "name");
    NormalisedField(s, uuid, nowIso, parse, numText, "submittedBy");
  }

  /** Ponton defaults: height 100 cm, length 1 m, access `autorise`, empty address; no association url. */
  lemma PontonDefaults(s: Value, uuid: string, nowIso: string, parse: string -> JsNumber, numText: real -> string)
    requires Field(s, "type") != Some(Str("association"))
    ensures var r := NormaliseSeed(s, uuid, nowIso, parse, numText);
      && {"heightCm", "lengthM", "access", "address"} <= r.Keys && "url" !in r
      && (Coalesce(Field(s, "heightCm"), Null) == Null ==> r["heightCm"] == Num(100.0))
      && (Coalesce(Field(s, "lengthM"), Null) == Null ==> r["lengthM"] == Num(1.0))
      && (Coalesce(Field(s, "access"), Null) == Null ==> r["access"] == Str("autorise"))
      && (Coalesce(Field(s, "address"), Null) == Null ==> r["address"] == Str(""))
  {
    PontonValues(s, parse, numText);
    SeedKeysDisjoint();
    NormalisedField(s, uuid, nowIso, parse, numText, "heightCm");
    NormalisedField(s, uuid, nowIso, parse, numText, "lengthM");
    NormalisedField(s, uuid, nowIso, parse, numText, "access");
    NormalisedField(s, uuid, nowIso, parse, numText, "address");
    NormalisedField(s, uuid, nowIso, parse, numText, "url");
  }

  /** An association carries the shared fields, its kind and at most a url: none of the ponton fields. */
  lemma AssociationFields(s: Value, uuid: string, nowIso: string, parse: string -> JsNumber, numText: real -> string)
    requires Field(s, "type") == Some(Str("association"))
    ensures NormaliseSeed(s, uuid, nowIso, parse, numText).Keys <=
      {"spotId", "createdAt", "status", "name", "lat", "lng", "submittedBy", "description", "imageUrl", "contactEmail", "type", "url"}
  {
  }

  /** An association has a url exactly when the seed's `url` or `website` is truthy; `website` itself is dropped. */
  lemma AssociationUrl(s: Value, uuid: string, nowIso: string, parse: string -> JsNumber, numText: real -> string)
    requires Field(s, "type") == Some(Str("association"))
    ensures var r := NormaliseSeed(s, uuid, nowIso, parse, numText);
      && ("url" in r <==> Present(Field(s, "url")) || Present(Field(s, "website")))
      && "website" !in r
  {
    AssociationValues(s, parse, numText);
    SeedKeysDisjoint();
    NormalisedField(s, uuid, nowIso, parse, numText, "url");
    NormalisedField(s, uuid, nowIso, parse, numText, "website");
  }

  /**
   * `loadSeeds`: every item normalised in order; a `null` item makes `s.type` throw,
   * and the `catch` turns that, a missing file and bad JSON alike into no seeds.
   */
  function LoadSeeds(file: SeedFile, nowIso: string, uuid: nat -> string, parse: string -> JsNumber, numText: real -> string): (r: seq<Record>)
    ensures !file.SeedJson? ==> r == []
    ensures file.SeedJson? && Null in SeedItems(file.data) ==> r == []
    ensures file.SeedJson? && Null !in SeedItems(file.data) ==>
      var items := SeedItems(file.data);
      |r| == |items| && forall i :: 0 <= i < |items| ==> r[i] == NormaliseSeed(items[i], uuid(i), nowIso, parse, numText)
  {
    if !file.SeedJson? then []
    else
      var items := SeedItems(file.data);
      if Null in items then []
      else seq(|items|, i requires 0 <= i < |items| => NormaliseSeed(items[i], uuid(i), nowIso, parse, numText))
  }
}
