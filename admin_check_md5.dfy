/**
 * The standalone admin check: the client sends an MD5 digest in the JSON body or
 * the query string and learns whether it matches the digest of `ADMIN_TOKEN`.
 */
module AdminCheckMd5 {
  import opened Wrappers
  import opened Text
  import opened Json
  import opened Platform
  import AdminAuth

  /** `event.body ? JSON.parse(event.body) : undefined`, once parsing succeeded. */
  function ParsedBody(b: Body): Option<Value> {
    if b.Parsed? then Some(b.json) else None
  }

  /** A non-empty string `md5` property of the body, if the body is truthy. */
  predicate BodyHasMd5(body: Option<Value>) {
    body.Some? && Truthy(body.value) && Field(body.value, "md5").Some?
    && Field(body.value, "md5").value.Str? && Field(body.value, "md5").value.s != ""
  }

  /** `(body && typeof body.md5 === 'string' && body.md5) || (typeof qp.md5 === 'string' && qp.md5) || undefined`. */
  function InputMd5(body: Option<Value>, query: map<string, string>): (r: Option<string>)
    ensures r.Some? ==> r.value != ""
    ensures BodyHasMd5(body) ==> r == Some(Field(body.value, "md5").value.s)
    ensures !BodyHasMd5(body) && "md5" in query && query["md5"] != "" ==> r == Some(query["md5"])
    ensures r.None? <==> !BodyHasMd5(body) && ("md5" !in query || query["md5"] == "")
  {
    if body.Some? && Truthy(body.value) then
      match Field(body.value, "md5")
      case Some(Str(s)) =>
        if s != "" then Some(s)
        else if "md5" in query && query["md5"] != "" then Some(query["md5"]) else None
      case _ => if "md5" in query && query["md5"] != "" then Some(query["md5"]) else None
    else if "md5" in query && query["md5"] != "" then Some(query["md5"]) else None
  }

  /** `admin ? md5(admin) : ''`. */
  function AdminHash(adminToken: string, md5: string -> string): string {
    if adminToken == "" then "" else md5(adminToken)
  }

  /** The handler: 500 on unparsable JSON, 400 without a digest, otherwise 200 with `match`. */
  function Handler(req: Request, adminToken: string, md5: string -> string): (r: Response)
    ensures req.body.Unparsable? ==> r == InternalError()
    ensures !req.body.Unparsable? && InputMd5(ParsedBody(req.body), req.query).None? ==> r == Message(400, "Missing md5")
    ensures r.statusCode == 200 <==> !req.body.Unparsable? && InputMd5(ParsedBody(req.body), req.query).Some?
    ensures r.statusCode == 200 && adminToken == "" ==>
      r == Reply(200, map["match" := Bool(false), "message" := Str("Admin token not set")])
    ensures r.statusCode == 200 ==> r.body.JsonBody? && r.body.json.Obj? && "match" in r.body.json.fields
  {
    if req.body.Unparsable? then InternalError()
    else
      var input := InputMd5(ParsedBody(req.body), req.query);
      var adminHash := AdminHash(adminToken, md5);
      if input.None? then Message(400, "Missing md5")
      else if adminHash == "" then Reply(200, map["match" := Bool(false), "message" := Str("Admin token not set")])
      else Reply(200, map["match" := Bool(EqualsIgnoringCase(input.value, adminHash))])
  }

  /** The `match` this handler reports is exactly the verdict of the admin gate on the same digest. */
  lemma MatchAgreesWithGate(req: Request, adminToken: string, md5: string -> string)
    requires Handler(req, adminToken, md5).statusCode == 200
    ensures Handler(req, adminToken, md5).body.json.fields["match"]
      == Bool(AdminAuth.IsAdminMd5Valid(InputMd5(ParsedBody(req.body), req.query), adminToken, md5))
  {
    var input := InputMd5(ParsedBody(req.body), req.query);
    if adminToken != "" && md5(adminToken) == "" {
      assert |Lower(input.value)| == |input.value| > 0;
    }
  }

  /** A non-empty string in the body wins over the query string, whatever the query says. */
  lemma BodyTakesPrecedence(s: string, fields: map<string, Value>, query: map<string, string>)
    requires s != ""
    ensures InputMd5(Some(Obj(fields["md5" := Str(s)])), query) == Some(s)
  {
  }

  /** A body `md5` that is not a non-empty string falls through to the query string. */
  lemma NonStringBodyFallsThrough(v: Value, fields: map<string, Value>, q: string)
    requires !v.Str? || v.s == ""
    requires q != ""
    ensures InputMd5(Some(Obj(fields["md5" := v])), map["md5" := q]) == Some(q)
  {
  }

  /** The missing digest is reported before anything about the token: even with no token set. */
  lemma MissingBeforeToken(headers: map<string, string>, pathId: Option<string>, md5: string -> string)
    ensures Handler(Request(headers, pathId, map[], NoBody), "", md5) == Message(400, "Missing md5")
  {
  }

  /** The token's own digest, in any letter case, matches. */
  lemma TokenDigestMatches(adminToken: string, md5: string -> string, q: string)
    requires adminToken != "" && md5(adminToken) != ""
    requires q == md5(adminToken) || q == Lower(md5(adminToken))
    ensures Handler(Request(map[], None, map["md5" := q], NoBody), adminToken, md5)
      == Reply(200, map["match" := Bool(true)])
  {
    LowerIdempotent(md5(adminToken));
    assert |Lower(md5(adminToken))| == |md5(adminToken)|;
  }
}
