/**
 * The admin gate every moderation handler runs first: take the MD5 digest from a
 * `Bearer` authorization header and compare it, ignoring case, with the MD5 of the
 * configured `ADMIN_TOKEN`. An unset token never authorizes anything.
 */
module AdminAuth {
  import opened Wrappers
  import opened Text
  import opened Platform

  /** `headers.authorization || headers.Authorization`: an empty lower-case header falls through. */
  function AuthorizationHeader(headers: map<string, string>): (h: Option<string>)
    ensures "authorization" in headers && headers["authorization"] != "" ==> h == Some(headers["authorization"])
    ensures !("authorization" in headers && headers["authorization"] != "") ==>
      h == (if "Authorization" in headers then Some(headers["Authorization"]) else None)
  {
    if "authorization" in headers && headers["authorization"] != "" then Some(headers["authorization"])
    else if "Authorization" in headers then Some(headers["Authorization"])
    else None
  }

  /** The header starts with `bearer ` in some mix of letter cases. */
  predicate HasBearerPrefix(auth: string) {
    |auth| >= 7 && Lower(auth[..7]) == "bearer "
  }

  /** `getHeaderMd5`: the trimmed rest of a `bearer ` header, or nothing. */
  function GetHeaderMd5(headers: map<string, string>): (r: Option<string>)
    ensures r.Some? <==> AuthorizationHeader(headers).Some? && HasBearerPrefix(AuthorizationHeader(headers).value)
    ensures r.Some? ==> r.value == Trim(AuthorizationHeader(headers).value[7..])
  {
    var auth := AuthorizationHeader(headers);
    if auth.None? || auth.value == "" then None
    else
      var a := auth.value;
      LowerPrefix(a, if |a| < 7 then |a| else 7);
      if StartsWith(Lower(a), "bearer ") then Some(Trim(a[7..]))
      // The case-sensitive `Bearer ` fallback of the source cannot be reached (BearerFallbackSubsumed).
      else if StartsWith(a, "Bearer ") then assert false; None
      else None
  }

  /** The case-sensitive `Bearer ` fallback can never be reached: the lower-cased test already accepts it. */
  lemma BearerFallbackSubsumed(a: string)
    requires StartsWith(a, "Bearer ")
    ensures StartsWith(Lower(a), "bearer ")
  {
    LowerPrefix(a, 7);
    assert a[..7] == "Bearer ";
  }

  /** `isAdminMd5Valid`: an empty input or an unset token is invalid; otherwise digests are compared ignoring case. */
  function IsAdminMd5Valid(input: Option<string>, adminToken: string, md5: string -> string): (valid: bool)
    ensures valid ==> input.Some? && input.value != "" && adminToken != ""
    ensures input.Some? && input.value != "" && adminToken != "" ==>
      (valid <==> Lower(input.value) == Lower(md5(adminToken)))
  {
    if input.None? || input.value == "" then false
    else if adminToken == "" then false
    else EqualsIgnoringCase(input.value, md5(adminToken))
  }

  /** The check fails closed: with no `ADMIN_TOKEN` no input is valid, whatever MD5 gives. */
  lemma FailsClosed(input: Option<string>, md5: string -> string)
    ensures !IsAdminMd5Valid(input, "", md5)
  {
  }

  /** The comparison ignores case on the input side: an input is valid exactly when its lower case is. */
  lemma ValidityIgnoresCase(x: string, adminToken: string, md5: string -> string)
    ensures IsAdminMd5Valid(Some(x), adminToken, md5) == IsAdminMd5Valid(Some(Lower(x)), adminToken, md5)
  {
    LowerIdempotent(x);
    assert |Lower(x)| == |x|;
  }

  /** The digest of the configured token is valid, in any letter case. */
  lemma TokenDigestIsValid(adminToken: string, md5: string -> string)
    requires adminToken != "" && md5(adminToken) != ""
    ensures IsAdminMd5Valid(Some(md5(adminToken)), adminToken, md5)
    ensures IsAdminMd5Valid(Some(Lower(md5(adminToken))), adminToken, md5)
  {
    ValidityIgnoresCase(md5(adminToken), adminToken, md5);
  }

  /** The two outcomes of `authorizeAdmin`. */
  datatype AuthResult = Authorized(md5: string) | Denied(code: int)

  /** `authorizeAdmin`: 400 when no digest was extracted, 401 when it is invalid, the digest itself when it is valid. */
  function AuthorizeAdmin(headers: map<string, string>, adminToken: string, md5: string -> string): (a: AuthResult)
    ensures a.Denied? ==> a.code == 400 || a.code == 401
    ensures a == Denied(400) <==> GetHeaderMd5(headers).None? || GetHeaderMd5(headers) == Some("")
    ensures a.Authorized? ==> GetHeaderMd5(headers) == Some(a.md5) && a.md5 != ""
    ensures a.Authorized? ==> adminToken != "" && EqualsIgnoringCase(a.md5, md5(adminToken))
    ensures a.Authorized? <==> GetHeaderMd5(headers).Some? && IsAdminMd5Valid(GetHeaderMd5(headers), adminToken, md5)
    ensures GetHeaderMd5(headers).Some? && IsAdminMd5Valid(GetHeaderMd5(headers), adminToken, md5) ==>
      a == Authorized(GetHeaderMd5(headers).value)
    ensures a == Denied(401) <==>
      GetHeaderMd5(headers).Some? && GetHeaderMd5(headers).value != "" && !IsAdminMd5Valid(GetHeaderMd5(headers), adminToken, md5)
  {
    var extracted := GetHeaderMd5(headers);
    if extracted.None? || extracted.value == "" then Denied(400)
    else if !IsAdminMd5Valid(extracted, adminToken, md5) then Denied(401)
    else Authorized(extracted.value)
  }

  /** Without `ADMIN_TOKEN` the gate never lets a request through. */
  lemma NoTokenNoAdmin(headers: map<string, string>, md5: string -> string)
    ensures AuthorizeAdmin(headers, "", md5).Denied?
  {
  }

  /** A request carrying a digest that does not match the token's digest is refused with 401. */
  lemma WrongDigestIs401(prefix: string, digest: string, adminToken: string, md5: string -> string)
    requires |prefix| == 7 && Lower(prefix) == "bearer "
    requires digest != "" && !IsSpace(digest[0]) && !IsSpace(digest[|digest| - 1])
    requires !EqualsIgnoringCase(digest, md5(adminToken))
    ensures AuthorizeAdmin(map["authorization" := prefix + digest], adminToken, md5) == Denied(401)
  {
    CorrectHeaderShape(prefix, digest);
  }

  /** `Bearer <md5(ADMIN_TOKEN)>`, with the prefix in any letter case, is authorized and yields the digest. */
  lemma TokenDigestHeaderAuthorizes(prefix: string, adminToken: string, md5: string -> string)
    requires |prefix| == 7 && Lower(prefix) == "bearer "
    requires adminToken != ""
    requires md5(adminToken) != "" && !IsSpace(md5(adminToken)[0]) && !IsSpace(md5(adminToken)[|md5(adminToken)| - 1])
    ensures AuthorizeAdmin(map["authorization" := prefix + md5(adminToken)], adminToken, md5) == Authorized(md5(adminToken))
  {
    CorrectHeaderShape(prefix, md5(adminToken));
    TokenDigestIsValid(adminToken, md5);
  }

  /** A bearer header with a digest that has no surrounding white space yields exactly that digest. */
  lemma CorrectHeaderShape(prefix: string, digest: string)
    requires |prefix| == 7 && Lower(prefix) == "bearer "
    requires digest != "" && !IsSpace(digest[0]) && !IsSpace(digest[|digest| - 1])
    ensures GetHeaderMd5(map["authorization" := prefix + digest]) == Some(digest)
  {
    var a := prefix + digest;
    assert a[..7] == prefix;
    assert a[7..] == digest;
    TrimUnchanged(digest);
  }

  /** The response for a refused request. */
  function Rejection(code: int): (r: Response)
    ensures r.statusCode == code
    ensures code == 400 ==> r == Message(400, "Missing md5")
    ensures code != 400 ==> r == Message(code, "Unauthorized")
  {
    Message(code, if code == 400 then "Missing md5" else "Unauthorized")
  }

  /** The guard every admin handler opens with: the refusal to return, or nothing when the caller is admitted. */
  function Gate(headers: map<string, string>, adminToken: string, md5: string -> string): (g: Option<Response>)
    ensures g.None? <==> AuthorizeAdmin(headers, adminToken, md5).Authorized?
    ensures g.None? <==> GetHeaderMd5(headers).Some? && IsAdminMd5Valid(GetHeaderMd5(headers), adminToken, md5)
    ensures g.Some? ==> g.value == Rejection(AuthorizeAdmin(headers, adminToken, md5).code)
    ensures g.Some? ==> g.value.statusCode in {400, 401}
  {
    match AuthorizeAdmin(headers, adminToken, md5)
    case Denied(code) => Some(Rejection(code))
    case Authorized(_) => None
  }
}
