/**
 * Captcha verification: the client returns the encrypted `secret` it was given
 * together with the text it read; the handler decrypts the secret and compares
 * the two texts after trimming and lower-casing. Nothing is stored.
 */
module CaptchaVerify {
  import opened Wrappers
  import opened Text
  import opened Json
  import opened Platform

  /** `String(body.secret ?? '')`: the secret is not trimmed. */
  function Secret(body: Value, numText: real -> string): (secret: string)
    ensures Field(body, "secret").Some? && Field(body, "secret").value.Str? ==> secret == Field(body, "secret").value.s
    ensures Field(body, "secret").None? || Field(body, "secret") == Some(Null) ==> secret == ""
  {
    JsString(Coalesce(Field(body, "secret"), Str("")), numText)
  }

  /** `String(body.answer ?? '').trim()`. */
  function Answer(body: Value, numText: real -> string): (a: string)
    ensures Trim(a) == a
  {
    TrimIdempotent(JsString(Coalesce(Field(body, "answer"), Str("")), numText));
    Trim(JsString(Coalesce(Field(body, "answer"), Str("")), numText))
  }

  /** `{ ok: false, message }` with a status code. */
  function Refusal(code: int, text: string): Response {
    Reply(code, map["ok" := Bool(false), "message" := Str(text)])
  }

  /** The checks on a parsed (or absent, hence `{}`) body: both fields, then decryption, then the comparison. */
  function Verdict(body: Value, decrypt: string -> Option<string>, numText: real -> string): (r: Response)
    ensures r.statusCode in {200, 400}
    ensures r.statusCode == 200 ==> decrypt(Secret(body, numText)).Some?
    ensures r.statusCode == 200 ==>
      r == Reply(200, map["ok" := Bool(Lower(Trim(decrypt(Secret(body, numText)).value)) == Lower(Answer(body, numText)))])
  {
    var secret := Secret(body, numText);
    var answer := Answer(body, numText);
    if secret == "" || answer == "" then Refusal(400, "Missing secret or answer")
    else match decrypt(secret)
      case None => Refusal(400, "Invalid secret")
      case Some(expected) => Reply(200, map["ok" := Bool(Lower(Trim(expected)) == Lower(answer))])
  }

  /**
   * The handler; `decrypt` is AES-GCM decryption of the secret, `None` when it throws.
   * A `null` body makes `body.secret` throw, which the outer `catch` answers with 500.
   */
  function Handler(b: Body, decrypt: string -> Option<string>, numText: real -> string): (r: Response)
    ensures b.Unparsable? || b == Parsed(Null) ==> r == Refusal(500, "Internal error")
    ensures r.statusCode in {200, 400, 500}
    ensures r.statusCode == 200 ==> b.Parsed? && b.json != Null && decrypt(Secret(b.json, numText)).Some?
    ensures r.statusCode == 200 ==>
      r == Reply(200, map["ok" := Bool(Lower(Trim(decrypt(Secret(b.json, numText)).value)) == Lower(Answer(b.json, numText)))])
  {
    if b.Unparsable? || b == Parsed(Null) then Refusal(500, "Internal error")
    else if b.Parsed? then Verdict(b.json, decrypt, numText)
    else
      assert Secret(Obj(map[]), numText) == "";
      Verdict(Obj(map[]), decrypt, numText)
  }

  /** No body at all is a request with neither field: a 400, not an error. */
  lemma NoBodyIsMissing(decrypt: string -> Option<string>, numText: real -> string)
    ensures Handler(NoBody, decrypt, numText) == Refusal(400, "Missing secret or answer")
  {
    var empty: Value := Obj(map[]);
    assert Coalesce(Field(empty, "secret"), Str("")) == Str("");
    assert Secret(empty, numText) == "";
  }

  /** With an empty secret or a blank answer the outcome is 400 and does not depend on `decrypt` at all. */
  lemma MissingInputNeverDecrypts(v: Value, d1: string -> Option<string>, d2: string -> Option<string>, numText: real -> string)
    requires v != Null
    requires Secret(v, numText) == "" || Answer(v, numText) == ""
    ensures Handler(Parsed(v), d1, numText) == Handler(Parsed(v), d2, numText) == Refusal(400, "Missing secret or answer")
  {
  }

  /** A secret that does not decrypt is refused with the fixed message alone. */
  lemma UndecryptableIsInvalid(v: Value, decrypt: string -> Option<string>, numText: real -> string)
    requires v != Null && Secret(v, numText) != "" && Answer(v, numText) != ""
    requires decrypt(Secret(v, numText)).None?
    ensures Handler(Parsed(v), decrypt, numText) == Refusal(400, "Invalid secret")
  {
  }

  /**
   * `ok` is true exactly when the answer, trimmed and lower-cased, equals the decrypted text,
   * trimmed and lower-cased; both outcomes answer 200.
   */
  lemma OkIff(v: Value, decrypt: string -> Option<string>, numText: real -> string, expected: string)
    requires v != Null && Secret(v, numText) != "" && Answer(v, numText) != ""
    requires decrypt(Secret(v, numText)) == Some(expected)
    ensures Handler(Parsed(v), decrypt, numText).statusCode == 200
    ensures Handler(Parsed(v), decrypt, numText).body.json.fields["ok"] == Bool(true)
      <==> Lower(Trim(expected)) == Lower(Trim(Answer(v, numText)))
  {
  }

  /** Typing the decrypted text back, in another letter case and with stray spaces, is accepted. */
  lemma CorrectAnswerAccepted(secret: string, typed: string, expected: string, decrypt: string -> Option<string>, numText: real -> string)
    requires secret != "" && decrypt(secret) == Some(expected)
    requires Trim(typed) != "" && Lower(Trim(typed)) == Lower(Trim(expected))
    ensures Handler(Parsed(Obj(map["secret" := Str(secret), "answer" := Str(typed)])), decrypt, numText)
      == Reply(200, map["ok" := Bool(true)])
  {
    ReadsBothFields(secret, typed, numText);
  }

  /** The secret is read verbatim and the answer trimmed from a body carrying both as strings. */
  lemma ReadsBothFields(secret: string, typed: string, numText: real -> string)
    ensures var v := Obj(map["secret" := Str(secret), "answer" := Str(typed)]);
      Secret(v, numText) == secret && Answer(v, numText) == Trim(typed)
  {
    var m := map["secret" := Str(secret), "answer" := Str(typed)];
    assert "secret"[0] != "answer"[0];
    assert m["secret"] == Str(secret);
    assert m["answer"] == Str(typed);
    var v := Obj(m);
    assert Coalesce(Field(v, "secret"), Str("")) == Str(secret);
    assert Coalesce(Field(v, "answer"), Str("")) == Str(typed);
  }
}
