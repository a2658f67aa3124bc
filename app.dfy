/**
 * The client's submission form and its administration view: the checks run on
 * the form before anything is sent, the payload built from a form that passed
 * them, and the text filter, type partition and pagination of the admin tables.
 * The form is the component's state: text inputs hold strings, and a key that
 * was never set is absent (`undefined`).
 */
module App {
  import opened Wrappers
  import opened Text
  import opened Json
  import opened JsArray

  // ---------------------------------------------------------------------------
  // `isValidEmail`: the pattern `.+@.+\..+`, searched anywhere in the string
  // ---------------------------------------------------------------------------

  /** The characters that `.` in a regular expression does not match. */
  predicate LineBreak(c: char) {
    c == '\n' || c == '\r' || c == '\U{2028}' || c == '\U{2029}'
  }

  /** No line break in `e[i..j]`. */
  predicate NoBreak(e: string, i: int, j: int)
    requires 0 <= i && j <= |e|
  {
    forall k :: i <= k < j ==> !LineBreak(e[k])
  }

  /** The `\..+` part at `q`, with the run before it starting at `lo`: a dot, a character after it, no line break in between. */
  predicate DotAt(e: string, lo: nat, q: int) {
    lo <= q && q + 1 < |e| && e[q] == '.' && !LineBreak(e[q + 1]) && NoBreak(e, lo, q)
  }

  /**
   * The pattern matches with its `@` at `p` and its `\.` at `q`: a character
   * before `p`, a run of at least one between them and a character after `q`,
   * none of them a line break (a longer run before `p` or after `q` is never needed).
   */
  predicate MatchAt(e: string, p: int, q: int) {
    && 0 < p < |e| && e[p] == '@' && !LineBreak(e[p - 1])
    && p + 1 < q && DotAt(e, p + 1, q)
  }

  /** What `/.+@.+\..+/.test(e)` means. */
  ghost predicate EmailPattern(e: string) {
    exists p, q :: MatchAt(e, p, q)
  }

  /**
   * The matcher's inner search: a `.` at `q` or later, followed by a character,
   * with no line break from `q - 1` up to it.
   */
  predicate DotFrom(e: string, q: nat)
    requires q >= 1
    decreases |e| - q
  {
    q + 1 < |e| && !LineBreak(e[q - 1])
    && ((e[q] == '.' && !LineBreak(e[q + 1])) || DotFrom(e, q + 1))
  }

  /** The matcher's outer search: an `@` at `p` or later, preceded by a character and followed by a dot part. */
  predicate AtFrom(e: string, p: nat)
    decreases |e| - p
  {
    p < |e|
    && ((0 < p && e[p] == '@' && !LineBreak(e[p - 1]) && DotFrom(e, p + 2)) || AtFrom(e, p + 1))
  }

  /** `isValidEmail`: an empty (or absent) address is accepted, otherwise the pattern must occur. */
  predicate IsValidEmail(e: string): (valid: bool)
    ensures valid <==> e == "" || EmailPattern(e)
  {
    AtFromIff(e, 0);
    e == "" || AtFrom(e, 0)
  }

  /** The inner search finds a dot part exactly when one exists at `q` or later. */
  lemma {:induction false} DotFromIff(e: string, lo: nat, q: nat)
    requires q == lo + 1
    ensures DotFrom(e, q) <==> exists q' :: q <= q' && DotAt(e, lo, q')
    decreases |e| - q
  {
    if q + 1 < |e| && !LineBreak(e[q - 1]) {
      DotFromIff(e, q, q + 1);
      if DotFrom(e, q) {
        if e[q] == '.' && !LineBreak(e[q + 1]) {
          assert DotAt(e, q - 1, q);
        } else {
          var q' :| q + 1 <= q' && DotAt(e, q, q');
          assert DotAt(e, q - 1, q');
        }
      }
      if exists q' :: q <= q' && DotAt(e, lo, q') {
        var q' :| q <= q' && DotAt(e, lo, q');
        if q' > q {
          assert DotAt(e, q, q');
        }
      }
    }
  }

  /** The outer search finds a match exactly when one exists with its `@` at `p` or later. */
  lemma {:induction false} AtFromIff(e: string, p: nat)
    ensures AtFrom(e, p) <==> exists p', q :: p <= p' && MatchAt(e, p', q)
    decreases |e| - p
  {
    if p < |e| {
      AtFromIff(e, p + 1);
      DotFromIff(e, p + 1, p + 2);
      if exists p', q :: p <= p' && MatchAt(e, p', q) {
        var p', q :| p <= p' && MatchAt(e, p', q);
        if p' == p {
          assert DotAt(e, p + 1, q);
        } else {
          assert p + 1 <= p' && MatchAt(e, p', q);
        }
      }
      if AtFrom(e, p) && !AtFrom(e, p + 1) {
        var q :| p + 2 <= q && DotAt(e, p + 1, q);
        assert MatchAt(e, p, q);
      }
    }
  }

  /** The matcher accepts exactly the strings in which the pattern occurs. */
  lemma IsValidEmailMeaning(e: string)
    ensures IsValidEmail(e) <==> e == "" || EmailPattern(e)
  {
    AtFromIff(e, 0);
  }

  /** Two addresses from the form's own checks: one that fails and one that passes. */
  lemma EmailExamples()
    ensures !IsValidEmail("invalid")
    ensures IsValidEmail("user@example.com")
  {
    IsValidEmailMeaning("invalid");
    assert "invalid"[0] != '@' && "invalid"[1] != '@' && "invalid"[2] != '@' && "invalid"[3] != '@';
    assert "invalid"[4] != '@' && "invalid"[5] != '@' && "invalid"[6] != '@';
    IsValidEmailMeaning("user@example.com");
    assert MatchAt("user@example.com", 4, 12);
  }

  // ---------------------------------------------------------------------------
  // `validateForm`
  // ---------------------------------------------------------------------------

  /**
   * The form state: the text of each input, `None` while it is `undefined`
   * (only `url` starts that way; `picking`, which no check reads, is left out).
   */
  datatype Form = Form(
    kind: Option<string>, name: Option<string>, lat: Option<string>, lng: Option<string>,
    submittedBy: Option<string>, heightCm: Option<string>, lengthM: Option<string>,
    access: Option<string>, address: Option<string>, description: Option<string>,
    imageUrl: Option<string>, contactEmail: Option<string>, url: Option<string>)

  /** `!f.k?.trim()`: absent, or only white space. */
  predicate Blank(s: Option<string>) {
    s.None? || Trim(s.value) == ""
  }

  /** `f.k === '' || f.k == null`. */
  predicate Unset(s: Option<string>) {
    s.None? || s.value == ""
  }

  /** `Number(f.k)`; `Number(undefined)` is NaN. */
  function NumberOf(s: Option<string>, parse: string -> JsNumber): JsNumber {
    if s.Some? then parse(s.value) else NaN
  }

  /** `n > 0` on a JavaScript number. */
  predicate Positive(n: JsNumber) {
    (n.Finite? && n.x > 0.0) || n == Infinity(false)
  }

  /** `f.k && !isValidUrl(f.k)`; `validUrl` is whether `new URL` accepts the text. */
  predicate BadUrl(s: Option<string>, validUrl: string -> bool) {
    s.Some? && s.value != "" && !validUrl(s.value)
  }

  predicate IsPonton(f: Form) {
    f.kind == Some("ponton")
  }

  predicate IsAssociation(f: Form) {
    f.kind == Some("association")
  }

  /** The coordinates are missing or not finite numbers. */
  predicate BadCoordinates(f: Form, parse: string -> JsNumber) {
    Unset(f.lat) || Unset(f.lng) || !NumberOf(f.lat, parse).Finite? || !NumberOf(f.lng, parse).Finite?
  }

  /** `!isValidEmail(f.contactEmail)`. */
  predicate BadEmail(f: Form) {
    f.contactEmail.Some? && !IsValidEmail(f.contactEmail.value)
  }

  /** `!['autorise', 'tolere'].includes(f.access)`. */
  predicate BadAccess(f: Form) {
    f.access.None? || (f.access.value != "autorise" && f.access.value != "tolere")
  }

  /** A form with no error at all: the only kind that is submitted. */
  predicate FormValid(f: Form, parse: string -> JsNumber, validUrl: string -> bool) {
    && !Blank(f.name) && !Blank(f.submittedBy) && !BadCoordinates(f, parse)
    && !BadUrl(f.imageUrl, validUrl) && !BadEmail(f)
    && (IsPonton(f) ==>
         Positive(NumberOf(f.heightCm, parse)) && Positive(NumberOf(f.lengthM, parse))
         && !Blank(f.address) && !BadAccess(f))
    && (IsAssociation(f) ==> !BadUrl(f.url, validUrl))
  }

  /** The entries of the error record, named after the property the form shows each under. */
  datatype FormError =
    | NameError | SubmitterError | CoordinatesError | ImageUrlError | EmailError
    | HeightError | LengthError | AddressError | AccessError | UrlError
  {
    /** The text shown under the field. */
    function Text(): string {
      match this
      case NameError => "Nom requis"
      case SubmitterError => "Soumis par requis"
      case CoordinatesError => "Coordonnées requises"
      case ImageUrlError => "URL image invalide"
      case EmailError => "Email invalide"
      case HeightError => "Hauteur > 0 requise"
      case LengthError => "Longueur > 0 requise"
      case AddressError => "Adresse requise"
      case AccessError => "Accès invalide"
      case UrlError => "URL invalide"
    }
  }

  /** The error record: each entry that was set, with its text. */
  type Errors = map<FormError, string>

  /** Every entry holds its own text. */
  predicate WellWorded(errs: Errors) {
    forall e :: e in errs ==> errs[e] == e.Text()
  }

  /** The outcome of each test `validateForm` makes, before the type decides which of them count. */
  datatype Tests = Tests(
    nameBlank: bool, submitterBlank: bool, badCoordinates: bool, badImageUrl: bool, badEmail: bool,
    ponton: bool, association: bool,
    badHeight: bool, badLength: bool, addressBlank: bool, badAccess: bool, badUrl: bool)

  function RunTests(f: Form, parse: string -> JsNumber, validUrl: string -> bool): (t: Tests)
    ensures t.nameBlank == Blank(f.name) && t.submitterBlank == Blank(f.submittedBy)
    ensures t.badCoordinates == BadCoordinates(f, parse) && t.badImageUrl == BadUrl(f.imageUrl, validUrl)
    ensures t.badEmail == BadEmail(f)
    ensures t.ponton == IsPonton(f) && t.association == IsAssociation(f) && !(t.ponton && t.association)
    ensures t.badHeight == !Positive(NumberOf(f.heightCm, parse)) && t.badLength == !Positive(NumberOf(f.lengthM, parse))
    ensures t.addressBlank == Blank(f.address) && t.badAccess == BadAccess(f) && t.badUrl == BadUrl(f.url, validUrl)
  {
    assert "ponton"[0] != "association"[0];
    var latEmpty := Unset(f.lat);
    var lngEmpty := Unset(f.lng);
    var lat, lng := NumberOf(f.lat, parse), NumberOf(f.lng, parse);
    Tests(Blank(f.name), Blank(f.submittedBy), latEmpty || lngEmpty || !lat.Finite? || !lng.Finite?,
      BadUrl(f.imageUrl, validUrl), !IsValidEmail(f.contactEmail.GetOr("")),
      IsPonton(f), IsAssociation(f),
      !Positive(NumberOf(f.heightCm, parse)), !Positive(NumberOf(f.lengthM, parse)), Blank(f.address), BadAccess(f),
      BadUrl(f.url, validUrl))
  }

  /** `validateForm`: the error record, one entry per failed check. */
  method ValidateForm(f: Form, parse: string -> JsNumber, validUrl: string -> bool) returns (errs: Errors)
    ensures NameError in errs <==> Blank(f.name)
    ensures SubmitterError in errs <==> Blank(f.submittedBy)
    ensures CoordinatesError in errs <==> BadCoordinates(f, parse)
    ensures ImageUrlError in errs <==> BadUrl(f.imageUrl, validUrl)
    ensures EmailError in errs <==> BadEmail(f)
    ensures HeightError in errs <==> IsPonton(f) && !Positive(NumberOf(f.heightCm, parse))
    ensures LengthError in errs <==> IsPonton(f) && !Positive(NumberOf(f.lengthM, parse))
    ensures AddressError in errs <==> IsPonton(f) && Blank(f.address)
    ensures AccessError in errs <==> IsPonton(f) && BadAccess(f)
    ensures UrlError in errs <==> IsAssociation(f) && BadUrl(f.url, validUrl)
    ensures WellWorded(errs)
    ensures errs == map[] <==> FormValid(f, parse, validUrl)
  {
    var t := RunTests(f, parse, validUrl);
    errs := CommonEntries(t);
    errs := TypeEntries(t, errs);
    if FormValid(f, parse, validUrl) {
      forall e: FormError ensures e !in errs {
        match e
        case NameError =>
        case SubmitterError =>
        case CoordinatesError =>
        case ImageUrlError =>
        case EmailError =>
        case HeightError =>
        case LengthError =>
        case AddressError =>
        case AccessError =>
        case UrlError =>
      }
      assert errs == map[];
    }
  }

  /** The entries every form can get. */
  method CommonEntries(t: Tests) returns (errs: Errors)
    ensures NameError in errs <==> t.nameBlank
    ensures SubmitterError in errs <==> t.submitterBlank
    ensures CoordinatesError in errs <==> t.badCoordinates
    ensures ImageUrlError in errs <==> t.badImageUrl
    ensures EmailError in errs <==> t.badEmail
    ensures errs.Keys <= {NameError, SubmitterError, CoordinatesError, ImageUrlError, EmailError}
    ensures WellWorded(errs)
  {
    errs := map[];
    if t.nameBlank { errs := errs[NameError := NameError.Text()]; }
    if t.submitterBlank { errs := errs[SubmitterError := SubmitterError.Text()]; }
    if t.badCoordinates { errs := errs[CoordinatesError := CoordinatesError.Text()]; }
    if t.badImageUrl { errs := errs[ImageUrlError := ImageUrlError.Text()]; }
    if t.badEmail { errs := errs[EmailError := EmailError.Text()]; }
  }

  /** The entries that only a ponton, or only an association, can get, added to the common ones. */
  method TypeEntries(t: Tests, common: Errors) returns (errs: Errors)
    requires common.Keys <= {NameError, SubmitterError, CoordinatesError, ImageUrlError, EmailError}
    ensures forall e :: e in common ==> e in errs && errs[e] == common[e]
    ensures forall e :: e in errs ==> e in common || e in {HeightError, LengthError, AddressError, AccessError, UrlError}
    ensures HeightError in errs <==> t.ponton && t.badHeight
    ensures LengthError in errs <==> t.ponton && t.badLength
    ensures AddressError in errs <==> t.ponton && t.addressBlank
    ensures AccessError in errs <==> t.ponton && t.badAccess
    ensures UrlError in errs <==> !t.ponton && t.association && t.badUrl
    ensures WellWorded(common) ==> WellWorded(errs)
  {
    errs := common;
    if t.ponton {
      if t.badHeight { errs := errs[HeightError := HeightError.Text()]; }
      if t.badLength { errs := errs[LengthError := LengthError.Text()]; }
      if t.addressBlank { errs := errs[AddressError := AddressError.Text()]; }
      if t.badAccess { errs := errs[AccessError := AccessError.Text()]; }
    } else if t.association {
      if t.badUrl { errs := errs[UrlError := UrlError.Text()]; }
    }
  }

  // ---------------------------------------------------------------------------
  // The submitted payload
  // ---------------------------------------------------------------------------

  /** `base`: the properties every payload has; numbers are what `Number` made of the inputs. */
  datatype Common = Common(
    name: Option<string>, lat: JsNumber, lng: JsNumber, submittedBy: Option<string>,
    description: Option<string>, imageUrl: Option<string>, contactEmail: Option<string>)

  /** `SubmitSpotInput`, the two shapes of a submission; the tag is the datatype's constructor. */
  datatype SpotInput =
    | PontonInput(base: Common, heightCm: JsNumber, lengthM: JsNumber, access: Option<string>, address: Option<string>)
    | AssociationInput(base: Common, url: Option<string>)

  /** The payload built from the form: a ponton when the type says so, an association otherwise. */
  function Payload(f: Form, parse: string -> JsNumber): (p: SpotInput)
    ensures p.PontonInput? <==> IsPonton(f)
    ensures p.base.name == f.name && p.base.submittedBy == f.submittedBy
    ensures p.base.lat == NumberOf(f.lat, parse) && p.base.lng == NumberOf(f.lng, parse)
    ensures p.base.description == Filled(f.description) && p.base.imageUrl == Filled(f.imageUrl)
    ensures p.base.contactEmail == Filled(f.contactEmail)
    ensures p.PontonInput? ==> p.heightCm == NumberOf(f.heightCm, parse) && p.lengthM == NumberOf(f.lengthM, parse)
    ensures p.PontonInput? ==> p.access == f.access && p.address == f.address
    ensures p.AssociationInput? ==> p.url == Filled(f.url)
  {
    var base := Common(f.name, NumberOf(f.lat, parse), NumberOf(f.lng, parse), f.submittedBy,
      Filled(f.description), Filled(f.imageUrl), Filled(f.contactEmail));
    if IsPonton(f) then
      PontonInput(base, NumberOf(f.heightCm, parse), NumberOf(f.lengthM, parse), f.access, f.address)
    else
      AssociationInput(base, Filled(f.url))
  }

  /** The button's handler: validate, and build a payload only when the error record is empty. */
  method SubmitPressed(f: Form, parse: string -> JsNumber, validUrl: string -> bool)
    returns (errs: Errors, payload: Option<SpotInput>)
    ensures errs == map[] <==> FormValid(f, parse, validUrl)
    ensures payload.Some? <==> FormValid(f, parse, validUrl)
    ensures payload.Some? ==> payload.value == Payload(f, parse)
  {
    errs := ValidateForm(f, parse, validUrl);
    if |errs| > 0 {
      return errs, None;
    }
    payload := Some(Payload(f, parse));
  }

  /**
   * What validation guarantees about what is sent: a name and an author that are not
   * blank, finite coordinates, and for a ponton positive measures, an allowed access
   * and an address that is not blank.
   */
  lemma SubmittedPayloadShape(f: Form, parse: string -> JsNumber, validUrl: string -> bool)
    requires FormValid(f, parse, validUrl)
    ensures var p := Payload(f, parse);
      && p.base.name.Some? && Trim(p.base.name.value) != ""
      && p.base.submittedBy.Some? && Trim(p.base.submittedBy.value) != ""
      && p.base.lat.Finite? && p.base.lng.Finite?
      && (p.PontonInput? ==>
           && Positive(p.heightCm) && Positive(p.lengthM)
           && p.access.Some? && p.access.value in {"autorise", "tolere"}
           && p.address.Some? && Trim(p.address.value) != "")
  {
  }

  /** An optional input left empty is not sent at all. */
  lemma EmptyInputsDropped(f: Form, parse: string -> JsNumber)
    requires f.description == Some("") && f.imageUrl == Some("") && f.contactEmail == Some("") && f.url == Some("")
    ensures var p := Payload(f, parse);
      p.base.description.None? && p.base.imageUrl.None? && p.base.contactEmail.None?
      && (p.AssociationInput? ==> p.url.None?)
  {
  }

  // ---------------------------------------------------------------------------
  // The administration view: text filter, type partition, pages of twenty
  // ---------------------------------------------------------------------------

  /** The rows per page of each table. */
  const PageSize: nat := 20

  /** The properties the text filter searches. */
  const SearchedKeys: seq<string> := ["name", "type", "submittedBy", "address"]

  /** `filter.trim().toLowerCase()`. */
  function Needle(filter: string): (needle: string)
    ensures |needle| == |Trim(filter)| && Lower(needle) == needle
  {
    LowerIdempotent(Trim(filter));
    Lower(Trim(filter))
  }

  /** One of the searched properties is truthy and, as lower-case text, contains the needle. */
  predicate MatchesNeedle(s: Record, needle: string, numText: real -> string): (b: bool)
    ensures b ==> exists j :: 0 <= j < |SearchedKeys| && Present(Get(s, SearchedKeys[j]))
    ensures needle == "" ==> (b <==> exists j :: 0 <= j < |SearchedKeys| && Present(Get(s, SearchedKeys[j])))
  {
    exists j :: 0 <= j < |SearchedKeys| && Present(Get(s, SearchedKeys[j]))
      && Contains(Lower(JsString(s[SearchedKeys[j]], numText)), needle)
  }

  /** The rows the text filter keeps: all of them for a blank filter. */
  function Visible(items: seq<Record>, filter: string, numText: real -> string): (r: seq<Record>)
    ensures Needle(filter) == "" ==> r == items
    ensures Needle(filter) != "" ==> forall x :: x in r <==> x in items && MatchesNeedle(x, Needle(filter), numText)
  {
    var needle := Needle(filter);
    if needle != "" then Filter(items, (s: Record) => MatchesNeedle(s, needle, numText)) else items
  }

  /** The rows of one type, in their order. */
  function OfType(items: seq<Record>, kind: string): (r: seq<Record>)
    ensures forall x :: x in r <==> x in items && Get(x, "type") == Some(Str(kind))
  {
    Filter(items, (s: Record) => Get(s, "type") == Some(Str(kind)))
  }

  /** `items.slice(page * size, page * size + size)`. */
  function Page(items: seq<Record>, page: nat): (r: seq<Record>)
    ensures |r| <= PageSize
    ensures page * PageSize >= |items| ==> r == []
    ensures forall k :: 0 <= k < |r| ==> page * PageSize + k < |items| && r[k] == items[page * PageSize + k]
  {
    var start := if page * PageSize < |items| then page * PageSize else |items|;
    var end := if page * PageSize + PageSize < |items| then page * PageSize + PageSize else |items|;
    items[start..end]
  }

  /** "Suivant" is enabled unless the page ends at or past the last row. */
  predicate NextEnabled(page: nat, count: nat): (enabled: bool)
    ensures enabled <==> (page + 1) * PageSize < count
  {
    !(page * PageSize + PageSize >= count)
  }

  /** "Précédent" is enabled except on the first page. */
  predicate PreviousEnabled(page: nat): (enabled: bool)
    ensures enabled <==> Previous(page) < page
  {
    page != 0
  }

  /** `Math.max(0, p - 1)`. */
  function Previous(page: nat): (r: nat)
    ensures page > 0 ==> r + 1 == page
    ensures page == 0 ==> r == 0
  {
    if page - 1 > 0 then page - 1 else 0
  }

  /** The row at index `i` of a table is on page `i / 20`, at position `i % 20`. */
  lemma RowOnItsPage(items: seq<Record>, i: nat)
    requires i < |items|
    ensures var pg := Page(items, i / PageSize);
      i % PageSize < |pg| && pg[i % PageSize] == items[i]
  {
    var pg := Page(items, i / PageSize);
    assert (i / PageSize) * PageSize + i % PageSize == i;
    assert |pg| == (if (i / PageSize) * PageSize + PageSize < |items| then PageSize else |items| - (i / PageSize) * PageSize);
  }

  /** "Suivant" is enabled exactly when the next page has rows, so it never leads to an empty page. */
  lemma NextShowsRows(items: seq<Record>, page: nat)
    ensures NextEnabled(page, |items|) <==> Page(items, page + 1) != []
  {
    assert (page + 1) * PageSize == page * PageSize + PageSize;
    if NextEnabled(page, |items|) {
      assert |Page(items, page + 1)| > 0;
    }
  }

  /** The two tables never share a row. */
  lemma TablesDisjoint(items: seq<Record>, x: Record)
    requires x in OfType(items, "association")
    ensures x !in OfType(items, "ponton")
  {
    assert "association"[0] != "ponton"[0];
  }

  /** A row that the filter keeps and that is a ponton or an association is in the table of its own type (`TablesDisjoint`: in no other). */
  lemma FilteredRowInTable(items: seq<Record>, filter: string, numText: real -> string, x: Record)
    requires x in Visible(items, filter, numText) && Get(x, "type") in {Some(Str("ponton")), Some(Str("association"))}
    ensures x in OfType(Visible(items, filter, numText), x["type"].s)
  {
  }
}

