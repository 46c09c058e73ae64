/** The credential endpoint `/api/auth`: POST validates an API key and a database id
    and stores them in two HTTP-only cookies, GET tells whether both cookies are set
    (revealing only the database id), DELETE clears both. */
module AuthRoute {
  import opened Wrappers

  const ApiKeyCookie: string := "notion_api_key"
  const DatabaseIdCookie: string := "notion_database_id"
  /** One year in seconds. */
  const OneYear: nat := 31536000
  const Production: string := "production"

  const RequiredError: string := "API key and database ID are required"
  const FormatError: string := "Invalid database ID format"
  const StoreError: string := "Failed to store credentials"
  const NotFoundError: string := "No credentials found"

  /** The JSON body fields POST destructures; a missing field is `None`. */
  datatype Credentials = Credentials(apiKey: Option<string>, databaseId: Option<string>)

  datatype SameSite = Strict | Lax | Unrestricted

  datatype CookieOptions = CookieOptions(
    httpOnly: bool, secure: bool, sameSite: SameSite, path: string, maxAge: nat)

  /** What a response asks the browser to do with one cookie. */
  datatype CookieUpdate = SetTo(value: string, options: CookieOptions) | Cleared

  /** The JSON body of every reply of this endpoint. None of its fields can hold
      the API key except through `databaseId`, which GET fills from the other cookie. */
  datatype Body = Body(success: bool, error: Option<string>, databaseId: Option<string>)

  /** The reason a POST is refused with status 400. */
  datatype Rejection = Required | InvalidFormat

  /** JavaScript truthiness of an optional string: present and not `''`. */
  predicate Present(s: Option<string>) {
    s.Some? && s.value != ""
  }

  predicate IsLowerHex(c: char) {
    ('0' <= c <= '9') || ('a' <= c <= 'f')
  }

  /** What `^[0-9a-f]{32}$` accepts, stated directly. */
  predicate IsDatabaseId(s: string) {
    |s| == 32 && forall i :: 0 <= i < |s| ==> IsLowerHex(s[i])
  }

  /** A matcher for `[0-9a-f]{n}` anchored at both ends: consume one class
      character per repetition and require the input to end exactly there. */
  function MatchHexRun(s: string, n: nat): bool
    decreases n
  {
    if n == 0 then s == []
    else s != [] && IsLowerHex(s[0]) && MatchHexRun(s[1..], n - 1)
  }

  /** The matcher accepts exactly the strings of length `n` made of lower-case hex
      digits, in both directions. */
  lemma {:induction false} MatchHexRunCorrect(s: string, n: nat)
    ensures MatchHexRun(s, n) <==> (|s| == n && forall i :: 0 <= i < |s| ==> IsLowerHex(s[i]))
    decreases n
  {
    if n > 0 && s != [] {
      MatchHexRunCorrect(s[1..], n - 1);
      if |s| == n && forall i :: 0 <= i < |s| ==> IsLowerHex(s[i]) {
        assert forall i :: 0 <= i < |s[1..]| ==> s[1..][i] == s[i + 1];
      }
      if MatchHexRun(s, n) {
        forall i | 0 <= i < |s| ensures IsLowerHex(s[i]) {
          if i > 0 { assert s[i] == s[1..][i - 1]; }
        }
      }
    }
  }

  /** `/^[0-9a-f]{32}$/.test(databaseId)`. */
  function MatchesDatabaseIdPattern(s: string): (ok: bool)
    ensures ok <==> IsDatabaseId(s)
  {
    MatchHexRunCorrect(s, 32);
    MatchHexRun(s, 32)
  }

  /** The POST validation, in source order: missing fields first, then the format
      of the database id. `None` means the credentials are accepted. */
  function Validate(request: Credentials): (rejection: Option<Rejection>)
    ensures rejection == Some(Required) <==> !Present(request.apiKey) || !Present(request.databaseId)
    ensures rejection == Some(InvalidFormat) <==>
      Present(request.apiKey) && Present(request.databaseId) && !IsDatabaseId(request.databaseId.value)
    ensures rejection == None <==>
      Present(request.apiKey) && Present(request.databaseId) && IsDatabaseId(request.databaseId.value)
  {
    if !Present(request.apiKey) || !Present(request.databaseId) then Some(Required)
    else if !MatchesDatabaseIdPattern(request.databaseId.value) then Some(InvalidFormat)
    else None
  }

  /** Accepting an id needs both its length and its alphabet: upper-case hex, and any
      length other than 32, are refused as malformed, never as missing. */
  lemma MalformedIds(apiKey: string, id: string)
    requires apiKey != "" && id != ""
    requires |id| != 32 || exists i :: 0 <= i < |id| && 'A' <= id[i] <= 'F'
    ensures Validate(Credentials(Some(apiKey), Some(id))) == Some(InvalidFormat)
  {
  }

  /** A reply under construction: `NextResponse.json(body, {status})` and the cookie
      updates made on it through `response.cookies`, keyed by cookie name. */
  class Response {
    var status: nat
    var body: Body
    var cookies: map<string, CookieUpdate>

    constructor Json(body: Body, status: nat)
      ensures this.status == status && this.body == body && cookies == map[]
    {
      this.status := status;
      this.body := body;
      cookies := map[];
    }

    /** `response.cookies.set(name, value, options)`. */
    method SetCookie(name: string, value: string, options: CookieOptions)
      modifies this
      ensures cookies == old(cookies)[name := SetTo(value, options)]
      ensures status == old(status) && body == old(body)
    {
      cookies := cookies[name := SetTo(value, options)];
    }

    /** `response.cookies.delete(name)`. */
    method DeleteCookie(name: string)
      modifies this
      ensures cookies == old(cookies)[name := Cleared]
      ensures status == old(status) && body == old(body)
    {
      cookies := cookies[name := Cleared];
    }
  }

  /** The attributes both credential cookies carry. */
  predicate CredentialCookie(update: CookieUpdate, value: string, nodeEnv: string) {
    update == SetTo(value, CookieOptions(true, nodeEnv == Production, Strict, "/", OneYear))
  }

  /** POST. `request` is `None` when the body is not valid JSON, which the handler
      catches; `nodeEnv` is `process.env.NODE_ENV`. */
  method Post(request: Option<Credentials>, nodeEnv: string) returns (response: Response)
    ensures fresh(response)
    ensures request.None? ==>
      response.status == 500 && response.body == Body(false, Some(StoreError), None) && response.cookies == map[]
    ensures request.Some? && Validate(request.value).Some? ==>
      && response.status == 400 && response.cookies == map[]
      && response.body == Body(false, Some(if Validate(request.value) == Some(Required) then RequiredError else FormatError), None)
    ensures request.Some? && Validate(request.value).None? ==>
      && response.status == 200 && response.body == Body(true, None, None)
      && response.cookies.Keys == {ApiKeyCookie, DatabaseIdCookie}
      && CredentialCookie(response.cookies[ApiKeyCookie], request.value.apiKey.value, nodeEnv)
      && CredentialCookie(response.cookies[DatabaseIdCookie], request.value.databaseId.value, nodeEnv)
  {
    if request.None? {
      response := new Response.Json(Body(false, Some(StoreError), None), 500);
      return;
    }
    var credentials := request.value;
    if !Present(credentials.apiKey) || !Present(credentials.databaseId) {
      response := new Response.Json(Body(false, Some(RequiredError), None), 400);
      return;
    }
    var isValidDatabaseId := MatchesDatabaseIdPattern(credentials.databaseId.value);
    if !isValidDatabaseId {
      response := new Response.Json(Body(false, Some(FormatError), None), 400);
      return;
    }
    response := new Response.Json(Body(true, None, None), 200);
    var secure := nodeEnv == Production;
    response.SetCookie(ApiKeyCookie, credentials.apiKey.value,
      CookieOptions(true, secure, Strict, "/", 60 * 60 * 24 * 365));
    response.SetCookie(DatabaseIdCookie, credentials.databaseId.value,
      CookieOptions(true, secure, Strict, "/", 60 * 60 * 24 * 365));
  }

  /** GET's reply. GET builds its reply and returns it without touching its
      cookies, so it is a plain value here; the `Response` class is kept for the
      replies whose cookies POST and DELETE change in place. */
  datatype Reply = Reply(status: nat, body: Body)

  /** GET, given the request's cookies by name. */
  function Get(cookies: map<string, string>): (reply: Reply)
    ensures reply.status == 404 || reply.status == 200
    ensures reply.status == 404 <==> !(ApiKeyCookie in cookies && cookies[ApiKeyCookie] != "")
                                     || !(DatabaseIdCookie in cookies && cookies[DatabaseIdCookie] != "")
    ensures reply.status == 404 ==> reply.body == Body(false, Some(NotFoundError), None)
    ensures reply.status == 200 ==> reply.body == Body(true, None, Some(cookies[DatabaseIdCookie]))
  {
    var apiKey := if ApiKeyCookie in cookies then Some(cookies[ApiKeyCookie]) else None;
    var databaseId := if DatabaseIdCookie in cookies then Some(cookies[DatabaseIdCookie]) else None;
    if !Present(apiKey) || !Present(databaseId) then Reply(404, Body(false, Some(NotFoundError), None))
    else Reply(200, Body(true, None, databaseId))
  }

  /** GET never reveals the API key: two cookie jars that differ only in the (non-empty)
      value of the key cookie get identical replies. */
  lemma GetHidesApiKey(cookies: map<string, string>, otherKey: string)
    requires ApiKeyCookie in cookies && cookies[ApiKeyCookie] != "" && otherKey != ""
    ensures Get(cookies[ApiKeyCookie := otherKey]) == Get(cookies)
  {
  }

  /** DELETE. */
  method Delete() returns (response: Response)
    ensures fresh(response)
    ensures response.status == 200 && response.body == Body(true, None, None)
    ensures response.cookies == map[ApiKeyCookie := Cleared, DatabaseIdCookie := Cleared]
  {
    response := new Response.Json(Body(true, None, None), 200);
    response.DeleteCookie(ApiKeyCookie);
    response.DeleteCookie(DatabaseIdCookie);
  }

  /** The browser's cookie store after it applies a reply's cookie updates
      (name to value; expiry and path are not modelled). */
  function ApplyUpdates(jar: map<string, string>, updates: map<string, CookieUpdate>): (result: map<string, string>)
    ensures forall name :: name in updates && updates[name].SetTo? ==>
      name in result && result[name] == updates[name].value
    ensures forall name :: name in updates && updates[name].Cleared? ==> name !in result
    ensures forall name :: name !in updates ==> (name in result <==> name in jar)
    ensures forall name :: name !in updates && name in jar ==> result[name] == jar[name]
  {
    map name | name in jar.Keys + updates.Keys && !(name in updates && updates[name].Cleared?) ::
      if name in updates then updates[name].value else jar[name]
  }

  /** After a successful POST, a GET with the stored cookies reports the posted
      database id. */
  lemma PostThenGet(jar: map<string, string>, updates: map<string, CookieUpdate>, request: Credentials, nodeEnv: string)
    requires Validate(request) == None
    requires updates.Keys == {ApiKeyCookie, DatabaseIdCookie}
    requires CredentialCookie(updates[ApiKeyCookie], request.apiKey.value, nodeEnv)
    requires CredentialCookie(updates[DatabaseIdCookie], request.databaseId.value, nodeEnv)
    ensures Get(ApplyUpdates(jar, updates)) == Reply(200, Body(true, None, request.databaseId))
  {
  }

  /** After a DELETE, a GET finds no credentials, whatever the jar held before. */
  lemma DeleteThenGet(jar: map<string, string>)
    ensures Get(ApplyUpdates(jar, map[ApiKeyCookie := Cleared, DatabaseIdCookie := Cleared])).status == 404
  {
  }
}
