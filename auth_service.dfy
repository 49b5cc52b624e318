/**
 * The session service: the js-cookie jar holding `b2b_token` and `b2b_user`,
 * the two `authApi` interceptors, and the service calls that read and write
 * the jar. Network calls are given as their outcome; the cookie jar is a
 * map from cookie name to its (already decoded) value.
 */
module AuthService {
  import opened Wrappers
  import opened JsRecord
  import JsText
  import opened Http

  const TokenKey := "b2b_token"
  const UserKey := "b2b_user"

  /**
   * A cookie value as js-cookie returns it, classified by what `JSON.parse`
   * makes of it:
   * - `Text`: text that does not parse, or parses to `null` (the empty text included);
   * - `NonObject`: text that parses to a number, string, boolean or array;
   * - `Json`: the text of an object, held here already decoded.
   * The classification matters only where the cookie goes through
   * `JSON.parse` (the user cookie). The token cookie is read as raw text, and
   * `GetCurrentToken` treats `Text` and `NonObject` alike, so `Login` stores
   * the token as `Text` whatever it looks like.
   */
  datatype Cookie = Text(text: string) | NonObject(text: string) | Json(record: Record)

  type Jar = map<string, Cookie>

  /** The legacy user object of a login response; `id` doubles as the session token. */
  datatype LoginUser = LoginUser(id: string, fields: Record)

  datatype LoginData = LoginData(user: LoginUser, token: Option<string>)

  datatype LoginResponse = LoginResponse(status: bool, message: string, data: Option<LoginData>)

  /** The body of `b2b/get-current-token`. */
  datatype CurrentUserResponse = CurrentUserResponse(status: bool, message: string, data: Option<Record>)

  /** The object `JSON.stringify` is given for a login user. */
  function UserObject(u: LoginUser): (r: Record)
    ensures "id" in r && r["id"] == Str(u.id)
    ensures forall k :: k in u.fields && k != "id" ==> k in r && r[k] == u.fields[k]
  {
    u.fields["id" := Str(u.id)]
  }

  /** Cookie names the session lives under: every other cookie is left alone by the service. */
  ghost predicate SameOutsideSession(a: Jar, b: Jar) {
    forall k :: k != TokenKey && k != UserKey ==> (k in a <==> k in b) && (k in a ==> a[k] == b[k])
  }

  /** The jar without both session cookies. */
  function WithoutSession(jar: Jar): (j: Jar)
    ensures TokenKey !in j && UserKey !in j
    ensures SameOutsideSession(jar, j)
  {
    jar - {TokenKey, UserKey}
  }

  // ---------------------------------------------------------------------
  // Pure reads

  /** `convertCurrentUserToB2BUser`: every field kept, plus `name` and `mobile` copied from `contact_person` and `phone`. */
  function ConvertCurrentUserToB2BUser(cu: Record): (u: Record)
    ensures u.Keys == cu.Keys + {"name", "mobile"}
    ensures forall k :: k in cu && k != "name" && k != "mobile" ==> u[k] == cu[k]
    ensures u["name"] == Get(cu, "contact_person") && u["mobile"] == Get(cu, "phone")
  {
    cu["name" := Get(cu, "contact_person")]["mobile" := Get(cu, "phone")]
  }

  /** The fixed fields of a converted legacy user. */
  const LegacyDefaults: Record := map[
    "locationId" := Str("1"),
    "manager_user_id" := Str(""),
    "address" := Str(""),
    "city" := Str(""),
    "state" := Str(""),
    "pincode" := Str(""),
    "gst_number" := Str(""),
    "pan_number" := Null,
    "credit_days" := Num(30),
    "payment_terms" := Str("Net 30"),
    "payment_method_preference" := Str("any"),
    "late_payment_fee_percentage" := Str("0.00"),
    "credit_limit" := Str("0.00"),
    "status" := Str("active")
  ]

  /** The four timestamps of a converted legacy user, all `now`. */
  function Stamps(now: string): Record {
    map["created_at" := Str(now), "updated_at" := Str(now), "createdAt" := Str(now), "updatedAt" := Str(now)]
  }

  /** The fields of a converted legacy user taken from the stored record. */
  function LegacyCopied(d: Record): Record {
    map[
      "id" := Get(d, "id"),
      "roleId" := Get(d, "id"),
      "company_name" := Or(Get(d, "company_name"), Str("")),
      "contact_person" := Or(Get(d, "name"), Or(Get(d, "contact_person"), Str(""))),
      "email" := Get(d, "email"),
      "phone" := Or(Get(d, "phone"), Or(Get(d, "mobile"), Str(""))),
      "name" := Get(d, "name"),
      "mobile" := Get(d, "mobile")
    ]
  }

  /** The record `getCurrentUserFromCookie` builds from a stored user without a truthy `roleId`. */
  function LegacyUser(d: Record, now: string): Record {
    LegacyDefaults + LegacyCopied(d) + Stamps(now)
  }

  /**
   * The legacy conversion takes `roleId` from `id`, fixes `locationId`,
   * `credit_days` and `status`, falls back through `name`/`contact_person`
   * and `phone`/`mobile`, and stamps the times with `now`.
   */
  lemma LegacyUserFields(d: Record, now: string)
    ensures var u := LegacyUser(d, now);
      "id" in u && "roleId" in u && u["roleId"] == Get(d, "id") && u["id"] == Get(d, "id")
    ensures var u := LegacyUser(d, now);
      "locationId" in u && "credit_days" in u && "status" in u &&
      u["locationId"] == Str("1") && u["credit_days"] == Num(30) && u["status"] == Str("active")
    ensures var u := LegacyUser(d, now);
      "contact_person" in u && "phone" in u &&
      u["contact_person"] == Or(Get(d, "name"), Or(Get(d, "contact_person"), Str(""))) &&
      u["phone"] == Or(Get(d, "phone"), Or(Get(d, "mobile"), Str("")))
    ensures var u := LegacyUser(d, now);
      "created_at" in u && "updatedAt" in u && u["created_at"] == Str(now) && u["updatedAt"] == Str(now)
  {
    LegacyDefaultsSurvive(d, now);
    LegacyCopiesSurvive(d, now);
  }

  /** The three fixed fields the conversion promises. */
  lemma DefaultsFacts()
    ensures "locationId" in LegacyDefaults && "credit_days" in LegacyDefaults && "status" in LegacyDefaults
    ensures LegacyDefaults["locationId"] == Str("1") && LegacyDefaults["credit_days"] == Num(30) && LegacyDefaults["status"] == Str("active")
  {
  }

  /** Neither the copied fields nor the stamps touch the three fixed fields. */
  lemma NotCopied(d: Record, now: string)
    ensures "status" !in LegacyCopied(d) && "locationId" !in LegacyCopied(d) && "credit_days" !in LegacyCopied(d)
    ensures "status" !in Stamps(now) && "locationId" !in Stamps(now) && "credit_days" !in Stamps(now)
  {
  }

  /** The fixed fields no copied field or stamp overrides. */
  lemma LegacyDefaultsSurvive(d: Record, now: string)
    ensures var u := LegacyUser(d, now);
      "locationId" in u && "credit_days" in u && "status" in u &&
      u["locationId"] == Str("1") && u["credit_days"] == Num(30) && u["status"] == Str("active")
  {
    DefaultsFacts();
    NotCopied(d, now);
  }

  /** The stamps do not touch the copied identity and contact fields. */
  lemma NotStamped(now: string)
    ensures "roleId" !in Stamps(now) && "id" !in Stamps(now) && "contact_person" !in Stamps(now) && "phone" !in Stamps(now)
  {
  }

  /** The copied fields, which no stamp overrides. */
  lemma LegacyCopiesSurvive(d: Record, now: string)
    ensures var u := LegacyUser(d, now);
      "id" in u && "roleId" in u && u["roleId"] == Get(d, "id") && u["id"] == Get(d, "id") &&
      "contact_person" in u && "phone" in u &&
      u["contact_person"] == Or(Get(d, "name"), Or(Get(d, "contact_person"), Str(""))) &&
      u["phone"] == Or(Get(d, "phone"), Or(Get(d, "mobile"), Str("")))
  {
    NotStamped(now);
    var c := LegacyCopied(d);
    assert "id" in c && "roleId" in c && "contact_person" in c && "phone" in c;
    assert c["roleId"] == Get(d, "id") && c["id"] == Get(d, "id");
  }

  /**
   * `getCurrentUserFromCookie`, with `now` the ISO time the legacy
   * conversion stamps. Text that does not parse, or parses to `null`, reads
   * as no user (the `catch`); any other JSON value without a truthy
   * `roleId` is converted as a legacy user, and a non-object has no fields
   * to copy.
   */
  function GetCurrentUserFromCookie(jar: Jar, now: string): (u: Option<Record>)
    ensures u.None? <==> UserKey !in jar || jar[UserKey].Text?
    ensures UserKey in jar && jar[UserKey].NonObject? ==> u == Some(LegacyUser(map[], now))
    ensures UserKey in jar && jar[UserKey].Json? ==>
      u == Some(if Truthy(Get(jar[UserKey].record, "roleId")) then jar[UserKey].record else LegacyUser(jar[UserKey].record, now))
  {
    if UserKey !in jar then None
    else match jar[UserKey]
      case Text(_) => None
      case NonObject(_) => Some(LegacyUser(map[], now))
      case Json(d) => if Truthy(Get(d, "roleId")) then Some(d) else Some(LegacyUser(d, now))
  }

  /** `getCurrentToken`: the raw `b2b_token` text, with `|| null` turning an empty one into none. */
  function GetCurrentToken(jar: Jar): (t: Option<string>)
    ensures t.Some? ==> t.value != "" && TokenKey in jar && (jar[TokenKey] == Text(t.value) || jar[TokenKey] == NonObject(t.value))
    ensures t.None? ==> TokenKey !in jar || jar[TokenKey].Json? || jar[TokenKey].text == ""
  {
    if TokenKey in jar && !jar[TokenKey].Json? && jar[TokenKey].text != "" then Some(jar[TokenKey].text) else None
  }

  /**
   * `isAuthenticated`: a token and a user can both be read from the jar,
   * that is, a non-empty token text that is not an object's JSON and a
   * stored user that parses to a JSON value other than `null`.
   */
  function IsAuthenticated(jar: Jar, now: string): (b: bool)
    ensures b <==>
      TokenKey in jar && !jar[TokenKey].Json? && jar[TokenKey].text != "" &&
      UserKey in jar && !jar[UserKey].Text?
  {
    GetCurrentToken(jar).Some? && GetCurrentUserFromCookie(jar, now).Some?
  }

  /** The request interceptor: the `Authorization` header an `authApi` request carries. */
  function AuthorizationHeader(jar: Jar): (h: Option<string>)
    ensures h.Some? <==> TokenKey in jar && !jar[TokenKey].Json? && jar[TokenKey].text != ""
    ensures h.Some? ==> h.value == "Bearer " + jar[TokenKey].text
  {
    match GetCurrentToken(jar)
    case Some(t) => Some("Bearer " + t)
    case None => None
  }

  /** `getCurrentUser`: the converted profile, or none on a failed or refused fetch. */
  function GetCurrentUser(o: Outcome<CurrentUserResponse>): (u: Option<Record>)
    ensures u.Some? <==> o.Response? && o.body.status && o.body.data.Some?
    ensures u.Some? ==> u.value == ConvertCurrentUserToB2BUser(o.body.data.value)
  {
    match o
    case Response(b) => if b.status && b.data.Some? then Some(ConvertCurrentUserToB2BUser(b.data.value)) else None
    case Thrown(_) => None
  }

  // ---------------------------------------------------------------------
  // What each call does to the jar and what it returns

  /** The response interceptor's effect: a 401 removes both session cookies; anything else leaves the jar. */
  function AfterResponseError(jar: Jar, e: HttpError): (j: Jar)
    ensures e.status == Some(401) ==> j == WithoutSession(jar)
    ensures e.status != Some(401) ==> j == jar
  {
    if e.status == Some(401) then WithoutSession(jar) else jar
  }

  /** A login response that stores a session: `status` true and `data` present. */
  predicate Accepted(b: LoginResponse) {
    b.status && b.data.Some?
  }

  /** The jar after `authService.login`. */
  function AfterLogin(jar: Jar, o: Outcome<LoginResponse>): (j: Jar)
    ensures SameOutsideSession(jar, j)
    ensures o.Response? && Accepted(o.body) ==>
      TokenKey in j && UserKey in j &&
      j[TokenKey] == Text(o.body.data.value.user.id) &&
      j[UserKey] == Json(Stringified(UserObject(o.body.data.value.user)))
    ensures o.Response? && !Accepted(o.body) ==> j == jar
    ensures o.Thrown? ==> j == AfterResponseError(jar, o.error)
  {
    match o
    case Response(b) =>
      if Accepted(b) then
        jar[TokenKey := Text(b.data.value.user.id)][UserKey := Json(Stringified(UserObject(b.data.value.user)))]
      else jar
    case Thrown(e) => AfterResponseError(jar, e)
  }

  /** What `authService.login` resolves with, or the message of the `Error` it throws. */
  function LoginResult(o: Outcome<LoginResponse>): (r: Result<LoginResponse>)
    ensures o.Response? ==> r == Success(o.body)
    ensures o.Thrown? ==> r == Failure(JsText.OrOpt(o.error.serverMessage, "Login failed"))
  {
    match o
    case Response(b) => Success(b)
    case Thrown(e) => Failure(JsText.OrOpt(e.serverMessage, "Login failed"))
  }

  /** The jar after `authService.refreshProfile`. */
  function AfterRefreshProfile(jar: Jar, o: Outcome<CurrentUserResponse>): (j: Jar)
    ensures GetCurrentUser(o).Some? ==> j == jar[UserKey := Json(Stringified(GetCurrentUser(o).value))]
    ensures GetCurrentUser(o).None? ==> j == jar
  {
    match GetCurrentUser(o)
    case Some(u) => jar[UserKey := Json(Stringified(u))]
    case None => jar
  }

  /** What `authService.refreshProfile` resolves with, or the message of the `Error` it throws. */
  function RefreshProfileResult(o: Outcome<CurrentUserResponse>): (r: Result<Record>)
    ensures r.Success? <==> GetCurrentUser(o).Some?
    ensures r.Success? ==> r.value == GetCurrentUser(o).value
    ensures o.Response? && r.Failure? ==> r.message == "Failed to refresh profile"
    ensures o.Thrown? ==> r.message == JsText.OrOpt(o.error.serverMessage, "Failed to refresh profile")
  {
    match o
    case Response(b) =>
      if b.status && b.data.Some? then Success(ConvertCurrentUserToB2BUser(b.data.value))
      else Failure("Failed to refresh profile")
    case Thrown(e) => Failure(JsText.OrOpt(e.serverMessage, "Failed to refresh profile"))
  }

  // ---------------------------------------------------------------------
  // The jar and the calls that change it

  /** The browser's cookie store as js-cookie sees it. */
  class CookieJar {
    var cookies: Jar

    constructor(initial: Jar)
      ensures cookies == initial
    {
      cookies := initial;
    }

    /** `Cookies.set(key, value)`. */
    method Set(key: string, value: Cookie)
      modifies this
      ensures cookies == old(cookies)[key := value]
    {
      cookies := cookies[key := value];
    }

    /** `Cookies.remove(key)`. */
    method Remove(key: string)
      modifies this
      ensures cookies == old(cookies) - {key}
    {
      cookies := cookies - {key};
    }
  }

  /** The `authApi` response interceptor on a failed call; `redirect` is the `window.location` change to `/login`. */
  method OnResponseError(jar: CookieJar, e: HttpError) returns (redirect: bool)
    modifies jar
    ensures jar.cookies == AfterResponseError(old(jar.cookies), e)
    ensures redirect <==> e.status == Some(401)
  {
    redirect := false;
    if e.status == Some(401) {
      jar.Remove(TokenKey);
      jar.Remove(UserKey);
      redirect := true;
    }
  }

  /**
   * `authService.login` given the outcome of `POST b2b/login`. `header` is
   * the `Authorization` header the request interceptor attached.
   */
  method Login(jar: CookieJar, o: Outcome<LoginResponse>) returns (r: Result<LoginResponse>, header: Option<string>, redirect: bool)
    modifies jar
    ensures jar.cookies == AfterLogin(old(jar.cookies), o)
    ensures r == LoginResult(o)
    ensures header == AuthorizationHeader(old(jar.cookies))
    ensures redirect <==> o.Thrown? && o.error.status == Some(401)
  {
    header := AuthorizationHeader(jar.cookies);
    redirect := false;
    match o
    case Response(b) =>
      if b.status && b.data.Some? {
        var token := b.data.value.user.id;
        jar.Set(TokenKey, Text(token));
        jar.Set(UserKey, Json(Stringified(UserObject(b.data.value.user))));
      }
      r := Success(b);
    case Thrown(e) =>
      redirect := OnResponseError(jar, e);
      r := Failure(JsText.OrOpt(e.serverMessage, "Login failed"));
  }

  /**
   * `authService.logout` given the outcome of `POST b2b/logout`: the cookies
   * go first, so the request never carries a bearer token, and a failure is
   * swallowed.
   */
  method Logout(jar: CookieJar, o: Outcome<()>) returns (header: Option<string>, redirect: bool)
    modifies jar
    ensures jar.cookies == WithoutSession(old(jar.cookies))
    ensures header == None
    ensures redirect <==> o.Thrown? && o.error.status == Some(401)
  {
    ghost var cleared := WithoutSession(old(jar.cookies));
    jar.Remove(TokenKey);
    jar.Remove(UserKey);
    assert jar.cookies == cleared;
    header := AuthorizationHeader(jar.cookies);
    redirect := false;
    if o.Thrown? {
      redirect := OnResponseError(jar, o.error);
      jar.Remove(TokenKey);
      jar.Remove(UserKey);
      assert jar.cookies == cleared;
    }
  }

  /** `authService.refreshProfile` given the outcome of `GET b2b/get-current-token` (a call that does not go through `authApi`). */
  method RefreshProfile(jar: CookieJar, o: Outcome<CurrentUserResponse>) returns (r: Result<Record>)
    modifies jar
    ensures jar.cookies == AfterRefreshProfile(old(jar.cookies), o)
    ensures r == RefreshProfileResult(o)
  {
    match o
    case Response(b) =>
      if b.status && b.data.Some? {
        var user := ConvertCurrentUserToB2BUser(b.data.value);
        jar.Set(UserKey, Json(Stringified(user)));
        r := Success(user);
      } else {
        r := Failure("Failed to refresh profile");
      }
    case Thrown(e) =>
      r := Failure(JsText.OrOpt(e.serverMessage, "Failed to refresh profile"));
  }

  // ---------------------------------------------------------------------
  // Properties

  /** A request carries `Authorization: Bearer <token>` exactly when the service considers a token present. */
  lemma HeaderIffToken(jar: Jar)
    ensures AuthorizationHeader(jar).Some? <==> GetCurrentToken(jar).Some?
    ensures GetCurrentToken(jar).Some? ==> AuthorizationHeader(jar) == Some("Bearer " + GetCurrentToken(jar).value)
  {
  }

  /** An accepted login stores its user id as the token and a readable user; with a non-empty id the jar is then authenticated. */
  lemma LoginStoresSession(jar: Jar, b: LoginResponse, now: string)
    requires Accepted(b)
    ensures var j := AfterLogin(jar, Response(b));
      var id := b.data.value.user.id;
      GetCurrentToken(j) == (if id == "" then None else Some(id)) &&
      GetCurrentUserFromCookie(j, now).Some? &&
      (id != "" ==> IsAuthenticated(j, now) && AuthorizationHeader(j) == Some("Bearer " + id))
  {
    var j := AfterLogin(jar, Response(b));
    assert j[UserKey].Json?;
  }

  /** After `logout`, whatever the network did, no token, user or header can be read. */
  lemma LogoutEndsSession(jar: Jar, now: string)
    ensures var j := WithoutSession(jar);
      GetCurrentToken(j).None? && GetCurrentUserFromCookie(j, now).None? &&
      !IsAuthenticated(j, now) && AuthorizationHeader(j).None?
  {
  }

  /** A 401 on `authApi` ends the session exactly as `logout` does; other failures leave the jar. */
  lemma UnauthorizedEndsSession(jar: Jar, e: HttpError, now: string)
    requires e.status == Some(401)
    ensures !IsAuthenticated(AfterResponseError(jar, e), now)
    ensures AfterResponseError(jar, e) == WithoutSession(jar)
  {
  }

  /** Refreshing the profile never changes the token, and an accepted profile is what the next read returns once its `roleId` is set. */
  lemma RefreshStoresProfile(jar: Jar, o: Outcome<CurrentUserResponse>, now: string)
    ensures GetCurrentToken(AfterRefreshProfile(jar, o)) == GetCurrentToken(jar)
    ensures RefreshProfileResult(o).Failure? ==> AfterRefreshProfile(jar, o) == jar
    ensures RefreshProfileResult(o).Success? && Truthy(Get(RefreshProfileResult(o).value, "roleId")) ==>
      GetCurrentUserFromCookie(AfterRefreshProfile(jar, o), now) == Some(Stringified(RefreshProfileResult(o).value))
  {
    if RefreshProfileResult(o).Success? {
      var u := RefreshProfileResult(o).value;
      if Truthy(Get(u, "roleId")) {
        assert Get(Stringified(u), "roleId") == Get(u, "roleId");
      }
    }
  }

  /**
   * A legacy record with a truthy `id`, once written back to `b2b_user`
   * (as `updateUser` does), is read back unchanged: its `roleId` is its `id`.
   */
  lemma LegacyUserIsStable(jar: Jar, d: Record, now: string, later: string)
    requires Truthy(Get(d, "id"))
    ensures var stored := Stringified(LegacyUser(d, now));
      GetCurrentUserFromCookie(jar[UserKey := Json(stored)], later) == Some(stored)
  {
    var stored := Stringified(LegacyUser(d, now));
    LegacyUserFields(d, now);
    assert Get(stored, "roleId") == Get(d, "id");
  }

  /** Whether the jar is authenticated does not depend on the clock the legacy conversion reads. */
  lemma IsAuthenticatedIgnoresClock(jar: Jar, now: string, later: string)
    ensures IsAuthenticated(jar, now) == IsAuthenticated(jar, later)
  {
  }
}
