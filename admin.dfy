// The admin worker (smartmail-admin/src/index.ts): session cookies, the
// authentication check, login and logout, query-parameter parsing, HTML
// escaping and the routing in front of the /admin/api/ gate.
//
// URI encoding and decoding are parameters (decodeURIComponent may throw,
// so the decoder is partial). The request body parsers of login and the
// HTML pages are outside the model.

module Admin {
  import opened Common
  import opened Store
  import opened Api

  // ---------------------------------------------------------------------
  // Cookies
  // ---------------------------------------------------------------------

  /** encodeURIComponent and decodeURIComponent. */
  datatype UriCodec = UriCodec(encode: string -> string, decode: string -> Option<string>)

  const SessionCookie := "sm_admin_token"
  const SessionMaxAge: nat := 60 * 60 * 8

  /** buildCookie: `name=enc(value); Path=/; Max-Age=n; HttpOnly; Secure; SameSite=Strict`. */
  function BuildCookie(name: string, value: string, maxAge: nat, codec: UriCodec): (r: string)
    ensures StartsWith(r, name + "=" + codec.encode(value) + ";")
    ensures EndsWith(r, "; HttpOnly; Secure; SameSite=Strict")
  {
    var r := name + "=" + codec.encode(value) + "; Path=/; Max-Age=" + NatToDecimal(maxAge)
             + "; HttpOnly; Secure; SameSite=Strict";
    assert r[..|name + "=" + codec.encode(value) + ";"|] == name + "=" + codec.encode(value) + ";";
    assert r[|r| - |"; HttpOnly; Secure; SameSite=Strict"|..] == "; HttpOnly; Secure; SameSite=Strict";
    r
  }

  /** The first trimmed part that starts with `prefix`, without the prefix. */
  function FirstAfterPrefix(parts: seq<string>, prefix: string): (r: Option<string>)
    ensures r.None? <==> forall i :: 0 <= i < |parts| ==> !StartsWith(Trim(parts[i]), prefix)
    ensures r.Some? ==> exists i :: (0 <= i < |parts| && StartsWith(Trim(parts[i]), prefix)
                                     && r.value == Trim(parts[i])[|prefix|..]
                                     && forall j :: 0 <= j < i ==> !StartsWith(Trim(parts[j]), prefix))
  {
    if |parts| == 0 then None
    else if StartsWith(Trim(parts[0]), prefix) then Some(Trim(parts[0])[|prefix|..])
    else
      var r := FirstAfterPrefix(parts[1..], prefix);
      assert forall i :: 0 < i < |parts| ==> parts[i] == parts[1..][i - 1];
      if r.Some? then
        var k :| 0 <= k < |parts[1..]| && StartsWith(Trim(parts[1..][k]), prefix)
                 && r.value == Trim(parts[1..][k])[|prefix|..]
                 && forall j :: 0 <= j < k ==> !StartsWith(Trim(parts[1..][j]), prefix);
        assert parts[k + 1] == parts[1..][k];
        r
      else r
  }

  /** parseCookie: the decoded value of the first `name=` part, Ok(None)
      for none, Fail when decodeURIComponent throws on it. */
  function ParseCookie(header: string, name: string, codec: UriCodec): (r: Result<Option<string>>)
    ensures FirstAfterPrefix(Split(header, ';'), name + "=").None? ==> r == Ok(None)
    ensures FirstAfterPrefix(Split(header, ';'), name + "=").Some? ==>
      match codec.decode(FirstAfterPrefix(Split(header, ';'), name + "=").value)
      case None => r.Fail?
      case Some(v) => r == Ok(Some(v))
  {
    match FirstAfterPrefix(Split(header, ';'), name + "=")
    case None => Ok(None)
    case Some(raw) =>
      match codec.decode(raw)
      case None => Fail("URIError: malformed URI sequence")
      case Some(v) => Ok(Some(v))
  }

  /** What encodeURIComponent produces: no ';' and no white space. */
  predicate UriSafe(s: string)
  {
    forall i :: 0 <= i < |s| ==> s[i] != ';' && !IsSpace(s[i])
  }

  /** A cookie written by buildCookie reads back as its value, provided the
      name is a plain token and decoding inverts encoding for the value. */
  lemma {:induction false} CookieRoundTrip(name: string, value: string, maxAge: nat, codec: UriCodec)
    requires name != "" && UriSafe(name) && '=' !in name
    requires UriSafe(codec.encode(value)) && codec.decode(codec.encode(value)) == Some(value)
    ensures ParseCookie(BuildCookie(name, value, maxAge, codec), name, codec) == Ok(Some(value))
  {
    var enc := codec.encode(value);
    var pair := name + "=" + enc;
    var tail := " Path=/; Max-Age=" + NatToDecimal(maxAge) + "; HttpOnly; Secure; SameSite=Strict";
    assert BuildCookie(name, value, maxAge, codec) == pair + [';'] + tail;
    assert ';' !in pair by {
      forall i | 0 <= i < |pair|
        ensures pair[i] != ';'
      {
        if i < |name| { assert pair[i] == name[i]; }
        else if i > |name| { assert pair[i] == enc[i - |name| - 1]; }
      }
    }
    SplitAfterPart(pair, tail, ';');
    assert !IsSpace(pair[0]) by { assert pair[0] == name[0]; }
    assert !IsSpace(pair[|pair| - 1]) by {
      if |enc| > 0 { assert pair[|pair| - 1] == enc[|enc| - 1]; }
    }
    TrimUnchanged(pair);
    assert StartsWith(pair, name + "=");
    assert pair[|name + "="|..] == enc;
  }

  // ---------------------------------------------------------------------
  // Authentication
  // ---------------------------------------------------------------------

  datatype AdminEnv = AdminEnv(
    dashboardApiSecret: Option<string>,
    internalApiSecret: Option<string>,
    requireCfAccess: Option<string>)

  datatype Headers = Headers(
    authorization: Option<string>,
    cookie: Option<string>,
    accessUser: Option<string>)

  /** The trimmed dashboard secret, when it is set and not blank. */
  function SecretOf(env: AdminEnv): (r: Option<string>)
    ensures r.Some? <==> env.dashboardApiSecret.Some? && Trim(env.dashboardApiSecret.value) != ""
    ensures r.Some? ==> r.value == Trim(env.dashboardApiSecret.value)
  {
    match env.dashboardApiSecret
    case None => None
    case Some(s) => if Trim(s) == "" then None else Some(Trim(s))
  }

  /** isAuthenticated. Cloudflare Access, when required, needs its user
      header first; then no secret means open; then the bearer token, then
      the session cookie must equal the secret. A cookie that does not
      decode makes the check throw. */
  function IsAuthenticated(env: AdminEnv, h: Headers, codec: UriCodec): (r: Result<bool>)
    ensures env.requireCfAccess == Some("true") && !Truthy(h.accessUser) ==> r == Ok(false)
    ensures !(env.requireCfAccess == Some("true") && !Truthy(h.accessUser)) ==>
      && (SecretOf(env).None? ==> r == Ok(true))
      && (SecretOf(env).Some? && BearerToken(h.authorization) == SecretOf(env).value ==> r == Ok(true))
      && (SecretOf(env).Some? && BearerToken(h.authorization) != SecretOf(env).value ==>
            match ParseCookie(h.cookie.GetOr(""), SessionCookie, codec)
            case Fail(e) => r.Fail?
            case Ok(v) => r == Ok(v == SecretOf(env)))
  {
    if env.requireCfAccess == Some("true") && !Truthy(h.accessUser) then Ok(false)
    else match SecretOf(env)
      case None => Ok(true)
      case Some(secret) =>
        if BearerToken(h.authorization) == secret then Ok(true)
        else match ParseCookie(h.cookie.GetOr(""), SessionCookie, codec)
          case Fail(e) => Fail(e)
          case Ok(v) => Ok(v == Some(secret))
  }

  /** A browser holding the login cookie is authenticated (given Access,
      when required, let it through). */
  lemma LoginCookieAuthenticates(env: AdminEnv, h: Headers, codec: UriCodec)
    requires SecretOf(env).Some?
    requires UriSafe(codec.encode(SecretOf(env).value))
    requires codec.decode(codec.encode(SecretOf(env).value)) == Some(SecretOf(env).value)
    requires h.cookie == Some(BuildCookie(SessionCookie, SecretOf(env).value, SessionMaxAge, codec))
    requires env.requireCfAccess != Some("true") || Truthy(h.accessUser)
    ensures IsAuthenticated(env, h, codec) == Ok(true)
  {
    CookieRoundTrip(SessionCookie, SecretOf(env).value, SessionMaxAge, codec);
  }

  /** The logout cookie carries the empty value, which never equals a set secret. */
  lemma LogoutCookieDoesNotAuthenticate(env: AdminEnv, h: Headers, codec: UriCodec)
    requires SecretOf(env).Some?
    requires UriSafe(codec.encode("")) && codec.decode(codec.encode("")) == Some("")
    requires h.cookie == Some(BuildCookie(SessionCookie, "", 0, codec))
    requires BearerToken(h.authorization) != SecretOf(env).value
    ensures IsAuthenticated(env, h, codec) == Ok(false)
  {
    CookieRoundTrip(SessionCookie, "", 0, codec);
  }

  /** The answer of login and logout. */
  datatype LoginReply = Redirect(location: string, setCookie: Option<string>) | LoginRejected(status: int)

  /** login, given the token read from the JSON or form body. */
  function Login(env: AdminEnv, token: string, codec: UriCodec): (r: LoginReply)
    ensures SecretOf(env).None? ==> r == Redirect("/", None)
    ensures SecretOf(env).Some? && Trim(token) != SecretOf(env).value ==> r == LoginRejected(401)
    ensures SecretOf(env).Some? && Trim(token) == SecretOf(env).value ==>
      r == Redirect("/", Some(BuildCookie(SessionCookie, SecretOf(env).value, SessionMaxAge, codec)))
  {
    match SecretOf(env)
    case None => Redirect("/", None)
    case Some(secret) =>
      if Trim(token) != secret then LoginRejected(401)
      else Redirect("/", Some(BuildCookie(SessionCookie, secret, SessionMaxAge, codec)))
  }

  function Logout(codec: UriCodec): (r: LoginReply)
    ensures r.Redirect? && r.location == "/" && r.setCookie.Some?
    ensures StartsWith(r.setCookie.value, SessionCookie + "=" + codec.encode("") + ";")
  {
    Redirect("/", Some(BuildCookie(SessionCookie, "", 0, codec)))
  }

  // ---------------------------------------------------------------------
  // Query parameters and HTML
  // ---------------------------------------------------------------------

  /** parseIntOrUndef: absent or empty input is undefined, and so is a
      parseInt result that is not finite (NaN or Infinity). */
  function ParseIntOrUndef(input: Option<string>): (r: Option<int>)
    ensures !Truthy(input) ==> r.None?
    ensures r.Some? <==> Truthy(input) && ParseInt(input.value).Some? && IsFiniteNumber(ParseInt(input.value).value)
    ensures r.Some? ==> r == ParseInt(input.value)
  {
    if !Truthy(input) then None
    else match ParseInt(input.value)
      case Some(n) => if IsFiniteNumber(n) then Some(n) else None
      case None => None
  }

  /** Decimal text reads back as its number while it is finite, and is
      undefined once it reaches Infinity. */
  lemma ParseIntOrUndefDecimal(n: nat)
    ensures n < InfinityThreshold ==> ParseIntOrUndef(Some(NatToDecimal(n))) == Some(n)
    ensures n >= InfinityThreshold ==> ParseIntOrUndef(Some(NatToDecimal(n))) == None
  {
    ParseIntDecimal(n);
    NatToDecimalDigits(n);
  }

  /** parseBooleanOrUndef: only the exact words "true" and "false" parse. */
  function ParseBooleanOrUndef(input: Option<string>): (r: Option<bool>)
    ensures r == Some(true) <==> input == Some("true")
    ensures r == Some(false) <==> input == Some("false")
  {
    if !Truthy(input) then None
    else if input.value == "true" then Some(true)
    else if input.value == "false" then Some(false)
    else None
  }

  /** `s.replace(/c/g, rep)` for a single character. */
  function ReplaceAll(s: string, c: char, rep: string): (r: string)
    ensures forall x :: x in r ==> (x in s && x != c) || x in rep
    ensures c !in s ==> r == s
  {
    if |s| == 0 then ""
    else (if s[0] == c then rep else [s[0]]) + ReplaceAll(s[1..], c, rep)
  }

  lemma {:induction false} ReplaceAllConcat(a: string, b: string, c: char, rep: string)
    ensures ReplaceAll(a + b, c, rep) == ReplaceAll(a, c, rep) + ReplaceAll(b, c, rep)
    decreases |a|
  {
    if |a| > 0 {
      assert (a + b)[1..] == a[1..] + b;
      ReplaceAllConcat(a[1..], b, c, rep);
    } else {
      assert a + b == b;
    }
  }

  /** escapeHtml: `&` first, so the entities written afterwards are not escaped again. */
  function EscapeHtml(s: string): (r: string)
    ensures '<' !in r && '>' !in r && '"' !in r
  {
    ReplaceAll(ReplaceAll(ReplaceAll(ReplaceAll(s, '&', "&amp;"), '<', "&lt;"), '>', "&gt;"), '"', "&quot;")
  }

  lemma ReplaceAllOne(c: char, d: char, rep: string)
    ensures ReplaceAll([c], d, rep) == if c == d then rep else [c]
  {
    assert [c][1..] == [];
  }

  /** The escape of one character. */
  function EscapeChar(c: char): string
  {
    if c == '&' then "&amp;"
    else if c == '<' then "&lt;"
    else if c == '>' then "&gt;"
    else if c == '"' then "&quot;"
    else [c]
  }

  /** A single pass that escapes each character on its own. */
  function EscapeEach(s: string): string
  {
    if |s| == 0 then "" else EscapeChar(s[0]) + EscapeEach(s[1..])
  }

  lemma EscapeHtmlConcat(a: string, b: string)
    ensures EscapeHtml(a + b) == EscapeHtml(a) + EscapeHtml(b)
  {
    var s1a, s1b := ReplaceAll(a, '&', "&amp;"), ReplaceAll(b, '&', "&amp;");
    ReplaceAllConcat(a, b, '&', "&amp;");
    var s2a, s2b := ReplaceAll(s1a, '<', "&lt;"), ReplaceAll(s1b, '<', "&lt;");
    ReplaceAllConcat(s1a, s1b, '<', "&lt;");
    var s3a, s3b := ReplaceAll(s2a, '>', "&gt;"), ReplaceAll(s2b, '>', "&gt;");
    ReplaceAllConcat(s2a, s2b, '>', "&gt;");
    ReplaceAllConcat(s3a, s3b, '"', "&quot;");
  }

  lemma EscapeAmp()
    ensures EscapeHtml("&") == "&amp;"
  {
    ReplaceAllOne('&', '&', "&amp;");
    assert '<' !in "&amp;" && '>' !in "&amp;" && '"' !in "&amp;";
  }

  lemma EscapeLt()
    ensures EscapeHtml("<") == "&lt;"
  {
    ReplaceAllOne('<', '&', "&amp;");
    ReplaceAllOne('<', '<', "&lt;");
    assert '>' !in "&lt;" && '"' !in "&lt;";
  }

  lemma EscapeGt()
    ensures EscapeHtml(">") == "&gt;"
  {
    ReplaceAllOne('>', '&', "&amp;");
    ReplaceAllOne('>', '<', "&lt;");
    ReplaceAllOne('>', '>', "&gt;");
    assert '"' !in "&gt;";
  }

  lemma EscapeQuot()
    ensures EscapeHtml("\"") == "&quot;"
  {
    ReplaceAllOne('"', '&', "&amp;");
    ReplaceAllOne('"', '<', "&lt;");
    ReplaceAllOne('"', '>', "&gt;");
    ReplaceAllOne('"', '"', "&quot;");
  }

  lemma EscapePlain(c: char)
    requires c != '&' && c != '<' && c != '>' && c != '"'
    ensures EscapeHtml([c]) == [c]
  {
    ReplaceAllOne(c, '&', "&amp;");
    ReplaceAllOne(c, '<', "&lt;");
    ReplaceAllOne(c, '>', "&gt;");
    ReplaceAllOne(c, '"', "&quot;");
  }

  /** Each character escapes to its own entity, or to itself. */
  lemma EscapeHtmlChar(c: char)
    ensures EscapeHtml([c]) == EscapeChar(c)
  {
    if c == '&' {
      EscapeAmp();
    } else if c == '<' {
      EscapeLt();
    } else if c == '>' {
      EscapeGt();
    } else if c == '"' {
      EscapeQuot();
    } else {
      EscapePlain(c);
    }
  }

  /** The chained replacements escape every character exactly once: no
      entity is escaped twice. */
  lemma {:induction false} EscapeHtmlIsPerCharacter(s: string)
    ensures EscapeHtml(s) == EscapeEach(s)
    decreases |s|
  {
    if |s| == 0 {
    } else {
      assert s == [s[0]] + s[1..];
      EscapeHtmlConcat([s[0]], s[1..]);
      EscapeHtmlChar(s[0]);
      EscapeHtmlIsPerCharacter(s[1..]);
    }
  }

  // ---------------------------------------------------------------------
  // listEmails filters
  // ---------------------------------------------------------------------

  datatype EmailFilters = EmailFilters(
    status: Option<string>,
    category: Option<string>,
    priority: Option<int>,
    fromDate: Option<string>,
    toDate: Option<string>,
    requiresManualReview: Option<bool>,
    limit: int,
    offset: int)

  /** One WHERE condition of the email list query. */
  datatype Condition =
    | StatusIs(status: string)
    | CategoryIs(category: string)
    | PriorityIs(priority: int)
    | ReceivedFrom(date: string)
    | ReceivedTo(date: string)
    | HasOpenReview

  function QueryValue(query: map<string, string>, key: string): Option<string>
  {
    if key in query then Some(query[key]) else None
  }

  /** The filters the /admin/api/emails route reads from the query string. */
  function FiltersOf(query: map<string, string>): (f: EmailFilters)
    ensures f.limit == ParseIntOrUndef(QueryValue(query, "limit")).GetOr(50)
    ensures f.offset == ParseIntOrUndef(QueryValue(query, "offset")).GetOr(0)
    ensures f.requiresManualReview == ParseBooleanOrUndef(QueryValue(query, "requiresManualReview"))
  {
    EmailFilters(
      QueryValue(query, "status"),
      QueryValue(query, "category"),
      ParseIntOrUndef(QueryValue(query, "priority")),
      QueryValue(query, "fromDate"),
      QueryValue(query, "toDate"),
      ParseBooleanOrUndef(QueryValue(query, "requiresManualReview")),
      ParseIntOrUndef(QueryValue(query, "limit")).GetOr(50),
      ParseIntOrUndef(QueryValue(query, "offset")).GetOr(0))
  }

  /** Whether listEmails adds this condition for these filters. */
  predicate Wanted(f: EmailFilters, c: Condition)
  {
    match c
    case StatusIs(s) => Truthy(f.status) && s == f.status.value
    case CategoryIs(s) => Truthy(f.category) && s == f.category.value
    case PriorityIs(p) => f.priority == Some(p)
    case ReceivedFrom(d) => Truthy(f.fromDate) && d == f.fromDate.value
    case ReceivedTo(d) => Truthy(f.toDate) && d == f.toDate.value
    case HasOpenReview => f.requiresManualReview == Some(true)
  }

  /** The position of each kind of condition in the WHERE clause. */
  function Rank(c: Condition): nat
  {
    match c
    case StatusIs(_) => 0
    case CategoryIs(_) => 1
    case PriorityIs(_) => 2
    case ReceivedFrom(_) => 3
    case ReceivedTo(_) => 4
    case HasOpenReview => 5
  }

  /** The condition of rank `k`, when the filters ask for it. */
  function Candidate(f: EmailFilters, k: nat): Option<Condition>
  {
    if k == 0 then (if Truthy(f.status) then Some(StatusIs(f.status.value)) else None)
    else if k == 1 then (if Truthy(f.category) then Some(CategoryIs(f.category.value)) else None)
    else if k == 2 then (if f.priority.Some? then Some(PriorityIs(f.priority.value)) else None)
    else if k == 3 then (if Truthy(f.fromDate) then Some(ReceivedFrom(f.fromDate.value)) else None)
    else if k == 4 then (if Truthy(f.toDate) then Some(ReceivedTo(f.toDate.value)) else None)
    else if k == 5 then (if f.requiresManualReview == Some(true) then Some(HasOpenReview) else None)
    else None
  }

  /** The candidate of rank `k` is the one wanted condition of that rank. */
  lemma CandidateSpec(f: EmailFilters, k: nat)
    ensures Candidate(f, k).Some? ==> Rank(Candidate(f, k).value) == k && Wanted(f, Candidate(f, k).value)
    ensures forall c :: Wanted(f, c) && Rank(c) == k ==> Candidate(f, k) == Some(c)
  {
  }

  function OneOf(o: Option<Condition>): seq<Condition>
  {
    if o.Some? then [o.value] else []
  }

  /** The conditions of rank `k` and above that the filters ask for, in rank order. */
  function ConditionsFrom(f: EmailFilters, k: nat): seq<Condition>
    decreases 6 - k
  {
    if k >= 6 then [] else OneOf(Candidate(f, k)) + ConditionsFrom(f, k + 1)
  }

  /** The conditions of rank `k` and above are exactly the wanted ones of those ranks. */
  lemma {:induction false} ConditionsFromWanted(f: EmailFilters, k: nat)
    ensures forall c :: c in ConditionsFrom(f, k) <==> Wanted(f, c) && Rank(c) >= k
    decreases 6 - k
  {
    if k < 6 {
      ConditionsFromWanted(f, k + 1);
      CandidateSpec(f, k);
      var head := OneOf(Candidate(f, k));
      var rest := ConditionsFrom(f, k + 1);
      assert head + rest == ConditionsFrom(f, k);
      forall c | Wanted(f, c) && Rank(c) >= k
        ensures c in head + rest
      {
        if Rank(c) == k {
          assert c in head;
        } else {
          assert c in rest;
        }
      }
    }
  }

  /** Every condition of rank `k` and above has rank at least `k`. */
  lemma {:induction false} ConditionsFromRanked(f: EmailFilters, k: nat)
    ensures forall i :: 0 <= i < |ConditionsFrom(f, k)| ==> Rank(ConditionsFrom(f, k)[i]) >= k
    decreases 6 - k
  {
    if k < 6 {
      ConditionsFromRanked(f, k + 1);
      CandidateSpec(f, k);
      var head := OneOf(Candidate(f, k));
      var rest := ConditionsFrom(f, k + 1);
      var r := head + rest;
      assert r == ConditionsFrom(f, k);
      forall i | 0 <= i < |r|
        ensures Rank(r[i]) >= k
      {
        if i >= |head| {
          assert r[i] == rest[i - |head|];
        }
      }
    }
  }

  /** A condition ranked below every condition of an ordered list keeps it ordered in front. */
  lemma OrderedCons(x: Condition, rest: seq<Condition>)
    requires forall i :: 0 <= i < |rest| ==> Rank(rest[i]) > Rank(x)
    requires forall i, j :: 0 <= i < j < |rest| ==> Rank(rest[i]) < Rank(rest[j])
    ensures forall i, j :: 0 <= i < j < |[x] + rest| ==> Rank(([x] + rest)[i]) < Rank(([x] + rest)[j])
  {
    var r := [x] + rest;
    forall i, j | 0 <= i < j < |r|
      ensures Rank(r[i]) < Rank(r[j])
    {
      assert r[j] == rest[j - 1];
      if i > 0 {
        assert r[i] == rest[i - 1];
      }
    }
  }

  /** The conditions of rank `k` and above come in strictly increasing rank. */
  lemma {:induction false} ConditionsFromOrdered(f: EmailFilters, k: nat)
    ensures forall i, j :: 0 <= i < j < |ConditionsFrom(f, k)| ==> Rank(ConditionsFrom(f, k)[i]) < Rank(ConditionsFrom(f, k)[j])
    decreases 6 - k
  {
    if k < 6 {
      ConditionsFromOrdered(f, k + 1);
      var rest := ConditionsFrom(f, k + 1);
      if Candidate(f, k).Some? {
        ConditionsFromRanked(f, k + 1);
        CandidateSpec(f, k);
        OrderedCons(Candidate(f, k).value, rest);
        assert [Candidate(f, k).value] + rest == ConditionsFrom(f, k);
      } else {
        assert rest == ConditionsFrom(f, k);
      }
    }
  }

  /** The conditions below rank `k`, in the order they are pushed. */
  function ConditionsBelow(f: EmailFilters, k: nat): seq<Condition>
  {
    if k == 0 then [] else ConditionsBelow(f, k - 1) + OneOf(Candidate(f, k - 1))
  }

  lemma FromUnfold(f: EmailFilters, k: nat)
    requires k < 6
    ensures ConditionsFrom(f, k) == OneOf(Candidate(f, k)) + ConditionsFrom(f, k + 1)
  {
  }

  lemma BelowUnfold(f: EmailFilters, k: nat)
    requires k > 0
    ensures ConditionsBelow(f, k) == ConditionsBelow(f, k - 1) + OneOf(Candidate(f, k - 1))
  {
  }

  lemma Regroup(a: seq<Condition>, b: seq<Condition>, c: seq<Condition>)
    ensures (a + b) + c == a + (b + c)
  {
  }

  lemma {:induction false} BelowThenFrom(f: EmailFilters, k: nat)
    requires k <= 6
    ensures ConditionsBelow(f, k) + ConditionsFrom(f, k) == ConditionsFrom(f, 0)
  {
    if k > 0 {
      BelowThenFrom(f, k - 1);
      FromUnfold(f, k - 1);
      BelowUnfold(f, k);
      Regroup(ConditionsBelow(f, k - 1), OneOf(Candidate(f, k - 1)), ConditionsFrom(f, k));
    }
  }

  /** The conditions listEmails pushes: exactly the wanted ones (a
      non-empty text filter, a numeric priority, the open-review test only
      for `true`), each once, in the order the code tests them. */
  function Conditions(f: EmailFilters): (r: seq<Condition>)
    ensures forall c :: c in r <==> Wanted(f, c)
    ensures forall i, j :: 0 <= i < j < |r| ==> Rank(r[i]) < Rank(r[j])
  {
    ConditionsFromWanted(f, 0);
    ConditionsFromOrdered(f, 0);
    ConditionsFrom(f, 0)
  }

  /** listEmails before the query runs: the conditions, pushed one by one,
      and the page clamped to limit 1..100 and offset at least 0. */
  method ListEmailsQuery(f: EmailFilters) returns (conditions: seq<Condition>, limit: int, offset: int)
    ensures conditions == Conditions(f)
    ensures (limit, offset) == ClampPage(Some(f.limit), Some(f.offset))
    ensures 1 <= limit <= 100 && offset >= 0
  {
    conditions := [];
    if Truthy(f.status) {
      conditions := conditions + [StatusIs(f.status.value)];
    }
    assert conditions == ConditionsBelow(f, 1);
    if Truthy(f.category) {
      conditions := conditions + [CategoryIs(f.category.value)];
    }
    assert conditions == ConditionsBelow(f, 2);
    if f.priority.Some? {
      conditions := conditions + [PriorityIs(f.priority.value)];
    }
    assert conditions == ConditionsBelow(f, 3);
    if Truthy(f.fromDate) {
      conditions := conditions + [ReceivedFrom(f.fromDate.value)];
    }
    assert conditions == ConditionsBelow(f, 4);
    if Truthy(f.toDate) {
      conditions := conditions + [ReceivedTo(f.toDate.value)];
    }
    assert conditions == ConditionsBelow(f, 5);
    if f.requiresManualReview == Some(true) {
      conditions := conditions + [HasOpenReview];
    }
    assert conditions == ConditionsBelow(f, 6);
    BelowThenFrom(f, 6);
    limit := Min(Max(f.limit, 1), 100);
    offset := Max(f.offset, 0);
  }

  // ---------------------------------------------------------------------
  // Routing
  // ---------------------------------------------------------------------

  /** `s.slice(start, -k)`: empty when the two ends cross. */
  function SliceBetween(s: string, start: nat, k: nat): (r: string)
    ensures start + k <= |s| ==> r == s[start..|s| - k]
    ensures start + k > |s| ==> r == ""
  {
    if start + k <= |s| then s[start..|s| - k] else ""
  }

  const EmailsPrefix := "/admin/api/emails/"
  const ReviewsPrefix := "/admin/api/manual-reviews/"

  /** Where the admin worker sends a request. */
  datatype AdminRoute =
    | LoginRoute
    | LogoutRoute
    | HomeRoute
    | Health
    | NotFoundText
    | Unauthorized
    | ListEmails(filters: EmailFilters)
    | Timeline(emailId: string)
    | Detail(emailId: string, raw: bool)
    | ReviewList(status: Option<string>)
    | SetReviewStatus(taskId: string)
    | Reprocess(emailId: string)
    | ReplayAction(emailId: string)
    | NoApiRoute

  /** The dispatch of the admin worker's fetch handler. `authenticated` is
      what isAuthenticated answers; only the home page and /admin/api/ paths
      consult it. */
  lemma PublicPathsOutsideApi()
    ensures !StartsWith("/admin/login", "/admin/api/") && !StartsWith("/admin/logout", "/admin/api/")
    ensures !StartsWith("/", "/admin/api/") && !StartsWith("/healthz", "/admin/api/")
  {
    assert "/admin/login"[7] != "/admin/api/"[7];
    assert "/admin/logout"[7] != "/admin/api/"[7];
  }

  function AdminRouteOf(verb: string, path: string, query: map<string, string>, authenticated: bool): (r: AdminRoute)
    ensures !StartsWith(path, "/admin/api/") ==>
      r in {LoginRoute, LogoutRoute, HomeRoute, Health, NotFoundText}
    ensures StartsWith(path, "/admin/api/") && !authenticated ==> r == Unauthorized
  {
    PublicPathsOutsideApi();
    if path == "/admin/login" && verb == "POST" then LoginRoute
    else if path == "/admin/logout" && verb == "POST" then LogoutRoute
    else if path == "/" && verb == "GET" then HomeRoute
    else if path == "/healthz" then Health
    else if !StartsWith(path, "/admin/api/") then NotFoundText
    else if !authenticated then Unauthorized
    else if verb == "GET" && path == "/admin/api/emails" then ListEmails(FiltersOf(query))
    else if verb == "GET" && StartsWith(path, EmailsPrefix) && EndsWith(path, "/timeline") then
      Timeline(SliceBetween(path, |EmailsPrefix|, |"/timeline"|))
    else if verb == "GET" && StartsWith(path, EmailsPrefix) then
      Detail(path[|EmailsPrefix|..], QueryValue(query, "raw") == Some("1"))
    else if verb == "GET" && path == "/admin/api/manual-reviews" then ReviewList(QueryValue(query, "status"))
    else if verb == "POST" && StartsWith(path, ReviewsPrefix) && EndsWith(path, "/status") then
      SetReviewStatus(SliceBetween(path, |ReviewsPrefix|, |"/status"|))
    else if verb == "POST" && StartsWith(path, EmailsPrefix) && EndsWith(path, "/reprocess") then
      Reprocess(SliceBetween(path, |EmailsPrefix|, |"/reprocess"|))
    else if verb == "POST" && StartsWith(path, EmailsPrefix) && EndsWith(path, "/replay-action") then
      ReplayAction(SliceBetween(path, |EmailsPrefix|, |"/replay-action"|))
    else NoApiRoute
  }

  /** Outside /admin/api/ and the home page, the answer does not depend on
      authentication, so isAuthenticated is never consulted there. */
  lemma GateOnlyGuardsApi(verb: string, path: string, query: map<string, string>)
    requires !StartsWith(path, "/admin/api/") && path != "/"
    ensures AdminRouteOf(verb, path, query, true) == AdminRouteOf(verb, path, query, false)
  {
  }

  /** The timeline of ".../emails/timeline" is asked for the empty id: the
      prefix and the suffix share the slash. */
  lemma TimelineOverlap()
    ensures AdminRouteOf("GET", "/admin/api/emails/timeline", map[], true) == Timeline("")
  {
    var p := "/admin/api/emails/timeline";
    assert StartsWith(p, EmailsPrefix) by { assert p[..|EmailsPrefix|] == EmailsPrefix; }
    assert EndsWith(p, "/timeline") by { assert p[|p| - 9..] == "/timeline"; }
    assert StartsWith(p, "/admin/api/") by { assert p[..11] == "/admin/api/"; }
  }

  /** The review status route of the admin worker: the same update as the
      dashboard API's PATCH, with no event written. */
  method SetReviewStatusRoute(db: Database, taskId: string, u: StatusUpdate, now: string)
    requires db.Valid()
    modifies db
    ensures db.Valid()
    ensures db.State() == old(db.State()).(reviewTasks := UpdateTasks(old(db.reviewTasks), taskId, u.status, u.assignee, now))
  {
    db.UpdateManualReviewTaskStatus(taskId, u.status, u.assignee, now);
  }
}
