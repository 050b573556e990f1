/** The codeword login of auth.py: a read-only table of users keyed by
    codeword, a cookie that carries the codeword, and the dependency that
    turns the cookie back into the user's record. */
module Auth {
  import opened Wrappers

  /** A user's stored fields (`"name"`, `"created_at"`, ...). */
  type UserRecord = map<string, string>
  /** `USERS`: codeword -> stored fields. */
  type Users = map<string, UserRecord>
  /** The request's cookies, name -> value. */
  type Cookies = map<string, string>

  /** The cookie that carries the codeword. */
  const SessionCookie := "rubi_sid"

  /** The table written to data/users.json when the file does not exist. */
  const SeedUsers: Users :=
    map["open-sesame" := map["name" := "Rohit", "created_at" := "2025-05-07T00:00:00"]]

  /** `USERS` at import time: the stored table, or the seed when the file
      was missing (the seed is written and then read back). */
  function LoadUsers(file: Option<Users>): (users: Users)
    ensures file.Some? ==> users == file.value
    ensures file.None? ==> "open-sesame" in users && "user" !in users["open-sesame"]
  {
    if file.Some? then file.value else SeedUsers
  }

  /** The codeword test shared by `require_user` and `login`: present,
      non-empty and a key of `USERS`. */
  predicate Known(users: Users, codeword: Option<string>) {
    codeword.Some? && codeword.value != "" && codeword.value in users
  }

  /** `cookies.get("rubi_sid")`. */
  function CookieCodeword(cookies: Cookies): Option<string> {
    if SessionCookie in cookies then Some(cookies[SessionCookie]) else None
  }

  /** `require_user`: a missing, empty or unknown codeword raises 401;
      otherwise the result is `{"codeword": codeword, **USERS[codeword]}`:
      every stored field unchanged, plus `"codeword"` holding the cookie's
      value unless the record stores a `"codeword"` field of its own, which
      then wins. */
  function RequireUser(cookies: Cookies, users: Users): (r: Outcome<UserRecord>)
    ensures r.Ok? <==> Known(users, CookieCodeword(cookies))
    ensures r.Raised? ==> r.status == 401
    ensures r.Ok? ==>
      var codeword := cookies[SessionCookie];
      && r.value.Keys == users[codeword].Keys + {"codeword"}
      && (forall k :: k in users[codeword] ==> r.value[k] == users[codeword][k])
      && ("codeword" !in users[codeword] ==> r.value["codeword"] == codeword)
  {
    var codeword := CookieCodeword(cookies);
    if !Known(users, codeword) then Raised(401, "Invalid or missing codeword")
    else Ok(map["codeword" := codeword.value] + users[codeword.value])
  }

  /** What a successful login sends back: the status and the cookie it sets. */
  datatype LoginReply = LoginReply(status: string, cookieName: string, cookieValue: string)

  /** `login`: the payload's `"codeword"` must be present, non-empty and
      known, else 401; on success the reply sets the session cookie to it. */
  function Login(payload: map<string, string>, users: Users): (r: Outcome<LoginReply>)
    ensures r.Raised? ==> r.status == 401
    ensures r.Ok? <==> "codeword" in payload && payload["codeword"] != "" && payload["codeword"] in users
    ensures r.Ok? ==> r.value.cookieName == SessionCookie && r.value.cookieValue == payload["codeword"]
  {
    var codeword := if "codeword" in payload then Some(payload["codeword"]) else None;
    if !Known(users, codeword) then Raised(401, "Invalid codeword")
    else Ok(LoginReply("ok", SessionCookie, codeword.value))
  }

  /** The browser's cookie jar after it receives a reply that sets a cookie. */
  function SetCookie(cookies: Cookies, reply: LoginReply): Cookies {
    cookies[reply.cookieName := reply.cookieValue]
  }

  /** `whoami`: exactly what `require_user` returns, error included. */
  function WhoAmI(cookies: Cookies, users: Users): (r: Outcome<UserRecord>)
    ensures r == RequireUser(cookies, users)
  {
    RequireUser(cookies, users)
  }

  /** `login` accepts exactly the codewords that `require_user` accepts. */
  lemma LoginAcceptsWhatRequireUserAccepts(payload: map<string, string>, users: Users)
    ensures Login(payload, users).Ok? <==>
      ("codeword" in payload &&
       RequireUser(map[SessionCookie := payload["codeword"]], users).Ok?)
  {
    if "codeword" in payload {
      assert CookieCodeword(map[SessionCookie := payload["codeword"]]) == Some(payload["codeword"]);
    }
  }

  /** Round trip: after a successful login the browser holds the codeword
      in the session cookie, so the next `require_user` succeeds and hands
      back the user's stored fields. */
  lemma LoginThenRequireUser(payload: map<string, string>, users: Users, cookies: Cookies)
    requires Login(payload, users).Ok?
    ensures var jar := SetCookie(cookies, Login(payload, users).value);
      && RequireUser(jar, users).Ok?
      && jar[SessionCookie] == payload["codeword"]
      && (forall k :: k in users[payload["codeword"]] ==>
            k in RequireUser(jar, users).value &&
            RequireUser(jar, users).value[k] == users[payload["codeword"]][k])
  {
    var jar := SetCookie(cookies, Login(payload, users).value);
    assert CookieCodeword(jar) == Some(payload["codeword"]);
  }

  /** With the seeded table, the seeded codeword is accepted and the
      record it yields has no `"user"` field. */
  lemma SeededUserHasNoUserField(cookies: Cookies)
    requires CookieCodeword(cookies) == Some("open-sesame")
    ensures RequireUser(cookies, LoadUsers(None)).Ok?
    ensures "user" !in RequireUser(cookies, LoadUsers(None)).value
  {
    var rec := RequireUser(cookies, LoadUsers(None)).value;
    assert rec.Keys == SeedUsers["open-sesame"].Keys + {"codeword"};
    assert SeedUsers["open-sesame"].Keys == {"name", "created_at"};
  }
}
