/** The redirect-URL parameter parser of the Google sign-in and the decisions
    around it (src/services/authService.ts). The OAuth provider, the browser
    and the session exchange are remote: their outcomes are parameters. */
module AuthService {
  import opened Common
  import opened Strings

  /** The `params` object: keys to decoded values. */
  type Params = map<string, string>

  /** An error thrown by the auth client, known by its `name`. */
  datatype AuthError = AuthError(name: string)

  // ---------------------------------------------------------------------
  // extractParamsFromUrl

  /** `const [key, value] = param.split('=')` guarded by `if (key && value)`:
      the text before the first '=' and the text between the first and the
      second '=', when both are non-empty. */
  function Binding(piece: string): (b: Option<(string, string)>)
    ensures b.Some? ==> b.value.0 != "" && b.value.1 != ""
    ensures b.Some? ==> '=' !in b.value.0 && '=' !in b.value.1
    ensures b.Some? ==>
      var a := |b.value.0|;
      var e := a + 1 + |b.value.1|;
      e <= |piece| && piece[..a] == b.value.0 && piece[a] == '=' && piece[a + 1..e] == b.value.1 &&
      (e < |piece| ==> piece[e] == '=')
  {
    var kv := Split(piece, '=');
    if |kv| >= 2 && kv[0] != "" && kv[1] != "" then
      SecondPiece(piece, '=');
      Some((kv[0], kv[1]))
    else None
  }

  /** Whether a piece stores a value under `key`. */
  predicate Binds(piece: string, key: string)
  {
    Binding(piece).Some? && Binding(piece).value.0 == key
  }

  /** One `forEach` step: a binding piece overwrites its key with the decoded value. */
  function Absorb(params: Params, piece: string, decode: string -> string): (r: Params)
  {
    match Binding(piece)
    case None => params
    case Some((key, value)) => params[key := decode(value)]
  }

  /** `part.split('&').forEach(...)` over the first `|pieces|` pieces. */
  function AbsorbAll(params: Params, pieces: seq<string>, decode: string -> string): Params
    decreases |pieces|
  {
    if pieces == [] then params
    else Absorb(AbsorbAll(params, pieces[..|pieces| - 1], decode), pieces[|pieces| - 1], decode)
  }

  /** The pieces `processPart` visits: none when the part is missing or empty. */
  function Pieces(part: Option<string>): seq<string>
  {
    if part.Some? && part.value != "" then Split(part.value, '&') else []
  }

  /** `url.split('?')[1]` */
  function QueryPart(url: string): Option<string>
  {
    Piece(url, '?', 1)
  }

  /** `url.split('#')[1]` */
  function FragmentPart(url: string): Option<string>
  {
    Piece(url, '#', 1)
  }

  /** The object `extractParamsFromUrl` returns: the query pieces, then the
      fragment pieces, folded into an empty map. */
  function ParamsOf(url: string, decode: string -> string): Params
  {
    AbsorbAll(AbsorbAll(map[], Pieces(QueryPart(url)), decode), Pieces(FragmentPart(url)), decode)
  }

  /** Folding pieces into the map keeps every key already there and adds only
      non-empty keys without '='. */
  lemma {:induction false} AbsorbAllKeys(params: Params, pieces: seq<string>, decode: string -> string)
    ensures params.Keys <= AbsorbAll(params, pieces, decode).Keys
    ensures forall k :: k in AbsorbAll(params, pieces, decode) && k !in params ==> k != "" && '=' !in k
    decreases |pieces|
  {
    if pieces != [] {
      AbsorbAllKeys(params, pieces[..|pieces| - 1], decode);
    }
  }

  /** Every key of the parsed parameters is non-empty and holds no '='. */
  lemma ParamsOfKeys(url: string, decode: string -> string)
    ensures forall k :: k in ParamsOf(url, decode) ==> k != "" && '=' !in k
  {
    var first := AbsorbAll(map[], Pieces(QueryPart(url)), decode);
    AbsorbAllKeys(map[], Pieces(QueryPart(url)), decode);
    AbsorbAllKeys(first, Pieces(FragmentPart(url)), decode);
  }

  /** `processPart(part)`: the `forEach` over the '&' pieces of `part`. */
  method ProcessPart(params: Params, part: string, decode: string -> string) returns (r: Params)
    ensures r == AbsorbAll(params, Split(part, '&'), decode)
  {
    var pieces := Split(part, '&');
    r := params;
    for i := 0 to |pieces|
      invariant r == AbsorbAll(params, pieces[..i], decode)
    {
      assert pieces[..i + 1][..i] == pieces[..i];
      var kv := Split(pieces[i], '=');
      if |kv| >= 2 && kv[0] != "" && kv[1] != "" {
        r := r[kv[0] := decode(kv[1])];
      }
    }
    assert pieces[..|pieces|] == pieces;
  }

  /** `extractParamsFromUrl(url)` */
  method ExtractParams(url: string, decode: string -> string) returns (params: Params)
    ensures params == ParamsOf(url, decode)
  {
    params := map[];
    var queryString := QueryPart(url);
    var fragmentString := FragmentPart(url);
    if queryString.Some? && queryString.value != "" {
      params := ProcessPart(params, queryString.value, decode);
    }
    if fragmentString.Some? && fragmentString.value != "" {
      params := ProcessPart(params, fragmentString.value, decode);
    }
  }

  /** `key=value` with both sides non-empty and free of '=' is read back as that binding. */
  lemma BindingOfPair(key: string, value: string)
    requires key != "" && value != ""
    requires '=' !in key && '=' !in value
    ensures Binding(key + "=" + value) == Some((key, value))
  {
    SplitJoin([key, value], '=');
    assert Join([key, value], "=") == key + "=" + value;
  }

  /** Conversely, any text after the value that starts with '=' is ignored:
      with `Binding`'s own contract, a piece binds `key` to `value` exactly
      when it reads `key=value`, optionally followed by '=' and anything. */
  lemma BindingWithTail(key: string, value: string, tail: string)
    requires key != "" && value != ""
    requires '=' !in key && '=' !in value
    requires tail == "" || tail[0] == '='
    ensures Binding(key + "=" + value + tail) == Some((key, value))
  {
    var t := "=" + value + tail;
    assert key + "=" + value + tail == key + t;
    SplitPrefix(key, t, '=');
    assert t[1..] == value + tail;
    SplitPrefix(value, tail, '=');
    assert Split(tail, '=')[0] == "";
    assert value + "" == value && key + "" == key;
  }

  /** The last piece binding a key decides its value. */
  lemma {:induction false} LastPieceWins(params: Params, pieces: seq<string>, decode: string -> string,
                                         key: string, j: nat)
    requires j < |pieces| && Binds(pieces[j], key)
    requires forall k :: j < k < |pieces| ==> !Binds(pieces[k], key)
    ensures var r := AbsorbAll(params, pieces, decode);
      key in r && r[key] == decode(Binding(pieces[j]).value.1)
    decreases |pieces|
  {
    var n := |pieces| - 1;
    var init := pieces[..n];
    if j < n {
      assert init[j] == pieces[j];
      assert forall k :: j < k < n ==> init[k] == pieces[k];
      LastPieceWins(params, init, decode, key, j);
    }
  }

  /** A key no piece binds keeps whatever it had before. */
  lemma {:induction false} UnboundKept(params: Params, pieces: seq<string>, decode: string -> string, key: string)
    requires forall k :: 0 <= k < |pieces| ==> !Binds(pieces[k], key)
    ensures var r := AbsorbAll(params, pieces, decode);
      (key in r <==> key in params) && (key in params ==> r[key] == params[key])
    decreases |pieces|
  {
    if pieces != [] {
      var n := |pieces| - 1;
      var init := pieces[..n];
      assert forall k :: 0 <= k < n ==> init[k] == pieces[k];
      UnboundKept(params, init, decode, key);
    }
  }

  /** A key bound in the fragment takes the fragment's last value for it. */
  lemma FragmentWins(url: string, decode: string -> string, key: string, j: nat)
    requires var f := Pieces(FragmentPart(url));
      j < |f| && Binds(f[j], key) && forall k :: j < k < |f| ==> !Binds(f[k], key)
    ensures var f := Pieces(FragmentPart(url));
      key in ParamsOf(url, decode) && ParamsOf(url, decode)[key] == decode(Binding(f[j]).value.1)
  {
    LastPieceWins(AbsorbAll(map[], Pieces(QueryPart(url)), decode), Pieces(FragmentPart(url)), decode, key, j);
  }

  /** A key bound only in the query takes the query's last value for it. */
  lemma QueryValue(url: string, decode: string -> string, key: string, j: nat)
    requires var q := Pieces(QueryPart(url));
      j < |q| && Binds(q[j], key) && forall k :: j < k < |q| ==> !Binds(q[k], key)
    requires var f := Pieces(FragmentPart(url)); forall k :: 0 <= k < |f| ==> !Binds(f[k], key)
    ensures var q := Pieces(QueryPart(url));
      key in ParamsOf(url, decode) && ParamsOf(url, decode)[key] == decode(Binding(q[j]).value.1)
  {
    LastPieceWins(map[], Pieces(QueryPart(url)), decode, key, j);
    UnboundKept(AbsorbAll(map[], Pieces(QueryPart(url)), decode), Pieces(FragmentPart(url)), decode, key);
  }

  /** A key bound by no piece of either part is absent. */
  lemma Unbound(url: string, decode: string -> string, key: string)
    requires var q := Pieces(QueryPart(url)); forall k :: 0 <= k < |q| ==> !Binds(q[k], key)
    requires var f := Pieces(FragmentPart(url)); forall k :: 0 <= k < |f| ==> !Binds(f[k], key)
    ensures key !in ParamsOf(url, decode)
  {
    UnboundKept(map[], Pieces(QueryPart(url)), decode, key);
    UnboundKept(AbsorbAll(map[], Pieces(QueryPart(url)), decode), Pieces(FragmentPart(url)), decode, key);
  }

  /** A URL with neither '?' nor '#' has no parameters. */
  lemma NoDelimiters(url: string, decode: string -> string)
    requires '?' !in url && '#' !in url
    ensures ParamsOf(url, decode) == map[]
  {
    NoSeparatorOnePiece(url, '?');
    NoSeparatorOnePiece(url, '#');
  }

  /** The query part is the text after the first '?' up to the next '?' (a
      '#' tail included); the fragment part likewise for '#'. */
  lemma PartsLocated(url: string, sep: char)
    requires sep == '?' || sep == '#'
    requires Piece(url, sep, 1).Some?
    ensures var part := Piece(url, sep, 1).value;
      var a := |Split(url, sep)[0]|;
      a + 1 + |part| <= |url| && sep !in url[..a] && url[a] == sep && url[a + 1..a + 1 + |part|] == part &&
      sep !in part && (a + 1 + |part| < |url| ==> url[a + 1 + |part|] == sep)
  {
    SecondPiece(url, sep);
  }

  // ---------------------------------------------------------------------
  // signInWithGoogle

  /** The two ways a returned URL completes the sign-in, or neither. */
  datatype Flow =
    | ExchangeCode(code: string)                      // authorization code with PKCE
    | SetSession(accessToken: string, refreshToken: string)  // implicit-flow tokens
    | NoCredentials

  /** JavaScript truthiness of `params[key]`. */
  predicate Present(params: Params, key: string)
  {
    key in params && params[key] != ""
  }

  /** The branch choice at the end of `signInWithGoogle`. */
  function ChooseFlow(params: Params): (f: Flow)
    ensures f.ExchangeCode? <==> Present(params, "code")
    ensures f.ExchangeCode? ==> f.code == params["code"]
    ensures f.SetSession? <==> !Present(params, "code") && Present(params, "access_token") && Present(params, "refresh_token")
    ensures f.SetSession? ==> f.accessToken == params["access_token"] && f.refreshToken == params["refresh_token"]
  {
    if Present(params, "code") then ExchangeCode(params["code"])
    else if Present(params, "access_token") && Present(params, "refresh_token") then
      SetSession(params["access_token"], params["refresh_token"])
    else NoCredentials
  }

  /** Text free of the four delimiters the parser splits on. */
  predicate Plain(s: string)
  {
    '=' !in s && '&' !in s && '?' !in s && '#' !in s
  }

  /** The parameter names the sign-in reads are plain and distinct. */
  lemma NamesPlain()
    ensures Plain("code") && Plain("access_token") && Plain("refresh_token")
    ensures "code" != "access_token" && "code" != "refresh_token" && "access_token" != "refresh_token"
  {
    PlainName("code");
    PlainName("access_token");
    PlainName("refresh_token");
    assert "code"[1] != "access_token"[1] && "code"[0] != "refresh_token"[0];
    assert "access_token"[0] != "refresh_token"[0];
  }

  /** Text made of lower-case letters and '_' is plain. */
  lemma PlainName(s: string)
    requires forall i :: 0 <= i < |s| ==> 'a' <= s[i] <= 'z' || s[i] == '_'
    ensures Plain(s)
  {
  }

  /** A URL `base?query` without '#' has only query pieces. */
  lemma QueryOnly(base: string, query: string)
    requires '?' !in base && '#' !in base && '?' !in query && '#' !in query && query != ""
    ensures Pieces(QueryPart(base + "?" + query)) == Split(query, '&')
    ensures Pieces(FragmentPart(base + "?" + query)) == []
  {
    var url := base + "?" + query;
    assert url == Join([base, query], "?");
    SplitJoin([base, query], '?');
    assert '#' !in url;
    NoSeparatorOnePiece(url, '#');
  }

  /** A URL `base#fragment` without '?' has only fragment pieces. */
  lemma FragmentOnly(base: string, fragment: string)
    requires '?' !in base && '#' !in base && '?' !in fragment && '#' !in fragment && fragment != ""
    ensures Pieces(QueryPart(base + "#" + fragment)) == []
    ensures Pieces(FragmentPart(base + "#" + fragment)) == Split(fragment, '&')
  {
    var url := base + "#" + fragment;
    assert url == Join([base, fragment], "#");
    SplitJoin([base, fragment], '#');
    assert '?' !in url;
    NoSeparatorOnePiece(url, '?');
  }

  /** A single `key=value` piece stores that one binding. */
  lemma OnePiece(key: string, value: string, decode: string -> string)
    requires key != "" && value != "" && Plain(key) && Plain(value)
    ensures var piece := key + "=" + value;
      '?' !in piece && '#' !in piece && Split(piece, '&') == [piece] &&
      AbsorbAll(map[], [piece], decode) == map[key := decode(value)]
  {
    var piece := key + "=" + value;
    assert '&' !in piece && '?' !in piece && '#' !in piece;
    NoSeparatorOnePiece(piece, '&');
    BindingOfPair(key, value);
    assert [piece][..0] == [];
  }

  /** Two `key=value` pieces store both bindings, the second over the first. */
  lemma TwoPieces(k1: string, v1: string, k2: string, v2: string, decode: string -> string)
    requires k1 != "" && v1 != "" && Plain(k1) && Plain(v1)
    requires k2 != "" && v2 != "" && Plain(k2) && Plain(v2)
    ensures var p1, p2 := k1 + "=" + v1, k2 + "=" + v2;
      '?' !in p1 + "&" + p2 && '#' !in p1 + "&" + p2 &&
      Split(p1 + "&" + p2, '&') == [p1, p2] &&
      AbsorbAll(map[], [p1, p2], decode) == map[k1 := decode(v1)][k2 := decode(v2)]
  {
    var p1, p2 := k1 + "=" + v1, k2 + "=" + v2;
    assert Split(p1 + "&" + p2, '&') == [p1, p2] by {
      assert p1 + "&" + p2 == Join([p1, p2], "&");
      assert '&' !in p1 && '&' !in p2;
      SplitJoin([p1, p2], '&');
    }
    OnePiece(k1, v1, decode);
    BindingOfPair(k2, v2);
    assert [p1, p2][..1] == [p1];
  }

  /** A redirect `base?code=C` completes by exchanging the decoded code. */
  lemma CodeRedirect(base: string, code: string, decode: string -> string)
    requires '?' !in base && '#' !in base
    requires code != "" && Plain(code) && decode(code) != ""
    ensures ChooseFlow(ParamsOf(base + "?" + "code" + "=" + code, decode)) == ExchangeCode(decode(code))
  {
    NamesPlain();
    var piece := "code" + "=" + code;
    OnePiece("code", code, decode);
    QueryOnly(base, piece);
    assert base + "?" + "code" + "=" + code == base + "?" + piece;
    assert ParamsOf(base + "?" + piece, decode) == map["code" := decode(code)];
  }

  /** A redirect `base#access_token=A&refresh_token=R` completes with the two decoded tokens. */
  lemma TokenRedirect(base: string, access: string, refresh: string, decode: string -> string)
    requires '?' !in base && '#' !in base
    requires access != "" && Plain(access) && decode(access) != ""
    requires refresh != "" && Plain(refresh) && decode(refresh) != ""
    ensures var fragment := "access_token" + "=" + access + "&" + "refresh_token" + "=" + refresh;
      ChooseFlow(ParamsOf(base + "#" + fragment, decode)) == SetSession(decode(access), decode(refresh))
  {
    NamesPlain();
    var p1, p2 := "access_token" + "=" + access, "refresh_token" + "=" + refresh;
    TwoPieces("access_token", access, "refresh_token", refresh, decode);
    FragmentOnly(base, p1 + "&" + p2);
    assert "access_token" + "=" + access + "&" + "refresh_token" + "=" + refresh == p1 + "&" + p2;
    var params := map["access_token" := decode(access)]["refresh_token" := decode(refresh)];
    assert ParamsOf(base + "#" + (p1 + "&" + p2), decode) == params;
    assert "code" !in params;
  }

  /** What `WebBrowser.openAuthSessionAsync` reports. */
  datatype BrowserResult = BrowserSuccess(url: string) | BrowserClosed

  /** Why `signInWithGoogle` throws. */
  datatype SignInError =
    | ProviderFailed(error: AuthError)    // signInWithOAuth returned an error
    | NoAuthUrl                           // no URL to open
    | Cancelled                           // the browser did not report success
    | ExchangeFailed(error: AuthError)    // exchangeCodeForSession failed
    | SessionFailed(error: AuthError)     // setSession failed
    | MissingCredentials                  // neither a code nor both tokens

  /** `signInWithGoogle()`, given the outcomes of the remote calls: the OAuth
      start (an error or an optional URL), the browser, and the code exchange
      and session set for the values they would receive. */
  method SignInWithGoogle(oauth: Result<Option<string>, AuthError>, browser: BrowserResult,
                          decode: string -> string,
                          exchange: string -> Option<AuthError>,
                          setSession: (string, string) -> Option<AuthError>)
    returns (r: Result<Flow, SignInError>)
    ensures oauth.Err? ==> r == Err(ProviderFailed(oauth.error))
    ensures oauth.Ok? && (oauth.value.None? || oauth.value.value == "") ==> r == Err(NoAuthUrl)
    ensures oauth.Ok? && oauth.value.Some? && oauth.value.value != "" && browser.BrowserClosed? ==> r == Err(Cancelled)
    ensures r.Ok? <==> (
      oauth.Ok? && oauth.value.Some? && oauth.value.value != "" && browser.BrowserSuccess? &&
      match ChooseFlow(ParamsOf(browser.url, decode))
      case ExchangeCode(code) => exchange(code).None?
      case SetSession(access, refresh) => setSession(access, refresh).None?
      case NoCredentials => false)
    ensures r.Ok? ==> r.value == ChooseFlow(ParamsOf(browser.url, decode))
    ensures r == Err(MissingCredentials) <==> (
      oauth.Ok? && oauth.value.Some? && oauth.value.value != "" && browser.BrowserSuccess? &&
      ChooseFlow(ParamsOf(browser.url, decode)).NoCredentials?)
    ensures oauth.Ok? && oauth.value.Some? && oauth.value.value != "" && browser.BrowserSuccess? ==>
      match ChooseFlow(ParamsOf(browser.url, decode))
      case ExchangeCode(code) => exchange(code).Some? ==> r == Err(ExchangeFailed(exchange(code).value))
      case SetSession(access, refresh) =>
        setSession(access, refresh).Some? ==> r == Err(SessionFailed(setSession(access, refresh).value))
      case NoCredentials => true
  {
    if oauth.Err? {
      return Err(ProviderFailed(oauth.error));
    }
    if oauth.value.None? || oauth.value.value == "" {
      return Err(NoAuthUrl);
    }
    if browser.BrowserClosed? {
      return Err(Cancelled);
    }
    var params := ExtractParams(browser.url, decode);
    if Present(params, "code") {
      var exchangeError := exchange(params["code"]);
      if exchangeError.Some? {
        return Err(ExchangeFailed(exchangeError.value));
      }
      return Ok(ExchangeCode(params["code"]));
    }
    if Present(params, "access_token") && Present(params, "refresh_token") {
      var sessionError := setSession(params["access_token"], params["refresh_token"]);
      if sessionError.Some? {
        return Err(SessionFailed(sessionError.value));
      }
      return Ok(SetSession(params["access_token"], params["refresh_token"]));
    }
    return Err(MissingCredentials);
  }

  // ---------------------------------------------------------------------
  // signOut

  /** The error name the sign-out treats as already signed out. */
  const SessionMissing := "AuthSessionMissingError"

  /** `signOut()`, given the error the auth client returned. */
  function SignOut(error: Option<AuthError>): (r: Result<(), AuthError>)
    ensures r.Ok? <==> error.None? || error.value.name == SessionMissing
    ensures r.Err? ==> r.error == error.value
  {
    match error
    case None => Ok(())
    case Some(e) => if e.name == SessionMissing then Ok(()) else Err(e)
  }
}
