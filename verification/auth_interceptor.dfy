/** Bearer-token injection on every outgoing request
    (`data/auth/AuthInterceptor.kt`). A request is reduced to its header list;
    sending it on (`chain.proceed`) is not part of this model. */
module AuthInterceptor {
  import opened Wrappers
  import opened Text
  import Session

  datatype Header = Header(name: string, value: string)

  datatype Request = Request(url: string, headers: seq<Header>)

  const AuthorizationHeader: string := "Authorization"
  const BearerPrefix: string := "Bearer "

  /** How many headers in `hs` are called `name`. */
  function CountNamed(hs: seq<Header>, name: string): (n: nat)
    ensures n == 0 <==> forall i :: 0 <= i < |hs| ==> hs[i].name != name
  {
    if |hs| == 0 then 0
    else CountNamed(hs[..|hs| - 1], name) + (if hs[|hs| - 1].name == name then 1 else 0)
  }

  /** What OkHttp's `Headers.Builder.addHeader` accepts in a header value:
      tab and the printable ASCII characters U+0020..U+007E. On any other
      character it throws `IllegalArgumentException`. */
  predicate HeaderValueChar(c: char) {
    c == '\t' || (' ' <= c <= '~')
  }

  predicate HeaderValueSafe(v: string) {
    forall i :: 0 <= i < |v| ==> HeaderValueChar(v[i])
  }

  /** The request as sent, given the token the store holds: unchanged when
      there is no token or it is empty, otherwise with one `Authorization`
      header appended after the original headers (OkHttp's `addHeader`
      keeps headers of the same name). OkHttp stores the value trimmed, so
      the header is `Bearer <token>` without any trailing spaces or tabs of
      the token. `None` is the exception `addHeader` throws for a value it
      rejects: it leaves `intercept` and no request is sent. */
  function Intercept(token: Option<string>, original: Request): (r: Option<Request>)
    ensures token.None? || token.value == [] ==> r == Some(original)
    // A token is rejected exactly when it holds a character a header value
    // may not; the `Bearer ` prefix itself is always accepted.
    ensures token.Some? && token.value != [] ==> (r.None? <==> !HeaderValueSafe(token.value))
    ensures token.Some? && token.value != [] && r.Some? ==>
      && r.value.url == original.url
      && |r.value.headers| == |original.headers| + 1
      && r.value.headers[..|original.headers|] == original.headers
      && r.value.headers[|original.headers|].name == AuthorizationHeader
      && r.value.headers[|original.headers|].value == Trim(BearerPrefix + token.value)
  {
    if token.Some? && token.value != [] then
      var value := BearerPrefix + token.value;
      assert forall i :: 0 <= i < |token.value| ==> value[|BearerPrefix| + i] == token.value[i];
      if HeaderValueSafe(value) then
        Some(Request(original.url, original.headers + [Header(AuthorizationHeader, Trim(value))]))
      else
        None
    else
      Some(original)
  }

  /** With a non-empty token, the request goes out exactly when the token is
      a valid header value, and then with exactly one more `Authorization`
      header while every other header keeps its count. */
  lemma {:induction false} InterceptAddsOneAuthorization(token: string, original: Request, name: string)
    requires token != []
    ensures Intercept(Some(token), original).Some? <==> HeaderValueSafe(token)
    ensures var r := Intercept(Some(token), original);
      r.Some? ==>
        CountNamed(r.value.headers, name)
          == CountNamed(original.headers, name) + (if name == AuthorizationHeader then 1 else 0)
  {
    var r := Intercept(Some(token), original);
    if r.Some? {
      assert r.value.headers[..|r.value.headers| - 1] == original.headers;
    }
  }

  /** A token that does not end in whitespace can be read back from the
      header that was added. */
  lemma BearerValueCarriesToken(token: string, original: Request)
    requires token != []
    ensures var r := Intercept(Some(token), original);
      r.Some? && !IsWhitespace(token[|token| - 1]) ==>
        var v := r.value.headers[|original.headers|].value;
        v == BearerPrefix + token && v[..|BearerPrefix|] == BearerPrefix && v[|BearerPrefix|..] == token
  {
    var v := BearerPrefix + token;
    if !IsWhitespace(token[|token| - 1]) {
      assert v[0] == 'B' && v[|v| - 1] == token[|token| - 1];
      TrimUnchanged(v);
    }
  }

  /** OkHttp trims the value it stores: a trailing space of the token is not
      sent, and a token of blanks leaves only the word `Bearer`. */
  lemma TrailingBlanksDropped(original: Request)
    ensures Intercept(Some("abc "), original).Some?
    ensures Intercept(Some("abc "), original).value.headers[|original.headers|].value == "Bearer abc"
    ensures Intercept(Some(" \t"), original).Some?
    ensures Intercept(Some(" \t"), original).value.headers[|original.headers|].value == "Bearer"
  {
    var v := BearerPrefix + "abc ";
    assert SkipSpace(v, 0) == 0;
    assert BackSpace(v, 0, 10) == 10;
    assert v[..10] == "Bearer abc";
    var w := BearerPrefix + " \t";
    assert SkipSpace(w, 0) == 0;
    assert BackSpace(w, 0, 6) == 6;
    assert w[..6] == "Bearer";
  }

  /** The interceptor as wired to the session store: after `clearSession`
      requests leave unchanged; after `saveToken(t)` with a non-empty `t`
      they carry `Bearer t`, trimmed, when `t` is a valid header value and
      are not sent at all otherwise. */
  lemma InterceptAfterSessionChanges(st: Session.Store, token: string, original: Request)
    ensures Intercept(Session.GetToken(Session.ClearSession(st)), original) == Some(original)
    ensures token != [] && HeaderValueSafe(token) ==>
      Intercept(Session.GetToken(Session.SaveToken(st, token)), original)
        == Some(Request(original.url, original.headers + [Header(AuthorizationHeader, Trim(BearerPrefix + token))]))
    ensures token != [] && !HeaderValueSafe(token) ==>
      Intercept(Session.GetToken(Session.SaveToken(st, token)), original) == None
  {
  }

  /** A token holding a line break or a non-ASCII letter makes every request
      fail instead of going out. */
  lemma UnsafeTokensRejected(original: Request)
    ensures Intercept(Some("abc\ndef"), original) == None
    ensures Intercept(Some("se\U{F1}al"), original) == None
  {
    assert !HeaderValueChar("abc\ndef"[3]);
    assert !HeaderValueChar("se\U{F1}al"[2]);
  }
}
