/** The bearer-token handling the three authentication handlers share:
    the `Authorization` header must start with "Bearer " (case-sensitive,
    space included), and the token is `header.split(" ")[1]`. Also the
    decoded-token record and the replies common to the user-verification
    routes. */
module Bearer {
  import opened Wrappers
  import opened Strings
  import opened JsValue
  import opened Http

  const Prefix := "Bearer "

  /** `authHeader && authHeader.startsWith("Bearer ")`. */
  predicate HasBearerPrefix(header: Option<string>) {
    header.Some? && StartsWith(header.value, Prefix)
  }

  /** `header.split(" ")[1]`, only ever taken after the prefix check: the
      longest space-free stretch right after "Bearer ". Further fields are
      ignored and the stretch may be empty. */
  function BearerToken(header: string): (token: string)
    requires StartsWith(header, Prefix)
    ensures var rest := header[|Prefix|..];
            token == rest[..IndexOf(rest, ' ')]
    ensures ' ' !in token
    ensures StartsWith(header, Prefix + token)
  {
    var rest := header[|Prefix|..];
    assert header == "Bearer" + [' '] + rest;
    SplitAfterHead("Bearer", ' ', rest);
    SplitHead(rest, ' ');
    Split(header, ' ')[1]
  }

  /** "Bearer " alone yields the empty token; "Bearer a b" yields "a". */
  lemma BearerTokenExamples()
    ensures BearerToken("Bearer ") == ""
    ensures BearerToken("Bearer a b") == "a"
  {
    assert IndexOf("a b", ' ') == 1 by {
      assert "a b"[1..] == " b";
    }
  }

  /** The token is the header's second space-separated field whatever follows. */
  lemma BearerTokenIsSecondField(token: string, tail: string)
    requires ' ' !in token
    ensures BearerToken(Prefix + token + tail) == (if tail == "" || tail[0] == ' ' then token
                                                   else token + tail[..IndexOf(tail, ' ')])
  {
    var header := Prefix + token + tail;
    var rest := token + tail;
    assert header[|Prefix|..] == rest;
    var i := IndexOf(rest, ' ');
    assert forall j :: 0 <= j < |token| ==> rest[j] == token[j];
    assert forall j :: 0 <= j < |tail| ==> rest[|token| + j] == tail[j];
    if tail == "" || tail[0] == ' ' {
      assert rest[..i] == token;
    } else {
      var k := IndexOf(tail, ' ');
      assert i == |token| + k;
      assert rest[..i] == token + tail[..k];
    }
  }

  /** The identity provider's decoded token: `uid`, `email` (absent for some
      sign-in methods) and the `admin` custom claim (absent unless set). */
  datatype Decoded = Decoded(uid: string, email: Option<string>, admin: Option<Json>)

  datatype Role = Admin | User

  function RoleName(role: Role): string {
    match role
    case Admin => "admin"
    case User => "user"
  }

  const NoToken := ErrorReply(401, "No token provided")

  const InvalidToken := ErrorReply(401, "Invalid or expired token")

  /** `{ success: true, uid, email, role }` with `Cache-Control: no-store`. */
  function UserReply(decoded: Decoded, role: Role): Response {
    Response(200, UserBody(true, decoded.uid, decoded.email, RoleName(role)), Some("no-store"))
  }
}
