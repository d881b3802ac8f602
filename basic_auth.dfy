/**
 * The "Basic" HTTP authentication scheme of section 2 of RFC 7617: the
 * credentials are the user-id and password joined by a single colon, encoded
 * as UTF-8 and then in base 64.
 */
module BasicAuth {
  import opened Options
  import opened Text
  import Utf8
  import Base64

  const Scheme: string := "Basic "

  /** The `Authorization` header value for a user-id and a password. */
  function Header(user: string, password: string): (h: string)
    ensures |h| >= |Scheme| && h[..|Scheme|] == Scheme
  {
    Scheme + Base64.Encode(Utf8.Encode(user + ":" + password))
  }

  /**
   * The user-id and password carried by a header value: the scheme prefix is
   * removed, the rest decoded from base 64 and then from UTF-8, and the result
   * split at its first colon. None when any step fails.
   */
  function ParseHeader(h: string): Option<(string, string)>
  {
    if |h| < |Scheme| || h[..|Scheme|] != Scheme then None
    else
      match Base64.Decode(h[|Scheme|..])
      case None => None
      case Some(octets) =>
        match Utf8.Decode(octets)
        case None => None
        case Some(pass) =>
          var parts := Split(pass, ':');
          if |parts| < 2 then None else Some((parts[0], Join(parts[1..], ':')))
  }

  /** A user-id without a colon and any password are recovered from the header. */
  lemma HeaderRoundTrip(user: string, password: string)
    requires ':' !in user
    ensures ParseHeader(Header(user, password)) == Some((user, password))
  {
    var h := Header(user, password);
    var pass := user + ":" + password;
    assert h[|Scheme|..] == Base64.Encode(Utf8.Encode(pass));
    Base64.DecodeEncode(Utf8.Encode(pass));
    Utf8.DecodeEncode(pass);
    assert pass == user + [':'] + password;
    SplitAtFirst(user, ':', password);
    var parts := Split(pass, ':');
    assert parts[1..] == Split(password, ':');
    JoinSplit(password, ':');
  }

  /** For a fixed colon-free user-id, the header determines the password. */
  lemma HeaderDeterminesPassword(user: string, p1: string, p2: string)
    requires ':' !in user
    ensures Header(user, p1) == Header(user, p2) <==> p1 == p2
  {
    if Header(user, p1) == Header(user, p2) {
      HeaderRoundTrip(user, p1);
      HeaderRoundTrip(user, p2);
    }
  }
}
