/**
 * Discovery of the game client's API credentials from its lockfile
 * (Backend/src/lcuReader.ts). The lockfile is one line of colon-separated
 * fields `pid:processName:port:token:protocol`; only the port and the token
 * are used. The platform string and the file system are parameters.
 */
module LcuReader {
  import opened Options
  import opened Text
  import BasicAuth

  /** The connection record handed to the rest of the backend. */
  datatype Credentials = Credentials(port: string, token: string, baseUrl: string, authHeader: string)

  /** The fixed user-id of the client's Basic authentication. */
  const User: string := "riot"

  const UrlPrefix: string := "https://127.0.0.1:"

  /** The directories and file name of the Windows lockfile, joined with `\`. */
  const WindowsLockfileSegments: seq<string> := ["C:", "Games", "Riot Games", "League of Legends", "lockfile"]

  const MacLockfilePath: string := "/Applications/League of Legends.app/Contents/LoL/lockfile"

  /** The lockfile location for a platform, or None (null) for an unsupported one. */
  function LockfilePath(platform: string): (p: Option<string>)
    ensures p.Some? <==> platform == "win32" || platform == "darwin"
    ensures platform == "darwin" ==> p == Some(MacLockfilePath)
  {
    if platform == "win32" then Some(Join(WindowsLockfileSegments, '\\'))
    else if platform == "darwin" then Some(MacLockfilePath)
    else None
  }

  /** The Windows path splits on `\\` back into its segments. */
  lemma WindowsLockfilePath()
    ensures Split(LockfilePath("win32").value, '\\') == WindowsLockfileSegments
  {
    var s := WindowsLockfileSegments;
    assert FreeOf(s, '\\') by {
      forall i | 0 <= i < |s| ensures '\\' !in s[i] {
        assert i == 0 || i == 1 || i == 2 || i == 3 || i == 4;
      }
    }
    SplitJoin(s, '\\');
  }

  /** The REST base URL for a port. */
  function BaseUrl(port: string): (url: string)
    ensures ':' !in port ==> Split(url, ':') == ["https", "//127.0.0.1", port]
  {
    assert UrlPrefix + port == "https" + [':'] + ("//127.0.0.1" + [':'] + port);
    if ':' !in port then
      SplitOfFree(port, ':');
      SplitAtFirst("//127.0.0.1", ':', port);
      SplitAtFirst("https", ':', "//127.0.0.1" + [':'] + port);
      UrlPrefix + port
    else UrlPrefix + port
  }

  /**
   * The parsing body of `readCredentials`: split on ':', reject fewer than four
   * parts and an empty port (part 2) or token (part 3), otherwise build the
   * record.
   */
  function ParseLockfile(content: string): (r: Option<Credentials>)
    ensures Count(content, ':') < 3 ==> r.None?
    ensures r.Some? ==> r.value.port != "" && ':' !in r.value.port
    ensures r.Some? ==> r.value.token != "" && ':' !in r.value.token
    ensures r.Some? ==> Split(r.value.baseUrl, ':') == ["https", "//127.0.0.1", r.value.port]
    ensures r.Some? ==> BasicAuth.ParseHeader(r.value.authHeader) == Some((User, r.value.token))
  {
    var parts := Split(content, ':');
    SplitLength(content, ':');
    SplitPartsFree(content, ':');
    if |parts| < 4 then None
    else
      var port, token := parts[2], parts[3];
      if port == "" || token == "" then None
      else
        BasicAuth.HeaderRoundTrip(User, token);
        Some(Credentials(port, token, BaseUrl(port), BasicAuth.Header(User, token)))
  }

  /** Exactly when parsing succeeds, and what it then returns. */
  lemma ParseFields(content: string)
    ensures var parts := Split(content, ':');
            ParseLockfile(content).Some? <==> |parts| >= 4 && parts[2] != "" && parts[3] != ""
    ensures var parts := Split(content, ':');
            ParseLockfile(content).Some? ==>
              ParseLockfile(content).value == Credentials(parts[2], parts[3], UrlPrefix + parts[2], BasicAuth.Header(User, parts[3]))
  {
  }

  /** A lockfile written as colon-joined fields parses to its fields 2 and 3. */
  lemma {:induction false} ParseJoin(fields: seq<string>)
    requires |fields| >= 4 && FreeOf(fields, ':')
    ensures ParseLockfile(Join(fields, ':')) ==
              if fields[2] == "" || fields[3] == "" then None
              else Some(Credentials(fields[2], fields[3], UrlPrefix + fields[2], BasicAuth.Header(User, fields[3])))
  {
    SplitJoin(fields, ':');
  }

  /** The round trip for the client's own format `pid:name:port:token:protocol`. */
  lemma ParseRoundTrip(pid: string, name: string, port: string, token: string, protocol: string)
    requires ':' !in pid && ':' !in name && ':' !in port && ':' !in token && ':' !in protocol
    requires port != "" && token != ""
    ensures ParseLockfile(pid + ":" + name + ":" + port + ":" + token + ":" + protocol) ==
              Some(Credentials(port, token, UrlPrefix + port, BasicAuth.Header(User, token)))
  {
    var fields := [pid, name, port, token, protocol];
    assert FreeOf(fields, ':') by {
      forall i | 0 <= i < 5 ensures ':' !in fields[i] {
        assert i == 0 || i == 1 || i == 2 || i == 3 || i == 4;
      }
    }
    assert Join(fields[3..], ':') == token + ":" + protocol;
    assert Join(fields[2..], ':') == port + ":" + token + ":" + protocol;
    assert Join(fields[1..], ':') == name + ":" + port + ":" + token + ":" + protocol;
    assert Join(fields, ':') == pid + ":" + name + ":" + port + ":" + token + ":" + protocol;
    ParseJoin(fields);
  }

  /** Fields other than 2 and 3 (process id, name, protocol, anything after) do not matter. */
  lemma {:induction false} ParseIgnoresOtherFields(f: seq<string>, g: seq<string>)
    requires |f| >= 4 && |g| >= 4 && FreeOf(f, ':') && FreeOf(g, ':')
    requires f[2] == g[2] && f[3] == g[3]
    ensures ParseLockfile(Join(f, ':')) == ParseLockfile(Join(g, ':'))
  {
    ParseJoin(f);
    ParseJoin(g);
  }

  /**
   * `readCredentials`: locate the lockfile for `platform`, read it with
   * `readFile` (None for any read failure, ENOENT or other), and parse it.
   * Every failure resolves to None; nothing escapes as an error.
   */
  function ReadCredentials(platform: string, readFile: string -> Option<string>): (r: Option<Credentials>)
    ensures platform != "win32" && platform != "darwin" ==> r.None?
    ensures r.Some? <==> LockfilePath(platform).Some? && readFile(LockfilePath(platform).value).Some?
                          && ParseLockfile(readFile(LockfilePath(platform).value).value).Some?
    ensures r.Some? ==> r == ParseLockfile(readFile(LockfilePath(platform).value).value)
  {
    match LockfilePath(platform)
    case None => None
    case Some(path) =>
      match readFile(path)
      case None => None
      case Some(content) => ParseLockfile(content)
  }
}
