/**
 * The listen address of Api/homework/cmd: `HTTP_HOST` and `HTTP_PORT` from
 * the environment (a map here; an unset variable reads as ""), each with a
 * default, joined by `net.JoinHostPort`.
 */
module ApiCmd {
  import opened Wrappers
  import opened Environment

  /**
   * A host that `SplitHostPort` reads back as itself once joined: either it
   * holds a colon (and is bracketed), or it is not already of the form
   * "[...]".
   */
  predicate Unambiguous(host: string)
  {
    ':' in host || !(|host| >= 2 && host[0] == '[' && host[|host| - 1] == ']')
  }

  /**
   * `net.JoinHostPort`: "host:port", with the host in brackets when it
   * contains a colon (an IPv6 literal). Nothing is lost: the host and a
   * colon-free port come back apart.
   */
  function JoinHostPort(host: string, port: string): (r: string)
    ensures ':' in host ==> "[" + host + "]:" <= r
    ensures ':' !in host ==> host + ":" <= r
    ensures |r| > |port| && r[|r| - |port| - 1..] == ":" + port
    ensures ':' !in port && Unambiguous(host) ==> SplitHostPort(r) == Some((host, port))
  {
    if ':' in host then
      var r := "[" + host + "]:" + port;
      SplitBracketed(host, port);
      assert r[|r| - |port| - 1..] == ":" + port;
      r
    else
      var r := host + ":" + port;
      SplitPlain(host, port);
      assert r[|r| - |port| - 1..] == ":" + port;
      r
  }

  /**
   * `Address`: an empty host becomes "localhost" and an empty port "8080";
   * non-empty values are used as they are.
   */
  function Address(env: map<string, string>): (r: string)
    ensures Getenv(env, "HTTP_HOST") == "" && Getenv(env, "HTTP_PORT") == "" ==> r == "localhost:8080"
    ensures Getenv(env, "HTTP_HOST") == "" ==> "localhost:" <= r
    ensures Getenv(env, "HTTP_HOST") != "" && ':' !in Getenv(env, "HTTP_HOST") ==> Getenv(env, "HTTP_HOST") + ":" <= r
    ensures ':' in Getenv(env, "HTTP_HOST") ==> "[" + Getenv(env, "HTTP_HOST") + "]:" <= r
    ensures Getenv(env, "HTTP_PORT") == "" ==> |r| >= 5 && r[|r| - 5..] == ":8080"
    ensures Getenv(env, "HTTP_PORT") != "" ==>
      |r| > |Getenv(env, "HTTP_PORT")| && r[|r| - |Getenv(env, "HTTP_PORT")| - 1..] == ":" + Getenv(env, "HTTP_PORT")
  {
    var host := if Getenv(env, "HTTP_HOST") == "" then "localhost" else Getenv(env, "HTTP_HOST");
    var port := if Getenv(env, "HTTP_PORT") == "" then "8080" else Getenv(env, "HTTP_PORT");
    JoinHostDefault(Getenv(env, "HTTP_HOST"), port);
    JoinPortDefault(host, Getenv(env, "HTTP_PORT"));
    JoinHostPort(host, port)
  }

  /** How the defaulted host begins the joined address. */
  lemma JoinHostDefault(h: string, port: string)
    ensures var r := JoinHostPort(if h == "" then "localhost" else h, port);
      && (h == "" && port == "8080" ==> r == "localhost:8080")
      && (h == "" ==> "localhost:" <= r)
      && (h != "" && ':' !in h ==> h + ":" <= r)
      && (':' in h ==> "[" + h + "]:" <= r)
  {
    if h == "" {
      assert ':' !in "localhost";
      var r := JoinHostPort("localhost", port);
      assert "localhost" + ":" == "localhost:";
      if port == "8080" {
        assert r == "localhost:8080";
      }
    }
  }

  /** How the defaulted port ends the joined address. */
  lemma JoinPortDefault(host: string, p: string)
    ensures var r := JoinHostPort(host, if p == "" then "8080" else p);
      && (p == "" ==> |r| >= 5 && r[|r| - 5..] == ":8080")
      && (p != "" ==> |r| > |p| && r[|r| - |p| - 1..] == ":" + p)
  {
    if p == "" {
      assert ":" + "8080" == ":8080";
    }
  }

  /**
   * In every environment the address splits back into the host and port
   * used: the given values where non-empty, the defaults otherwise.
   */
  lemma AddressVerbatim(env: map<string, string>)
    requires ':' !in Getenv(env, "HTTP_PORT") && Unambiguous(Getenv(env, "HTTP_HOST"))
    ensures var host, port := Getenv(env, "HTTP_HOST"), Getenv(env, "HTTP_PORT");
      SplitHostPort(Address(env)) ==
        Some((if host == "" then "localhost" else host, if port == "" then "8080" else port))
  {
    assert ':' !in "8080";
    assert Unambiguous("localhost") by { assert "localhost"[0] != '['; }
  }

  /** The position of the last colon. */
  function LastColon(s: string): (r: Option<nat>)
    ensures r.Some? ==> r.value < |s| && s[r.value] == ':' && ':' !in s[r.value + 1..]
    ensures r.None? ==> ':' !in s
  {
    if s == [] then None
    else if s[|s| - 1] == ':' then Some(|s| - 1)
    else LastColon(s[..|s| - 1])
  }

  /**
   * A reference reading of "host:port" for addresses `JoinHostPort` writes:
   * the port follows the last colon, and brackets around the host are
   * removed.
   */
  function SplitHostPort(s: string): Option<(string, string)>
  {
    match LastColon(s)
    case None => None
    case Some(i) =>
      var h := s[..i];
      Some((if |h| >= 2 && h[0] == '[' && h[|h| - 1] == ']' then h[1..|h| - 1] else h, s[i + 1..]))
  }

  /** The colon before a colon-free suffix is the last one. */
  lemma {:induction false} LastColonBeforePort(front: string, port: string)
    requires ':' !in port
    ensures LastColon(front + ":" + port) == Some(|front|)
    decreases |port|
  {
    var s := front + ":" + port;
    if port != [] {
      assert port[|port| - 1] in port;
      assert s[..|s| - 1] == front + ":" + port[..|port| - 1];
      LastColonBeforePort(front, port[..|port| - 1]);
    }
  }

  /** A bracketed host and a colon-free port split back apart. */
  lemma SplitBracketed(host: string, port: string)
    ensures ':' !in port ==> SplitHostPort("[" + host + "]:" + port) == Some((host, port))
  {
    if ':' !in port {
      var s := "[" + host + "]:" + port;
      LastColonBeforePort("[" + host + "]", port);
      assert s == ("[" + host + "]") + ":" + port;
      assert s[..|host| + 2] == "[" + host + "]";
      assert s[|host| + 3..] == port;
    }
  }

  /** A plain host not of the form "[...]" and a colon-free port split back apart. */
  lemma SplitPlain(host: string, port: string)
    ensures ':' !in host && ':' !in port && Unambiguous(host) ==>
      SplitHostPort(host + ":" + port) == Some((host, port))
  {
    if ':' !in host && ':' !in port && Unambiguous(host) {
      var s := host + ":" + port;
      LastColonBeforePort(host, port);
      assert s[..|host|] == host;
      assert s[|host| + 1..] == port;
    }
  }
}
