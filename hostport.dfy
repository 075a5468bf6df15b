/** The two string helpers the endpoint resolver uses: Go's
    `strings.TrimSuffix` and `net.JoinHostPort`, the latter with the
    splitting function that undoes it. */
module HostPort {
  import opened Prelude

  predicate HasSuffix(s: string, suffix: string) {
    |suffix| <= |s| && s[|s| - |suffix|..] == suffix
  }

  /** `strings.TrimSuffix`: removes ONE occurrence of `suffix` from the end
      of `s` when it is there, and otherwise returns `s` itself. */
  function TrimSuffix(s: string, suffix: string): (r: string)
    ensures HasSuffix(s, suffix) ==> r + suffix == s
    ensures !HasSuffix(s, suffix) ==> r == s
  {
    if HasSuffix(s, suffix) then s[..|s| - |suffix|] else s
  }

  /** A fully qualified DNS name loses only its last dot. */
  lemma TrimSuffixDropsOneDot(name: string)
    ensures TrimSuffix(name + ".", ".") == name
    ensures TrimSuffix(name + "..", ".") == name + "."
  {
    assert (name + ".") [..|name|] == name;
    assert (name + "..")[..|name| + 1] == name + ".";
  }

  /** `net.JoinHostPort`: `host:port`, with the host in square brackets
      when it contains a colon (an IPv6 literal). */
  function JoinHostPort(host: string, port: string): (r: string)
    ensures ':' in host ==> r == "[" + host + "]:" + port
    ensures ':' !in host ==> r == host + ":" + port
  {
    if ':' in host then "[" + host + "]:" + port else host + ":" + port
  }

  /** Position of the last `c` in `s`. */
  function LastIndexOf(s: string, c: char): (r: Option<nat>)
    ensures r.Some? ==> r.value < |s| && s[r.value] == c
    ensures r.Some? ==> forall j :: r.value < j < |s| ==> s[j] != c
    ensures r.None? ==> c !in s
  {
    if |s| == 0 then None
    else if s[|s| - 1] == c then Some(|s| - 1)
    else LastIndexOf(s[..|s| - 1], c)
  }

  predicate Bracketed(host: string) {
    |host| >= 2 && host[0] == '[' && host[|host| - 1] == ']'
  }

  /** Splits `host:port` at the last colon and takes the brackets off a
      bracketed host, like `net.SplitHostPort`. */
  function SplitHostPort(hostport: string): Option<(string, string)> {
    match LastIndexOf(hostport, ':')
    case None => None
    case Some(i) =>
      var host := hostport[..i];
      var port := hostport[i + 1..];
      if Bracketed(host) then Some((host[1..|host| - 1], port))
      else if ':' in host then None
      else Some((host, port))
  }

  lemma {:induction false} LastColonBeforePort(prefix: string, port: string)
    requires ':' !in port
    ensures LastIndexOf(prefix + ":" + port, ':') == Some(|prefix|)
    decreases |port|
  {
    var s := prefix + ":" + port;
    if |port| > 0 {
      var shorter := port[..|port| - 1];
      assert s[|s| - 1] == port[|port| - 1];
      assert s[..|s| - 1] == prefix + ":" + shorter;
      assert forall c :: c in shorter ==> c in port;
      LastColonBeforePort(prefix, shorter);
    }
  }

  lemma SplitAtLastColon(prefix: string, port: string)
    requires ':' !in port
    ensures SplitHostPort(prefix + ":" + port) ==
      if Bracketed(prefix) then Some((prefix[1..|prefix| - 1], port))
      else if ':' in prefix then None
      else Some((prefix, port))
  {
    var s := prefix + ":" + port;
    LastColonBeforePort(prefix, port);
    assert s[..|prefix|] == prefix;
    assert s[|prefix| + 1..] == port;
  }

  /** The endpoint strings handed to the HTTP client can be taken apart
      again into the host and the port they were built from. */
  lemma JoinSplitRoundTrip(host: string, port: string)
    requires ':' !in port && '[' !in host
    ensures SplitHostPort(JoinHostPort(host, port)) == Some((host, port))
  {
    if ':' in host {
      var prefix := "[" + host + "]";
      assert JoinHostPort(host, port) == prefix + ":" + port;
      SplitAtLastColon(prefix, port);
      assert Bracketed(prefix);
      assert prefix[1..|prefix| - 1] == host;
    } else {
      SplitAtLastColon(host, port);
      if |host| >= 2 {
        assert host[0] in host;
      }
    }
  }
}
