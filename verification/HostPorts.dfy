/** Listen addresses as text, and the order of text: what the registry needs of net, strconv and sort. */
module HostPorts {
  import opened Wrappers
  import opened Decimal
  import opened Sorting

  function IndexOf(s: string, c: char): (r: int)
    ensures -1 <= r < |s|
    ensures r >= 0 ==> s[r] == c && c !in s[..r]
    ensures r < 0 ==> c !in s
  {
    if s == "" then -1
    else if s[0] == c then 0
    else
      var rest := IndexOf(s[1..], c);
      if rest < 0 then -1 else rest + 1
  }

  function LastIndexOf(s: string, c: char): (r: int)
    ensures -1 <= r < |s|
    ensures r >= 0 ==> s[r] == c && c !in s[r + 1..]
    ensures r < 0 ==> c !in s
  {
    if s == "" then -1
    else if s[|s| - 1] == c then |s| - 1
    else LastIndexOf(s[..|s| - 1], c)
  }

  /** net.SplitHostPort: host:port, or [host]:port for a host with colons. */
  function SplitHostPort(address: string): Option<(string, string)> {
    var colon := LastIndexOf(address, ':');
    if colon < 0 then None
    else if address[0] == '[' then
      var end := IndexOf(address, ']');
      if end < 0 || end + 1 != colon || '[' in address[1..] || ']' in address[end + 1..] then None
      else Some((address[1..end], address[colon + 1..]))
    else if ':' in address[..colon] || '[' in address || ']' in address then None
    else Some((address[..colon], address[colon + 1..]))
  }

  function JoinHostPort(host: string, port: string): string {
    if ':' in host then "[" + host + "]:" + port else host + ":" + port
  }

  predicate Bracketless(host: string) { '[' !in host && ']' !in host }

  lemma SplitHostIsBracketless(address: string)
    requires SplitHostPort(address).Some?
    ensures Bracketless(SplitHostPort(address).value.0)
  {
    var host := SplitHostPort(address).value.0;
    if address[0] == '[' {
      var end := IndexOf(address, ']');
      assert forall c :: c in host ==> c in address[1..] && c in address[..end];
    } else {
      assert forall c :: c in host ==> c in address;
    }
  }

  lemma LastIndexIs(s: string, c: char, i: nat)
    requires i < |s| && s[i] == c && c !in s[i + 1..]
    ensures LastIndexOf(s, c) == i
  {
    assert c in s;
  }

  lemma FirstIndexIs(s: string, c: char, i: nat)
    requires i < |s| && s[i] == c && c !in s[..i]
    ensures IndexOf(s, c) == i
  {
    assert c in s;
  }

  lemma PortIsPlain(port: string)
    requires AllDigits(port)
    ensures ':' !in port && '[' !in port && ']' !in port
  {
  }

  lemma SplitJoin(host: string, port: string)
    requires Bracketless(host) && AllDigits(port)
    ensures SplitHostPort(JoinHostPort(host, port)) == Some((host, port))
  {
    hide AllDigits, SplitHostPort;
    PortIsPlain(port);
    if ':' in host {
      SplitBracketed(host, port);
    } else {
      SplitPlain(host, port);
    }
  }

  lemma SplitBracketed(host: string, port: string)
    requires Bracketless(host) && ':' !in port && '[' !in port && ']' !in port
    ensures SplitHostPort("[" + host + "]:" + port) == Some((host, port))
  {
    hide IndexOf, LastIndexOf;
    var address := "[" + host + "]:" + port;
    var end := |host| + 1;
    assert address[end + 2..] == port && address[1..end] == host && address[..end] == "[" + host;
    assert address[1..] == host + "]:" + port && address[end + 1..] == ":" + port;
    LastIndexIs(address, ':', end + 1);
    FirstIndexIs(address, ']', end);
  }

  lemma SplitPlain(host: string, port: string)
    requires Bracketless(host) && ':' !in host && ':' !in port && '[' !in port && ']' !in port
    ensures SplitHostPort(host + ":" + port) == Some((host, port))
  {
    hide IndexOf, LastIndexOf;
    var address := host + ":" + port;
    assert address[|host| + 1..] == port && address[..|host|] == host;
    LastIndexIs(address, ':', |host|);
    assert address[0] != '[' by { assert address[0] == if host == "" then ':' else host[0]; }
  }

  // ---- the order of text ----

  /** Byte order: a prefix comes first. */
  predicate TextLe(a: string, b: string) {
    a == "" || (b != "" && (a[0] < b[0] || (a[0] == b[0] && TextLe(a[1..], b[1..]))))
  }

  lemma {:induction false} TextTotal(a: string, b: string)
    ensures TextLe(a, b) || TextLe(b, a)
    ensures TextLe(a, b) && TextLe(b, a) ==> a == b
  {
    if a != "" && b != "" && a[0] == b[0] {
      TextTotal(a[1..], b[1..]);
      assert a == [a[0]] + a[1..] && b == [b[0]] + b[1..];
    }
  }

  lemma {:induction false} TextTransitive(a: string, b: string, c: string)
    requires TextLe(a, b) && TextLe(b, c)
    ensures TextLe(a, c)
  {
    if a != "" && a[0] == b[0] == c[0] {
      TextTransitive(a[1..], b[1..], c[1..]);
    }
  }
}
