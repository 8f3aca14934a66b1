/** appband/parsers/lsof.py: remote endpoints printed by lsof, and which addresses are local. */
module Lsof {
  import opened Basics
  import opened Text

  datatype LsofRow = LsofRow(
    process: string, pid: int, remoteIp: string, remotePort: Option<int>, protocol: string, scope: string)

  // ---------------------------------------------------------------------------------
  // Address classes, by text prefix.

  function AsciiLower(c: char): char {
    if 'A' <= c <= 'Z' then (c as int + 32) as char else c
  }

  /** Whether a text begins with a lower-case ASCII prefix, in whatever case. */
  predicate LowerStartsWith(s: string, prefix: string) {
    |prefix| <= |s| && forall i :: 0 <= i < |prefix| ==> AsciiLower(s[i]) == prefix[i]
  }

  function ClassifyScope(ip: string): (scope: string)
    ensures scope == "lan" || scope == "internet"
  {
    if StartsWith(ip, "10.") then "lan"
    else if StartsWith(ip, "192.168.") then "lan"
    else
      var second := if StartsWith(ip, "172.") then SecondField(ip) else None;
      if StartsWith(ip, "172.") && second.None? then "internet"
      else if second.Some? && 16 <= second.value <= 31 then "lan"
      else if LowerStartsWith(ip, "fc") || LowerStartsWith(ip, "fd") then "lan"
      else "internet"
  }

  /** The number after the first dot; None where there is no dot or no number. */
  function SecondField(ip: string): Option<int> {
    var fields := Split(ip, '.');
    if |fields| < 2 then None else ParseInt(fields[1])
  }

  predicate IsExcluded(ip: string) {
    || StartsWith(ip, "127.") || ip == "::1"
    || StartsWith(ip, "169.254.")
    || LowerStartsWith(ip, "fe80")
  }

  /** On any text: lan exactly by these prefixes, in whatever case where they are letters. */
  lemma ScopeOfText(ip: string)
    ensures ClassifyScope(ip) == "lan" <==>
              || StartsWith(ip, "10.") || StartsWith(ip, "192.168.")
              || (StartsWith(ip, "172.") && SecondField(ip).Some? && 16 <= SecondField(ip).value <= 31)
              || (|ip| >= 2 && ip[0] in {'f', 'F'} && ip[1] in {'c', 'C', 'd', 'D'})
  {
  }

  /** On any text: excluded exactly by these prefixes and the one address. */
  lemma ExcludedText(ip: string)
    ensures IsExcluded(ip) <==>
              || StartsWith(ip, "127.") || StartsWith(ip, "169.254.") || ip == "::1"
              || (|ip| >= 4 && ip[0] in {'f', 'F'} && ip[1] in {'e', 'E'} && ip[2] == '8' && ip[3] == '0')
  {
  }

  /** The canonical dotted quad of a 32-bit address. */
  function DottedQuad(n: nat): string
    requires n < 0x1_0000_0000
  {
    PrintNat(n / 0x100_0000) + "." + (PrintNat(n / 0x1_0000 % 0x100) + "."
    + (PrintNat(n / 0x100 % 0x100) + "." + PrintNat(n % 0x100)))
  }

  /** Section 3 of RFC 1918: 10/8, 172.16/12 and 192.168/16. */
  predicate IsPrivate(n: nat) {
    || 0x0A00_0000 <= n <= 0x0AFF_FFFF
    || 0xAC10_0000 <= n <= 0xAC1F_FFFF
    || 0xC0A8_0000 <= n <= 0xC0A8_FFFF
  }

  /** 127/8 of section 3.2.1.3 of RFC 1122 and 169.254/16 of section 2.1 of RFC 3927. */
  predicate IsLocalOnly(n: nat) {
    || 0x7F00_0000 <= n <= 0x7FFF_FFFF
    || 0xA9FE_0000 <= n <= 0xA9FE_FFFF
  }

  lemma FirstOctet(a: nat, x: string, k: nat, numeral: string)
    requires numeral == PrintNat(k)
    ensures StartsWith(PrintNat(a) + "." + x, numeral + ".") <==> a == k
  {
    assert '.' !in PrintNat(a) && '.' !in numeral;
    assert numeral + "." == numeral + ['.'] + "";
    PrefixCut(PrintNat(a), x, numeral, "", '.');
    if PrintNat(a) == numeral {
      PrintInjective(a, k);
    }
  }

  lemma TwoOctets(a: nat, b: nat, x: string, k: nat, l: nat, first: string, second: string, prefix: string)
    requires first == PrintNat(k) && second == PrintNat(l) && prefix == first + "." + (second + ".")
    ensures StartsWith(PrintNat(a) + "." + (PrintNat(b) + "." + x), prefix) <==> a == k && b == l
  {
    assert '.' !in PrintNat(a) && '.' !in first;
    PrefixCut(PrintNat(a), PrintNat(b) + "." + x, first, second + ".", '.');
    FirstOctet(b, x, l, second);
    if PrintNat(a) == first {
      PrintInjective(a, k);
    }
  }

  lemma Numerals()
    ensures PrintNat(10) == "10" && PrintNat(192) == "192" && PrintNat(168) == "168" && PrintNat(172) == "172"
    ensures PrintNat(127) == "127" && PrintNat(169) == "169" && PrintNat(254) == "254"
  {
    assert PrintNat(1) == "1" && PrintNat(2) == "2";
    assert PrintNat(19) == "19" && PrintNat(16) == "16" && PrintNat(17) == "17";
    assert PrintNat(12) == "12" && PrintNat(25) == "25";
  }

  /** The second field of a dotted quad is its second octet. */
  lemma SecondFieldIsOctet(a: nat, b: nat, x: string)
    ensures SecondField(PrintNat(a) + "." + (PrintNat(b) + "." + x)) == Some(b)
  {
    assert '.' !in PrintNat(a) && '.' !in PrintNat(b);
    SplitFirst(PrintNat(a), '.', PrintNat(b) + "." + x);
    SplitFirst(PrintNat(b), '.', x);
    ParsePrinted(b);
  }

  /** What the source's prefix tests see of a dotted quad. */
  ghost predicate QuadPrefixes(ip: string, a: nat, b: nat) {
    && (StartsWith(ip, "10.") <==> a == 10)
    && (StartsWith(ip, "172.") <==> a == 172)
    && (StartsWith(ip, "127.") <==> a == 127)
    && (StartsWith(ip, "192.168.") <==> a == 192 && b == 168)
    && (StartsWith(ip, "169.254.") <==> a == 169 && b == 254)
  }

  lemma FirstPrefixes(a: nat, rest: string)
    ensures var ip := PrintNat(a) + "." + rest;
            && (StartsWith(ip, "10.") <==> a == 10)
            && (StartsWith(ip, "172.") <==> a == 172)
            && (StartsWith(ip, "127.") <==> a == 127)
  {
    Numerals();
    assert "10" + "." == "10." && "172" + "." == "172." && "127" + "." == "127.";
    FirstOctet(a, rest, 10, "10");
    FirstOctet(a, rest, 172, "172");
    FirstOctet(a, rest, 127, "127");
  }

  lemma Literals()
    ensures "192.168." == "192" + "." + ("168" + ".") && "169.254." == "169" + "." + ("254" + ".")
  {
  }

  lemma LanPrefix(a: nat, b: nat, x: string)
    ensures StartsWith(PrintNat(a) + "." + (PrintNat(b) + "." + x), "192.168.") <==> a == 192 && b == 168
  {
    Numerals();
    Literals();
    TwoOctets(a, b, x, 192, 168, "192", "168", "192.168.");
  }

  lemma LinkLocalPrefix(a: nat, b: nat, x: string)
    ensures StartsWith(PrintNat(a) + "." + (PrintNat(b) + "." + x), "169.254.") <==> a == 169 && b == 254
  {
    Numerals();
    Literals();
    TwoOctets(a, b, x, 169, 254, "169", "254", "169.254.");
  }

  lemma PrefixesOfQuad(a: nat, b: nat, x: string)
    ensures QuadPrefixes(PrintNat(a) + "." + (PrintNat(b) + "." + x), a, b)
  {
    FirstPrefixes(a, PrintNat(b) + "." + x);
    LanPrefix(a, b, x);
    LinkLocalPrefix(a, b, x);
  }

  lemma ScopeFromPrefixes(ip: string, a: nat, b: nat)
    requires QuadPrefixes(ip, a, b) && SecondField(ip) == Some(b)
    requires !LowerStartsWith(ip, "fc") && !LowerStartsWith(ip, "fd")
    ensures ClassifyScope(ip) == "lan" <==> a == 10 || (a == 172 && 16 <= b <= 31) || (a == 192 && b == 168)
  {
  }

  lemma QuadStarts(a: nat, rest: string)
    ensures StartsWith(PrintNat(a) + "." + rest, PrintNat(a))
  {
    assert (PrintNat(a) + "." + rest)[..|PrintNat(a)|] == PrintNat(a);
  }

  lemma ScopeOfQuad(a: nat, b: nat, x: string)
    ensures ClassifyScope(PrintNat(a) + "." + (PrintNat(b) + "." + x)) == "lan"
       <==> a == 10 || (a == 172 && 16 <= b <= 31) || (a == 192 && b == 168)
  {
    var ip := PrintNat(a) + "." + (PrintNat(b) + "." + x);
    PrefixesOfQuad(a, b, x);
    SecondFieldIsOctet(a, b, x);
    QuadStarts(a, PrintNat(b) + "." + x);
    StartsWithDigit(ip, PrintNat(a));
    ScopeFromPrefixes(ip, a, b);
  }

  /** Text prefixes equal numeric ranges, for every 32-bit address. */
  lemma ScopeIsPrivate(n: nat)
    requires n < 0x1_0000_0000
    ensures ClassifyScope(DottedQuad(n)) == "lan" <==> IsPrivate(n)
  {
    ScopeOfQuad(n / 0x100_0000, n / 0x1_0000 % 0x100, PrintNat(n / 0x100 % 0x100) + "." + PrintNat(n % 0x100));
    OctetRanges(n);
  }

  lemma StartsWithDigit(ip: string, octet: string)
    requires octet != "" && AllDigits(octet) && StartsWith(ip, octet)
    ensures !LowerStartsWith(ip, "fc") && !LowerStartsWith(ip, "fd") && !LowerStartsWith(ip, "fe80")
  {
    assert ip[0] == octet[0] && octet[0] in octet;
  }

  lemma OctetRanges(n: nat)
    requires n < 0x1_0000_0000
    ensures var a, b := n / 0x100_0000, n / 0x1_0000 % 0x100;
            && (IsPrivate(n) <==> a == 10 || (a == 172 && 16 <= b <= 31) || (a == 192 && b == 168))
            && (IsLocalOnly(n) <==> a == 127 || (a == 169 && b == 254))
  {
    var a, b, r := n / 0x100_0000, n / 0x1_0000 % 0x100, n % 0x1_0000;
    assert n == a * 0x100_0000 + b * 0x1_0000 + r;
  }

  lemma ExcludedIsLocalOnly(n: nat)
    requires n < 0x1_0000_0000
    ensures IsExcluded(DottedQuad(n)) <==> IsLocalOnly(n)
  {
    var a, b := n / 0x100_0000, n / 0x1_0000 % 0x100;
    var x := PrintNat(n / 0x100 % 0x100) + "." + PrintNat(n % 0x100);
    var ip := DottedQuad(n);
    assert ip == PrintNat(a) + "." + (PrintNat(b) + "." + x);
    PrefixesOfQuad(a, b, x);
    StartsWithDigit(ip, PrintNat(a));
    assert IsDigit(ip[0]);
    OctetRanges(n);
  }

  // ---------------------------------------------------------------------------------
  // Endpoints.

  datatype Endpoint = Endpoint(ip: string, port: Option<int>)

  function StripZone(ip: string): string {
    ip[..Find(ip, '%')]
  }

  /** None where the source raises: a bracket that is never closed. */
  function SplitEndpoint(token: string): Option<Endpoint> {
    if StartsWith(token, "[") then
      var end := Find(token, ']');
      if end == |token| then None
      else
        var ip, rest := StripZone(token[1..end]), token[end + 1..];
        if StartsWith(rest, ":") then Some(Endpoint(ip, ParseInt(rest[1..]))) else Some(Endpoint(ip, None))
    else
      var colon := Find(token, ':');
      if colon < |token| && ':' !in token[colon + 1..]
      then Some(Endpoint(StripZone(token[..colon]), ParseInt(token[colon + 1..])))
      else Some(Endpoint(StripZone(token), None))
  }

  lemma FindFirst(a: string, c: char, b: string)
    requires c !in a
    ensures Find(a + [c] + b, c) == |a|
  {
    var s := a + [c] + b;
    var i := Find(s, c);
    assert s[|a|] == c && i < |s|;
    assert s == s[..i] + [c] + s[i + 1..];
    CutUnique(a, b, s[..i], s[i + 1..], c);
  }

  lemma ZoneDropped(ip: string, zone: Option<string>)
    requires '%' !in ip
    ensures StripZone(ip + if zone.Some? then "%" + zone.value else "") == ip
  {
    if zone.Some? {
      assert ip + ("%" + zone.value) == ip + ['%'] + zone.value;
      FindFirst(ip, '%', zone.value);
    } else {
      assert ip + "" == ip;
    }
  }

  /** "host:port" comes back as the host and the port, and so every IPv4 endpoint. */
  lemma HostPortRecovered(host: string, port: nat)
    requires ':' !in host && '%' !in host && !StartsWith(host, "[")
    ensures SplitEndpoint(host + ":" + PrintNat(port)) == Some(Endpoint(host, Some(port)))
  {
    var token := host + [':'] + PrintNat(port);
    FindFirst(host, ':', PrintNat(port));
    assert token[|host| + 1..] == PrintNat(port) && token[..|host|] == host;
    assert ':' !in PrintNat(port);
    StartsWithChar(token, '[');
    StartsWithChar(host, '[');
    assert token[0] == if host == "" then ':' else host[0];
    ZoneDropped(host, None);
    assert host + "" == host;
    ParsePrinted(port);
  }

  /** A port that is no number is dropped, and so is everything after an address in brackets but a port. */
  lemma UnreadablePort(host: string, port: string)
    requires ':' !in host && ':' !in port && '%' !in host && !StartsWith(host, "[") && ParseInt(port).None?
    ensures SplitEndpoint(host + ":" + port) == Some(Endpoint(host, None))
  {
    var token := host + [':'] + port;
    FindFirst(host, ':', port);
    assert token[|host| + 1..] == port && token[..|host|] == host;
    StartsWithChar(token, '[');
    StartsWithChar(host, '[');
    assert token[0] == if host == "" then ':' else host[0];
    ZoneDropped(host, None);
    assert host + "" == host;
  }

  /** An address in brackets alone has no port, and a bracket that is never closed is an error. */
  lemma BracketsAlone(ip: string)
    requires ']' !in ip && '%' !in ip
    ensures SplitEndpoint("[" + ip + "]") == Some(Endpoint(ip, None))
    ensures SplitEndpoint("[" + ip).None?
  {
    var token := ("[" + ip) + [']'] + "";
    FindFirst("[" + ip, ']', "");
    assert "[" + ip + "]" == token && token[..1] == "[" && token[1..|ip| + 1] == ip && token[|ip| + 2..] == "";
    assert ("[" + ip)[..1] == "[";
    ZoneDropped(ip, None);
    assert ip + "" == ip;
  }

  lemma QuadCharacters(n: nat)
    requires n < 0x1_0000_0000
    ensures DottedQuad(n) != "" && IsDigit(DottedQuad(n)[0])
    ensures forall c :: c in DottedQuad(n) ==> IsDigit(c) || c == '.'
  {
    var w, x := PrintNat(n / 0x100_0000), PrintNat(n / 0x1_0000 % 0x100);
    var y, z := PrintNat(n / 0x100 % 0x100), PrintNat(n % 0x100);
    assert DottedQuad(n) == w + "." + (x + "." + (y + "." + z));
    assert DottedQuad(n)[0] == w[0] && w[0] in w;
    OneDot(y, z);
    OneDot(x, y + "." + z);
    OneDot(w, x + "." + (y + "." + z));
  }

  lemma OneDot(a: string, b: string)
    requires AllDigits(a) && forall c :: c in b ==> IsDigit(c) || c == '.'
    ensures forall c :: c in a + "." + b ==> IsDigit(c) || c == '.'
  {
  }

  lemma Ipv4Recovered(n: nat, port: nat)
    requires n < 0x1_0000_0000
    ensures SplitEndpoint(DottedQuad(n) + ":" + PrintNat(port)) == Some(Endpoint(DottedQuad(n), Some(port)))
  {
    QuadCharacters(n);
    StartsWithChar(DottedQuad(n), '[');
    HostPortRecovered(DottedQuad(n), port);
  }

  /** "[ip]:port" and "[ip%zone]:port" come back as the bare address and the port. */
  lemma BracketedRecovered(ip: string, zone: Option<string>, port: nat)
    requires ']' !in ip && '%' !in ip && (zone.Some? ==> ']' !in zone.value)
    ensures SplitEndpoint("[" + (ip + if zone.Some? then "%" + zone.value else "") + "]:" + PrintNat(port))
         == Some(Endpoint(ip, Some(port)))
  {
    var inside := ip + if zone.Some? then "%" + zone.value else "";
    var head, tail := "[" + inside, ":" + PrintNat(port);
    var token := "[" + inside + "]:" + PrintNat(port);
    assert token == head + [']'] + tail;
    FindFirst(head, ']', tail);
    assert token[..1] == "[";
    assert token[1..|head|] == inside && token[|head| + 1..] == tail;
    assert tail[..1] == ":" && tail[1..] == PrintNat(port);
    ZoneDropped(ip, zone);
    ParsePrinted(port);
  }

  /** A bare address with two colons or more keeps all of them and has no port. */
  lemma BareRecovered(a: string, b: string, c: string, zone: Option<string>)
    requires '%' !in a + ":" + b + ":" + c && ':' !in a && !StartsWith(a, "[")
    ensures var ip := a + ":" + b + ":" + c;
            SplitEndpoint(ip + if zone.Some? then "%" + zone.value else "") == Some(Endpoint(ip, None))
  {
    var ip := a + ":" + b + ":" + c;
    var z := if zone.Some? then "%" + zone.value else "";
    var token := ip + z;
    assert token == a + [':'] + (b + ":" + c + z);
    FindFirst(a, ':', b + ":" + c + z);
    assert token[|a| + 1..] == b + ":" + c + z;
    assert (b + ":" + c + z)[|b|] == ':';
    StartsWithChar(token, '[');
    StartsWithChar(a, '[');
    assert token[0] == if a == "" then ':' else a[0];
    ZoneDropped(ip, zone);
  }
}
