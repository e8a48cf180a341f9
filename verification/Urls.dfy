/** The text form of a URL: parsing, printing, and exactly which texts survive
    being parsed, printed and parsed again. */
module Urls {
  import opened Basics

  type Text = seq<byte>

  datatype Url = Url(scheme: Text, host: Text, port: Text, path: Text)

  // ---------------------------------------------------------------------------
  // std::string::find.

  /** First position of `c` in `s`. */
  function Find(s: Text, c: byte): (r: Option<nat>)
    ensures r.Some? ==> r.value < |s| && s[r.value] == c && c !in s[..r.value]
    ensures r.None? ==> c !in s
  {
    if s == [] then None
    else if s[0] == c then Some(0)
    else match Find(s[1..], c)
         case None => None
         case Some(i) =>
           assert s[..i + 1] == [s[0]] + s[1..][..i];
           Some(i + 1)
  }

  predicate SepAt(s: Text, i: int)
  {
    0 <= i && i + 3 <= |s| && s[i] == ':' && s[i + 1] == '/' && s[i + 2] == '/'
  }

  /** First position of "://" in `s`. */
  function FindSep(s: Text): (r: Option<nat>)
    ensures r.Some? ==> SepAt(s, r.value) && forall i :: 0 <= i < r.value ==> !SepAt(s, i)
    ensures r.None? ==> forall i :: 0 <= i < |s| ==> !SepAt(s, i)
  {
    if SepAt(s, 0) then Some(0)
    else if s == [] then None
    else
      assert forall i :: 0 < i < |s| ==> (SepAt(s, i) <==> SepAt(s[1..], i - 1));
      match FindSep(s[1..])
      case None => None
      case Some(i) => Some(i + 1)
  }

  // ---------------------------------------------------------------------------
  // Parsing.

  predicate Delimiter(c: byte) { c == '/' || c == '?' || c == '#' }

  function Earlier(a: Option<nat>, b: Option<nat>): Option<nat>
  {
    if a.None? then b else if b.None? then a else Some(Min(a.value, b.value))
  }

  /** Where the authority ends: the first '/', '?' or '#'. */
  function AuthorityEnd(rest: Text): (r: Option<nat>)
    ensures r.Some? ==> r.value < |rest| && Delimiter(rest[r.value]) && forall i :: 0 <= i < r.value ==>
              !Delimiter(rest[i])
    ensures r.None? ==> forall i :: 0 <= i < |rest| ==> !Delimiter(rest[i])
  {
    Earlier(Earlier(Find(rest, '/'), Find(rest, '?')), Find(rest, '#'))
  }

  function SchemeOf(s: Text): Text
  {
    var e := FindSep(s);
    if e.Some? then s[..e.value] else "http"
  }

  /** What follows the scheme. */
  function RestOf(s: Text): Text
  {
    var e := FindSep(s);
    if e.Some? then s[e.value + 3..] else s
  }

  /** Host and port; the whole rest when it starts with a delimiter. */
  function AuthorityOf(rest: Text): Text
  {
    var e := AuthorityEnd(rest);
    if e.Some? && e.value > 0 then rest[..e.value] else rest
  }

  function PathOf(rest: Text): Text
  {
    var e := AuthorityEnd(rest);
    if e.Some? && e.value > 0
    then (if rest[e.value] == '/' then rest[e.value..] else ['/'] + rest[e.value..])
    else "/"
  }

  function DefaultPort(scheme: Text): Text { if scheme == "https" then "443" else "80" }

  function HostOf(authority: Text): Text
  {
    var c := Find(authority, ':');
    if c.Some? then authority[..c.value] else authority
  }

  function PortOf(authority: Text, scheme: Text): Text
  {
    var c := Find(authority, ':');
    if c.Some? then authority[c.value + 1..] else DefaultPort(scheme)
  }

  /** The URL of a text; an empty text is refused. */
  function Parse(s: Text): Option<Url>
  {
    if s == [] then None
    else
      var authority := AuthorityOf(RestOf(s));
      Some(Url(SchemeOf(s), HostOf(authority), PortOf(authority, SchemeOf(s)), PathOf(RestOf(s))))
  }

  lemma SchemePart(s: Text)
    ensures s == SchemeOf(s) + "://" + RestOf(s) || (s == RestOf(s) && SchemeOf(s) == "http")
  {
    var e := FindSep(s);
    if e.Some? { assert s == s[..e.value] + "://" + s[e.value + 3..]; }
  }

  lemma HostPart(a: Text, scheme: Text)
    ensures a == HostOf(a) + [':'] + PortOf(a, scheme)
            || (a == HostOf(a) && PortOf(a, scheme) == if scheme == "https" then "443" else "80")
  {
    var c := Find(a, ':');
    if c.Some? { assert a == a[..c.value] + [':'] + a[c.value + 1..]; }
  }

  lemma PathPart(rest: Text)
    ensures PathOf(rest) != [] && PathOf(rest)[0] == '/'
    ensures if AuthorityOf(rest) == rest then PathOf(rest) == "/"
            else rest == AuthorityOf(rest) + PathOf(rest) || rest == AuthorityOf(rest) + PathOf(rest)[1..]
  {
    var h := AuthorityEnd(rest);
    if h.Some? && h.value > 0 {
      assert rest == rest[..h.value] + rest[h.value..];
      assert (['/'] + rest[h.value..])[1..] == rest[h.value..];
    }
  }

  /** Parsing drops nothing but separators: the scheme, the authority and the path,
      query and fragment make up the text, and the host and the port make up the
      authority. */
  lemma NothingLost(s: Text)
    requires s != []
    ensures var u, rest := Parse(s).value, RestOf(s);
            && (s == u.scheme + "://" + rest || (s == rest && u.scheme == "http"))
            && (AuthorityOf(rest) == u.host + [':'] + u.port
                || (AuthorityOf(rest) == u.host && u.port == if u.scheme == "https" then "443" else "80"))
            && u.path != [] && u.path[0] == '/'
            && (if AuthorityOf(rest) == rest then u.path == "/"
                else rest == AuthorityOf(rest) + u.path || rest == AuthorityOf(rest) + u.path[1..])
  {
    SchemePart(s);
    HostPart(AuthorityOf(RestOf(s)), SchemeOf(s));
    PathPart(RestOf(s));
  }

  // ---------------------------------------------------------------------------
  // Printing.

  /** The port is printed unless it is empty or the default of http or https. */
  predicate PortShown(u: Url)
  {
    u.port != [] && !((u.scheme == "http" && u.port == "80") || (u.scheme == "https" && u.port == "443"))
  }

  function PrintAuthority(u: Url): Text
  {
    u.host + if PortShown(u) then [':'] + u.port else []
  }

  function PrintPath(u: Url): Text
  {
    if u.path == [] then [] else if u.path[0] != '/' then ['/'] + u.path else u.path
  }

  function Print(u: Url): Text
  {
    (if u.scheme == [] then [] else u.scheme + "://") + (PrintAuthority(u) + PrintPath(u))
  }

  /** The printed form: the default port of the scheme is left out. */
  lemma PrintedForms(host: Text, port: Text, path: Text)
    requires path != [] && path[0] == '/' && port != []
    ensures Print(Url("http", host, "80", path)) == "http://" + (host + path)
    ensures Print(Url("https", host, "443", path)) == "https://" + (host + path)
    ensures port != "80" ==> Print(Url("http", host, port, path)) == "http://" + (host + ([':'] + port) + path)
    ensures port != "443" ==> Print(Url("https", host, port, path)) == "https://" + (host + ([':'] + port) + path)
  {
    assert host + [] == host;
  }

  /** Without a scheme or a port nothing is printed for it, and a path gets its slash. */
  lemma PrintedParts(scheme: Text, host: Text, path: Text)
    requires path != [] && path[0] != '/'
    ensures Print(Url([], host, [], path)) == host + (['/'] + path)
    ensures Print(Url([], host, [], [])) == host
    ensures scheme != [] ==> Print(Url(scheme, host, [], path)) == scheme + "://" + (host + (['/'] + path))
  {
    assert host + [] == host;
  }

  // ---------------------------------------------------------------------------
  // The source's methods.

  /** The end of the authority, by three searches and two minima. */
  method FindHostEnd(rest: Text) returns (hostEnd: Option<nat>)
    ensures hostEnd == AuthorityEnd(rest)
  {
    hostEnd := Find(rest, '/');
    var queryStart := Find(rest, '?');
    if queryStart.Some? {
      hostEnd := if hostEnd.None? then queryStart else Some(Min(hostEnd.value, queryStart.value));
    }
    var fragmentStart := Find(rest, '#');
    if fragmentStart.Some? {
      hostEnd := if hostEnd.None? then fragmentStart else Some(Min(hostEnd.value, fragmentStart.value));
    }
  }

  method SplitPort(hostPort: Text, scheme: Text) returns (host: Text, port: Text)
    ensures host == HostOf(hostPort) && port == PortOf(hostPort, scheme)
  {
    var portStart := Find(hostPort, ':');
    if portStart.Some? {
      host := hostPort[..portStart.value];
      port := hostPort[portStart.value + 1..];
    } else {
      host := hostPort;
      port := if scheme == "https" then "443" else "80";
    }
  }

  method ParseUrl(s: Text) returns (r: Option<Url>)
    ensures r == Parse(s)
  {
    if s == [] {
      return None;
    }
    var scheme: Text, rest := "http", s;
    var schemeEnd := FindSep(s);
    if schemeEnd.Some? {
      scheme := s[..schemeEnd.value];
      rest := s[schemeEnd.value + 3..];
    }
    var hostEnd := FindHostEnd(rest);
    var hostPort, path: Text := rest, "/";
    if hostEnd.Some? && hostEnd.value > 0 {
      hostPort := rest[..hostEnd.value];
      path := rest[hostEnd.value..];
      if rest[hostEnd.value] != '/' {
        path := ['/'] + path;
      }
    }
    assert hostPort == AuthorityOf(rest) && path == PathOf(rest);
    var host, port := SplitPort(hostPort, scheme);
    r := Some(Url(scheme, host, port, path));
  }

  method AppendAuthority(prefix: Text, u: Url) returns (text: Text)
    ensures text == prefix + PrintAuthority(u)
  {
    text := prefix + u.host;
    if u.port != [] {
      if !((u.scheme == "http" && u.port == "80") || (u.scheme == "https" && u.port == "443")) {
        text := text + ([':'] + u.port);
      }
    }
  }

  method AppendPath(prefix: Text, u: Url) returns (text: Text)
    ensures text == prefix + PrintPath(u)
  {
    text := prefix;
    if u.path != [] {
      if u.path[0] != '/' {
        text := text + ['/'];
      }
      text := text + u.path;
    }
  }

  method GetUrlString(u: Url) returns (text: Text)
    ensures text == Print(u)
  {
    text := [];
    if u.scheme != [] {
      text := u.scheme + "://";
    }
    ghost var prefix := text;
    text := AppendAuthority(text, u);
    text := AppendPath(text, u);
    assert text == prefix + (PrintAuthority(u) + PrintPath(u));
  }

  // ---------------------------------------------------------------------------
  // Which texts survive.

  /** The text does not come back changed: it has no empty scheme, its authority
      does not start with a delimiter, it has no empty port, and an empty host
      comes with a port that is printed. */
  predicate Survives(s: Text)
  {
    var rest := RestOf(s);
    var authority := AuthorityOf(rest);
    var port := PortOf(authority, SchemeOf(s));
    && SchemeOf(s) != []
    && (rest != [] ==> !Delimiter(rest[0]))
    && port != []
    && (HostOf(authority) != [] || PortShown(Url(SchemeOf(s), [], port, [])))
  }

  lemma {:induction false} FindAt(s: Text, c: byte, tail: Text)
    requires c !in s
    ensures Find(s + [c] + tail, c) == Some(|s|)
  {
    if s == [] {
      assert (s + [c] + tail)[0] == c;
    } else {
      FindAt(s[1..], c, tail);
      assert (s + [c] + tail)[1..] == s[1..] + [c] + tail;
    }
  }

  /** A scheme that was cut before the first "://" is found again. */
  lemma SchemeIsFound(scheme: Text, tail: Text)
    requires forall i :: 0 <= i < |scheme| ==> !SepAt(scheme, i)
    ensures FindSep(scheme + "://" + tail) == Some(|scheme|)
  {
    var t := scheme + "://" + tail;
    assert SepAt(t, |scheme|);
    forall i | 0 <= i < |scheme|
      ensures !SepAt(t, i)
    {
      if i + 3 <= |scheme| {
        assert !SepAt(scheme, i);
      } else if i + 2 == |scheme| {
        assert t[i + 2] == ':';
      } else {
        assert t[i + 1] == ':';
      }
    }
  }

  lemma SchemeHasNoSep(s: Text)
    ensures forall i :: 0 <= i < |SchemeOf(s)| ==> !SepAt(SchemeOf(s), i)
  {
    var e := FindSep(s);
    if e.Some? {
      forall i | 0 <= i < e.value
        ensures !SepAt(s[..e.value], i)
      {
        assert !SepAt(s, i);
      }
    }
  }

  /** Printed with a scheme, the text splits where it was put together. */
  lemma PrintSplits(s: Text)
    requires s != [] && SchemeOf(s) != []
    ensures var u := Parse(s).value;
            SchemeOf(Print(u)) == u.scheme && RestOf(Print(u)) == PrintAuthority(u) + PrintPath(u)
  {
    var u := Parse(s).value;
    SchemeHasNoSep(s);
    SchemeIsFound(u.scheme, PrintAuthority(u) + PrintPath(u));
    assert Print(u) == u.scheme + "://" + (PrintAuthority(u) + PrintPath(u));
  }

  /** An authority without delimiters, followed by a path, is found again. */
  lemma AuthorityIsFound(a: Text, path: Text)
    requires a != [] && (forall i :: 0 <= i < |a| ==> !Delimiter(a[i]))
    requires path != [] && path[0] == '/'
    ensures AuthorityOf(a + path) == a && PathOf(a + path) == path
  {
    var e := AuthorityEnd(a + path);
    assert (a + path)[|a|] == '/';
    assert forall i :: 0 <= i < |a| ==> (a + path)[i] == a[i];
    assert e == Some(|a|);
  }

  lemma PathStarts(rest: Text)
    ensures PathOf(rest) != [] && PathOf(rest)[0] == '/'
  {
  }

  /** Host and port of a printed authority. */
  lemma PortIsFound(u: Url)
    requires ':' !in u.host
    ensures PortShown(u) ==> HostOf(PrintAuthority(u)) == u.host && PortOf(PrintAuthority(u), u.scheme) == u.port
    ensures !PortShown(u) ==>
              HostOf(PrintAuthority(u)) == u.host && PortOf(PrintAuthority(u), u.scheme) == DefaultPort(u.scheme)
  {
    if PortShown(u) {
      FindAt(u.host, ':', u.port);
      assert PrintAuthority(u) == u.host + [':'] + u.port;
    } else {
      assert PrintAuthority(u) == u.host;
    }
  }

  lemma HostHasNoColon(a: Text)
    ensures ':' !in HostOf(a)
  {
  }

  /** The parts of an authority contain none of its forbidden characters. */
  lemma PartsAreOrdinary(a: Text, scheme: Text)
    requires forall i :: 0 <= i < |a| ==> !Delimiter(a[i])
    ensures forall i :: 0 <= i < |HostOf(a)| ==> !Delimiter(HostOf(a)[i])
    ensures forall i :: 0 <= i < |PortOf(a, scheme)| ==> !Delimiter(PortOf(a, scheme)[i])
  {
    var c := Find(a, ':');
    if c.Some? {
      var p := PortOf(a, scheme);
      assert forall i :: 0 <= i < |p| ==> p[i] == a[c.value + 1 + i];
    }
  }

  lemma AuthorityIsOrdinary(rest: Text)
    requires rest == [] || !Delimiter(rest[0])
    ensures forall i :: 0 <= i < |AuthorityOf(rest)| ==> !Delimiter(AuthorityOf(rest)[i])
  {
  }

  lemma AuthorityChars(s: Text, u: Url)
    requires s != [] && u == Parse(s).value
    requires RestOf(s) == [] || !Delimiter(RestOf(s)[0])
    ensures ':' !in u.host
    ensures forall i :: 0 <= i < |PrintAuthority(u)| ==> !Delimiter(PrintAuthority(u)[i])
  {
    AuthorityIsOrdinary(RestOf(s));
    PartsAreOrdinary(AuthorityOf(RestOf(s)), SchemeOf(s));
    HostHasNoColon(AuthorityOf(RestOf(s)));
  }

  /** The normal case: the authority starts with an ordinary character, or is
      empty. */
  lemma OrdinaryTexts(s: Text)
    requires s != [] && SchemeOf(s) != []
    requires RestOf(s) == [] || !Delimiter(RestOf(s)[0])
    ensures Parse(Print(Parse(s).value)) == Parse(s) <==> Survives(s)
  {
    var u := Parse(s).value;
    PrintSplits(s);
    AuthorityChars(s, u);
    PathStarts(RestOf(s));
    OrdinaryAuthority(u);
  }

  lemma OrdinaryAuthority(u: Url)
    requires ':' !in u.host && u.path != [] && u.path[0] == '/'
    requires forall i :: 0 <= i < |PrintAuthority(u)| ==> !Delimiter(PrintAuthority(u)[i])
    ensures var again := PrintAuthority(u) + PrintPath(u);
            var a := AuthorityOf(again);
            (HostOf(a) == u.host && PortOf(a, u.scheme) == u.port && PathOf(again) == u.path)
            <==> (u.port != [] && (u.host != [] || PortShown(u)))
  {
    PortIsFound(u);
    if PrintAuthority(u) != [] {
      AuthorityIsFound(PrintAuthority(u), u.path);
    } else {
      assert PrintAuthority(u) + u.path == u.path;
      assert AuthorityEnd(u.path) == Some(0);
      SlashHost(u.path);
    }
  }

  /** A text that starts with a delimiter has a host that does. */
  lemma SlashHost(a: Text)
    requires a != [] && Delimiter(a[0])
    ensures HostOf(a) != [] && HostOf(a)[0] == a[0]
  {
  }

  /** A printed authority that starts with a delimiter swallows the path. */
  lemma SlashedAuthority(u: Url)
    requires u.host != [] && Delimiter(u.host[0]) && ':' !in u.host && u.path == "/"
    ensures var again := PrintAuthority(u) + PrintPath(u);
            var a := AuthorityOf(again);
            HostOf(a) != u.host || PortOf(a, u.scheme) != u.port
  {
    var again := PrintAuthority(u) + PrintPath(u);
    assert again[0] == u.host[0];
    assert AuthorityEnd(again) == Some(0);
    if PortShown(u) {
      FindAt(u.host, ':', u.port + "/");
      assert again == u.host + [':'] + (u.port + "/");
      assert again[|u.host| + 1..] == u.port + "/";
    } else {
      assert again == u.host + "/";
      assert ':' !in again;
    }
  }

  /** An authority that starts with a delimiter never comes back. */
  lemma SlashedTexts(s: Text)
    requires s != [] && SchemeOf(s) != []
    requires RestOf(s) != [] && Delimiter(RestOf(s)[0])
    ensures Parse(Print(Parse(s).value)) != Parse(s)
  {
    var rest := RestOf(s);
    assert AuthorityEnd(rest) == Some(0);
    SlashHost(rest);
    HostHasNoColon(rest);
    PrintSplits(s);
    SlashedAuthority(Parse(s).value);
  }

  /** Without a scheme the printed text does not start with "://". */
  lemma NoSepAtFront(u: Url)
    requires u.scheme == [] && ':' !in u.host && u.path != [] && u.path[0] == '/'
    requires u.host == [] && PortShown(u) ==> !Delimiter(u.port[0])
    ensures Print(u) != [] && !SepAt(Print(u), 0)
  {
    var t := Print(u);
    assert t == PrintAuthority(u) + u.path;
    if u.host != [] {
      assert t[0] == u.host[0];
    } else if PortShown(u) {
      assert t[1] == u.port[0];
    } else {
      assert t[0] == u.path[0];
    }
  }

  /** An empty scheme never comes back: it is not printed. */
  lemma SchemelessTexts(s: Text)
    requires s != [] && SchemeOf(s) == []
    ensures Parse(Print(Parse(s).value)) != Parse(s)
  {
    var u := Parse(s).value;
    var rest := RestOf(s);
    PathStarts(rest);
    HostHasNoColon(AuthorityOf(rest));
    if rest != [] && Delimiter(rest[0]) {
      assert AuthorityEnd(rest) == Some(0);
      SlashHost(rest);
    } else {
      AuthorityIsOrdinary(rest);
      PartsAreOrdinary(AuthorityOf(rest), SchemeOf(s));
    }
    NoSepAtFront(u);
    SchemeFound(Print(u));
  }

  lemma SchemeFound(t: Text)
    requires t != [] && !SepAt(t, 0)
    ensures SchemeOf(t) != []
  {
  }

  /** Parsing the printed form of a parsed text gives the same URL if and only
      if the text survives. */
  lemma RoundTripExactly(s: Text)
    requires s != []
    ensures Parse(Print(Parse(s).value)) == Parse(s) <==> Survives(s)
  {
    if SchemeOf(s) == [] {
      SchemelessTexts(s);
    } else if RestOf(s) != [] && Delimiter(RestOf(s)[0]) {
      SlashedTexts(s);
    } else {
      OrdinaryTexts(s);
    }
  }

  /** In particular: a text without an empty scheme, with a non-empty host and no
      empty port comes back. */
  lemma OrdinaryUrlsSurvive(s: Text)
    requires s != [] && SchemeOf(s) != []
    requires RestOf(s) != [] && !Delimiter(RestOf(s)[0])
    requires HostOf(AuthorityOf(RestOf(s))) != [] && PortOf(AuthorityOf(RestOf(s)), SchemeOf(s)) != []
    ensures Parse(Print(Parse(s).value)) == Parse(s)
  {
    OrdinaryTexts(s);
  }
}
