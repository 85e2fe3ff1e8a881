/** Browser routes: the path printer and the path parser. Text is the sequence of its UTF-8 octets, one
    character each; percent-encoding is that of section 2.1 of RFC 3986 with the characters JavaScript
    leaves alone. */
module Routing {
  import opened Wrappers
  import opened Strings

  // ---------------------------------------------------------------------------
  // Percent-encoding.
  // ---------------------------------------------------------------------------

  predicate Octets(s: string) { forall k :: 0 <= k < |s| ==> s[k] as int < 256 }

  predicate Alone(c: char) {
    || 'A' <= c <= 'Z' || 'a' <= c <= 'z' || '0' <= c <= '9'
    || c in {'-', '_', '.', '!', '~', '*', '\'', '(', ')'}
  }

  function Hex(n: nat): char
    requires n < 16
  {
    if n < 10 then '0' + n as char else 'A' + (n - 10) as char
  }

  function HexValue(c: char): Option<nat> {
    if '0' <= c <= '9' then Some((c - '0') as nat)
    else if 'A' <= c <= 'F' then Some((c - 'A') as nat + 10)
    else if 'a' <= c <= 'f' then Some((c - 'a') as nat + 10)
    else None
  }

  function EncodeOne(c: char): string
    requires c as int < 256
  {
    if Alone(c) then [c] else ['%', Hex(c as int / 16), Hex(c as int % 16)]
  }

  function Encode(s: string): string
    requires Octets(s)
  {
    if s == "" then "" else EncodeOne(s[0]) + Encode(s[1..])
  }

  /** None when the text is malformed and the decoder throws. */
  function Decode(s: string): Option<string> {
    if s == "" then Some("")
    else if s[0] != '%' then
      var rest := Decode(s[1..]);
      if rest.Some? then Some([s[0]] + rest.value) else None
    else if |s| < 3 || HexValue(s[1]).None? || HexValue(s[2]).None? then None
    else
      var rest := Decode(s[3..]);
      if rest.Some? then Some([(16 * HexValue(s[1]).value + HexValue(s[2]).value) as char] + rest.value) else None
  }

  lemma HexInverse(n: nat)
    requires n < 16
    ensures HexValue(Hex(n)) == Some(n) && Hex(n) != '/'
  {
  }

  /** Decoding inverts encoding, and an encoded segment holds no slash. */
  lemma {:induction false} DecodeEncode(s: string)
    requires Octets(s)
    ensures Decode(Encode(s)) == Some(s)
    ensures forall k :: 0 <= k < |Encode(s)| ==> Encode(s)[k] != '/'
    ensures s != "" ==> Encode(s) != ""
  {
    if s != "" {
      DecodeEncode(s[1..]);
      var one, rest := EncodeOne(s[0]), Encode(s[1..]);
      HexInverse(s[0] as int / 16);
      HexInverse(s[0] as int % 16);
      if Alone(s[0]) {
        assert (one + rest)[1..] == rest;
      } else {
        assert (one + rest)[3..] == rest;
        assert 16 * (s[0] as int / 16) + s[0] as int % 16 == s[0] as int;
      }
      assert s == [s[0]] + s[1..];
    }
  }

  // ---------------------------------------------------------------------------
  // Routes.
  // ---------------------------------------------------------------------------

  datatype Section = General | SpawnPoints | SessionTypes | Extensions | Support

  function SectionName(section: Section): string {
    match section
    case General => "general"
    case SpawnPoints => "spawn-points"
    case SessionTypes => "session-types"
    case Extensions => "extensions"
    case Support => "support"
  }

  function SectionOf(name: string): Section {
    if name == "spawn-points" then SpawnPoints
    else if name == "session-types" then SessionTypes
    else if name == "extensions" then Extensions
    else if name == "support" then Support
    else General
  }

  /** An absent package, surface or session is the empty text. */
  datatype Route =
    | Dashboard
    | Apps(packageName: string, surfaceId: string, settings: bool)
    | HubSettings(section: Option<Section>)
    | Session(sessionId: string)
  {
    predicate Encodable() {
      match this
      case Apps(p, s, _) => Octets(p) && Octets(s)
      case Session(id) => Octets(id)
      case _ => true
    }
  }

  function Print(route: Route): string
    requires route.Encodable()
  {
    match route
    case HubSettings(section) => if section.Some? then "/settings/" + SectionName(section.value) else "/settings"
    case Session(id) => "/sessions/" + Encode(id)
    case Dashboard => "/dashboard"
    case Apps(p, s, settings) =>
      if p == "" then "/apps"
      else if settings then
        if s != "" then "/apps/" + Encode(p) + "/settings/" + Encode(s) else "/apps/" + Encode(p) + "/settings"
      else if s != "" then "/apps/" + Encode(p) + "/" + Encode(s) else "/apps"
  }

  function StripSlashes(path: string): string {
    if path != "" && path[|path| - 1] == '/' then StripSlashes(path[..|path| - 1]) else path
  }

  predicate StartsWith(s: string, prefix: string) { |s| >= |prefix| && s[..|prefix|] == prefix }

  function NonEmpty(parts: seq<string>): seq<string> {
    if parts == [] then [] else (if parts[0] != "" then [parts[0]] else []) + NonEmpty(parts[1..])
  }

  function DecodeAll(parts: seq<string>): Option<seq<string>> {
    if parts == [] then Some([])
    else
      var first, rest := Decode(parts[0]), DecodeAll(parts[1..]);
      if first.Some? && rest.Some? then Some([first.value] + rest.value) else None
  }

  function Segments(path: string): Option<seq<string>> { DecodeAll(NonEmpty(Split(path, '/'))) }

  function At(parts: seq<string>, k: nat): string { if k < |parts| then parts[k] else "" }

  /** Routes of an old address: surfaces are named by kind. */
  function PackageRoute(parts: seq<string>): Route {
    if At(parts, 0) == "" then Apps("", "", false)
    else if At(parts, 1) == "settings" then Apps(parts[0], "", true)
    else if At(parts, 1) == "surfaces" && At(parts, 2) != "" then Apps(parts[0], parts[2], false)
    else Apps(parts[0], "", false)
  }

  function AppRoute(parts: seq<string>): Route {
    if At(parts, 0) == "" then Apps("", "", false)
    else if At(parts, 1) == "settings" then Apps(parts[0], At(parts, 2), true)
    else Apps(parts[0], At(parts, 1), false)
  }

  /** The route of a path; None when decoding throws. */
  function Parse(pathname: string): Option<Route> {
    var path := if StripSlashes(pathname) == "" then "/" else StripSlashes(pathname);
    if path == "/diagnostics" || StartsWith(path, "/diagnostics/") then Some(HubSettings(Some(Support)))
    else if path == "/spawn-points" || StartsWith(path, "/spawn-points/") then Some(HubSettings(Some(SpawnPoints)))
    else if StartsWith(path, "/sessions/") then
      var id := Decode(path[10..]);
      if id.None? then None
      else if id.value != "" then Some(Session(id.value))
      else Some(Dashboard)
    else if path == "/settings" || StartsWith(path, "/settings/") then
      Some(HubSettings(Some(SectionOf(if |path| > 10 then path[10..] else ""))))
    else if path == "/apps" then Some(Apps("", "", false))
    else if StartsWith(path, "/packages/") then
      var parts := Segments(path[10..]);
      if parts.Some? then Some(PackageRoute(parts.value)) else None
    else if StartsWith(path, "/apps/") then
      var parts := Segments(path[6..]);
      if parts.Some? then Some(AppRoute(parts.value)) else None
    else Some(Dashboard)
  }

  // ---------------------------------------------------------------------------
  // The round trip.
  // ---------------------------------------------------------------------------

  /** Routes that keep all they say in their path: a hub section, a session id, a package with a surface
      or its settings, and no surface called settings. */
  predicate Canonical(route: Route) {
    match route
    case Dashboard => true
    case HubSettings(section) => section.Some?
    case Session(id) => id != ""
    case Apps(p, s, settings) =>
      if p == "" then s == "" && !settings
      else settings || (s != "" && s != "settings")
  }

  lemma NoStrip(path: string)
    requires path == "" || path[|path| - 1] != '/'
    ensures StripSlashes(path) == path
  {
  }

  lemma {:induction false} SplitFirst(a: string, b: string)
    requires forall k :: 0 <= k < |a| ==> a[k] != '/'
    ensures Split(a + "/" + b, '/') == [a] + Split(b, '/')
    ensures Split(a, '/') == [a]
  {
    var whole := a + "/" + b;
    if a == "" {
      assert whole == "/" + b && whole[1..] == b;
    } else {
      SplitFirst(a[1..], b);
      assert whole[1..] == a[1..] + "/" + b;
      assert a == [a[0]] + a[1..];
    }
  }

  /** The segments of one to three encoded texts. */
  lemma SegmentsOf(a: string, b: string, c: string)
    requires Octets(a) && Octets(b) && Octets(c) && a != "" && b != "" && c != ""
    ensures Segments(Encode(a) + "/" + Encode(b)) == Some([a, b])
    ensures Segments(Encode(a) + "/" + Encode(b) + "/" + Encode(c)) == Some([a, b, c])
  {
    hide Encode, Decode, NonEmpty, DecodeAll, Split;
    var x, y, z := Encode(a), Encode(b), Encode(c);
    DecodeEncode(a);
    DecodeEncode(b);
    DecodeEncode(c);
    SplitFirst(x, y);
    SplitFirst(x, y + "/" + z);
    SplitFirst(y, z);
    SplitFirst(z, "");
    assert x + "/" + y + "/" + z == x + "/" + (y + "/" + z);
    assert Split(x + "/" + y, '/') == [x, y];
    assert Split(x + "/" + y + "/" + z, '/') == [x, y, z];
    Keeps(x, y, z);
    Decodes(x, y, z, a, b, c);
  }

  lemma NonEmptyCons(x: string, rest: seq<string>)
    requires x != ""
    ensures NonEmpty([x] + rest) == [x] + NonEmpty(rest)
  {
    assert ([x] + rest)[1..] == rest;
  }

  lemma DecodeAllCons(x: string, a: string, rest: seq<string>, decoded: seq<string>)
    requires Decode(x) == Some(a) && DecodeAll(rest) == Some(decoded)
    ensures DecodeAll([x] + rest) == Some([a] + decoded)
  {
    assert ([x] + rest)[1..] == rest;
  }

  lemma Keeps(x: string, y: string, z: string)
    requires x != "" && y != "" && z != ""
    ensures NonEmpty([x, y]) == [x, y] && NonEmpty([x, y, z]) == [x, y, z]
  {
    hide NonEmpty;
    NonEmptyCons(z, []);
    NonEmptyCons(y, []);
    NonEmptyCons(y, [z]);
    NonEmptyCons(x, [y]);
    NonEmptyCons(x, [y, z]);
    Nothing();
    assert [x, y] == [x] + [y] && [x, y, z] == [x] + [y, z] && [y, z] == [y] + [z] && [y] == [y] + [] && [z] == [z] + [];
  }

  lemma Nothing()
    ensures NonEmpty([]) == [] && DecodeAll([]) == Some([])
  {
  }

  lemma Decodes(x: string, y: string, z: string, a: string, b: string, c: string)
    requires Decode(x) == Some(a) && Decode(y) == Some(b) && Decode(z) == Some(c)
    ensures DecodeAll([x, y]) == Some([a, b]) && DecodeAll([x, y, z]) == Some([a, b, c])
  {
    hide DecodeAll, Decode;
    Nothing();
    DecodeAllCons(z, c, [], []);
    DecodeAllCons(y, b, [], []);
    assert [y] == [y] + [] && [z] == [z] + [] && [b] == [b] + [] && [c] == [c] + [];
    DecodeAllCons(y, b, [z], [c]);
    assert [y, z] == [y] + [z] && [b, c] == [b] + [c];
    DecodeAllCons(x, a, [y], [b]);
    DecodeAllCons(x, a, [y, z], [b, c]);
    assert [x, y] == [x] + [y] && [x, y, z] == [x] + [y, z] && [a, b] == [a] + [b] && [a, b, c] == [a] + [b, c];
  }

  lemma NotPrefix(path: string, prefix: string, k: nat)
    requires k < |path| && k < |prefix| && path[k] != prefix[k]
    ensures !StartsWith(path, prefix) && path != prefix
  {
    assert |path| >= |prefix| ==> path[..|prefix|][k] == path[k];
  }

  /** A path into the apps view. */
  lemma ParseApps(rest: string)
    requires rest != "" && rest[|rest| - 1] != '/'
    ensures Parse("/apps/" + rest)
         == if Segments(rest).Some? then Some(AppRoute(Segments(rest).value)) else None
  {
    var path := "/apps/" + rest;
    NoStrip(path);
    assert path[1] == 'a' && path[6..] == rest && path[..6] == "/apps/" && |path| > 6;
    hide StripSlashes, Segments, AppRoute, PackageRoute, Decode, SectionOf;
    NotPrefix(path, "/diagnostics/", 1);
    NotPrefix(path, "/diagnostics", 1);
    NotPrefix(path, "/spawn-points/", 1);
    NotPrefix(path, "/spawn-points", 1);
    NotPrefix(path, "/sessions/", 1);
    NotPrefix(path, "/settings", 1);
    NotPrefix(path, "/settings/", 1);
    NotPrefix(path, "/packages/", 1);
  }

  lemma ParseSession(id: string)
    requires Octets(id) && id != ""
    ensures Parse("/sessions/" + Encode(id)) == Some(Session(id))
  {
    DecodeEncode(id);
    var path := "/sessions/" + Encode(id);
    NoStrip(path);
    assert path[2] == 'e' && path[10..] == Encode(id) && path[..10] == "/sessions/";
    hide StripSlashes, Segments, AppRoute, PackageRoute, Decode, SectionOf, Encode;
    NotPrefix(path, "/diagnostics/", 2);
    NotPrefix(path, "/diagnostics", 2);
    NotPrefix(path, "/spawn-points/", 2);
    NotPrefix(path, "/spawn-points", 2);
  }

  lemma ParseFixed()
    ensures Parse("/dashboard") == Some(Dashboard) && Parse("/apps") == Some(Apps("", "", false))
    ensures Parse("/settings") == Some(HubSettings(Some(General)))
    ensures Parse("/sessions/") == Some(Dashboard)
  {
    hide Parse;
    ParseDashboard();
    ParseAppsAlone();
    ParseSettingsAlone();
    ParseSessionsAlone();
  }

  lemma ParseDashboard()
    ensures Parse("/dashboard") == Some(Dashboard)
  {
    hide StripSlashes, Segments, AppRoute, PackageRoute, Decode, SectionOf;
    NoStrip("/dashboard");
    ElsePath("/dashboard");
  }

  /** No prefix the parser looks for has an octet 'd' and then an 'a'. */
  lemma ElsePath(path: string)
    requires |path| > 2 && path[1] == 'd' && path[2] == 'a'
    ensures path != "/diagnostics" && path != "/spawn-points" && path != "/settings" && path != "/apps"
    ensures !StartsWith(path, "/diagnostics/") && !StartsWith(path, "/spawn-points/") && !StartsWith(path, "/sessions/")
    ensures !StartsWith(path, "/settings/") && !StartsWith(path, "/packages/") && !StartsWith(path, "/apps/")
  {
    NotPrefix(path, "/diagnostics/", 2);
    NotPrefix(path, "/diagnostics", 2);
    NotPrefix(path, "/spawn-points/", 1);
    NotPrefix(path, "/sessions/", 1);
    NotPrefix(path, "/settings/", 1);
    NotPrefix(path, "/packages/", 1);
    NotPrefix(path, "/apps/", 1);
  }

  lemma ParseAppsAlone()
    ensures Parse("/apps") == Some(Apps("", "", false))
  {
    hide StripSlashes, Segments, AppRoute, PackageRoute, Decode, SectionOf;
    NoStrip("/apps");
    NotPrefix("/apps", "/diagnostics/", 1);
    NotPrefix("/apps", "/spawn-points/", 1);
    NotPrefix("/apps", "/sessions/", 1);
    NotPrefix("/apps", "/settings/", 1);
  }

  lemma ParseSettingsAlone()
    ensures Parse("/settings") == Some(HubSettings(Some(General)))
  {
    hide StripSlashes, Segments, AppRoute, PackageRoute, Decode;
    NoStrip("/settings");
    NotPrefix("/settings", "/diagnostics/", 1);
    NotPrefix("/settings", "/spawn-points/", 2);
    NotPrefix("/settings", "/sessions/", 3);
  }

  lemma ParseSessionsAlone()
    ensures Parse("/sessions/") == Some(Dashboard)
  {
    hide Segments, AppRoute, PackageRoute, Decode, SectionOf;
    NoStrip("/sessions");
    assert "/sessions/"[..9] == "/sessions";
    assert StripSlashes("/sessions/") == "/sessions";
    NotPrefix("/sessions", "/diagnostics/", 1);
    NotPrefix("/sessions", "/spawn-points/", 2);
    NotPrefix("/sessions", "/settings/", 3);
    NotPrefix("/sessions", "/packages/", 1);
    NotPrefix("/sessions", "/apps/", 1);
  }

  lemma SectionsInvert(section: Section)
    ensures SectionOf(SectionName(section)) == section
  {
  }

  lemma ParseSection(section: Section)
    ensures Parse("/settings/" + SectionName(section)) == Some(HubSettings(Some(section)))
  {
    var name := SectionName(section);
    var path := "/settings/" + name;
    NoStrip(path);
    assert path[10..] == name && path[..10] == "/settings/" && path[3] == 't';
    SectionsInvert(section);
    hide StripSlashes, Segments, AppRoute, PackageRoute, Decode, SectionOf, SectionName;
    NotPrefix(path, "/diagnostics/", 3);
    NotPrefix(path, "/diagnostics", 3);
    NotPrefix(path, "/spawn-points/", 3);
    NotPrefix(path, "/spawn-points", 3);
    NotPrefix(path, "/sessions/", 3);
  }

  lemma LastOfEncoded(s: string)
    requires Octets(s) && s != ""
    ensures Encode(s) != "" && Encode(s)[|Encode(s)| - 1] != '/'
  {
    DecodeEncode(s);
  }

  lemma AppsRoundTrip(p: string, s: string, settings: bool)
    requires Octets(p) && Octets(s) && p != ""
    ensures Parse(Print(Apps(p, s, settings))) == Some(Apps(p, s, settings)) <==> settings || (s != "" && s != "settings")
  {
    hide Parse, Segments, Encode;
    LastOfEncoded(p);
    if settings {
      SettingsRoundTrip(p, s);
    } else if s != "" {
      LastOfEncoded(s);
      SegmentsOf(p, s, p);
      var rest := Encode(p) + "/" + Encode(s);
      assert Print(Apps(p, s, settings)) == "/apps/" + rest;
      ParseApps(rest);
    } else {
      ParseAppsAlone();
    }
  }

  lemma SettingsRoundTrip(p: string, s: string)
    requires Octets(p) && Octets(s) && p != ""
    ensures Parse(Print(Apps(p, s, true))) == Some(Apps(p, s, true))
  {
    hide Parse, Segments, Encode;
    SettingsAlone();
    if s == "" {
      SegmentsOf(p, "settings", p);
      var rest := Encode(p) + "/" + "settings";
      assert Print(Apps(p, s, true)) == "/apps/" + rest;
      ParseApps(rest);
    } else {
      LastOfEncoded(s);
      SegmentsOf(p, "settings", s);
      var rest := Encode(p) + "/" + "settings" + "/" + Encode(s);
      assert Print(Apps(p, s, true)) == "/apps/" + rest;
      ParseApps(rest);
    }
  }

  lemma SettingsAlone()
    ensures Octets("settings") && Encode("settings") == "settings"
  {
    AloneStays("settings");
  }

  lemma {:induction false} AloneStays(s: string)
    requires forall k :: 0 <= k < |s| ==> Alone(s[k])
    ensures Octets(s) && Encode(s) == s
  {
    if s != "" {
      AloneStays(s[1..]);
      assert s == [s[0]] + s[1..];
    }
  }

  lemma ParsePackages(rest: string)
    requires rest != "" && rest[|rest| - 1] != '/'
    ensures Parse("/packages/" + rest)
         == if Segments(rest).Some? then Some(PackageRoute(Segments(rest).value)) else None
  {
    var path := "/packages/" + rest;
    NoStrip(path);
    assert path[1] == 'p' && path[10..] == rest && path[..10] == "/packages/" && |path| > 10;
    hide StripSlashes, Segments, AppRoute, PackageRoute, Decode, SectionOf;
    NotPrefix(path, "/diagnostics/", 1);
    NotPrefix(path, "/diagnostics", 1);
    NotPrefix(path, "/spawn-points/", 1);
    NotPrefix(path, "/spawn-points", 1);
    NotPrefix(path, "/sessions/", 1);
    NotPrefix(path, "/settings", 1);
    NotPrefix(path, "/settings/", 1);
  }

  /** Addresses of old: a package's surface and its settings under `/packages/`, and two pages that became sections
      of the hub settings, lead to the routes the printer would print today. */
  lemma OldAddresses(p: string, s: string)
    requires Octets(p) && Octets(s) && p != "" && s != ""
    ensures Parse("/packages/" + Encode(p) + "/surfaces/" + Encode(s)) == Some(Apps(p, s, false))
    ensures Parse("/packages/" + Encode(p) + "/settings") == Some(Apps(p, "", true))
    ensures Parse("/diagnostics") == Some(HubSettings(Some(Support))) && Parse("/spawn-points") == Some(HubSettings(Some(SpawnPoints)))
  {
    hide Parse, Segments, Encode;
    SettingsAlone();
    AloneStays("surfaces");
    LastOfEncoded(s);
    SegmentsOf(p, "surfaces", s);
    SegmentsOf(p, "settings", p);
    var surface, settings := Encode(p) + "/surfaces/" + Encode(s), Encode(p) + "/settings";
    assert surface == Encode(p) + "/" + "surfaces" + "/" + Encode(s) && settings == Encode(p) + "/" + "settings";
    assert "/packages/" + surface == "/packages/" + Encode(p) + "/surfaces/" + Encode(s);
    assert "/packages/" + settings == "/packages/" + Encode(p) + "/settings";
    ParsePackages(surface);
    ParsePackages(settings);
    OldPages();
  }

  lemma OldPages()
    ensures Parse("/diagnostics") == Some(HubSettings(Some(Support))) && Parse("/spawn-points") == Some(HubSettings(Some(SpawnPoints)))
  {
    hide StripSlashes, Segments, AppRoute, PackageRoute, Decode, SectionOf;
    NoStrip("/diagnostics");
    NoStrip("/spawn-points");
    NotPrefix("/spawn-points", "/diagnostics/", 1);
  }

  /** The parser inverts the printer exactly on the canonical routes. */
  lemma RoundTripIff(route: Route)
    requires route.Encodable()
    ensures Parse(Print(route)) == Some(route) <==> Canonical(route)
  {
    hide Parse;
    ParseFixed();
    match route {
      case Dashboard =>
      case HubSettings(section) => if section.Some? { ParseSection(section.value); }
      case Session(id) => if id != "" { ParseSession(id); } else { assert Print(route) == "/sessions/"; }
      case Apps(p, s, settings) => if p != "" { AppsRoundTrip(p, s, settings); }
    }
  }
}
