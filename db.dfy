/**
 * The MongoDB connection string (lib/db/index.js `connect`): the scheme,
 * optional `username:password@` credentials, the host, an optional
 * `:port`, then `/database`, each setting coerced to a string.
 */
module Db {
  import opened Js
  import opened Conf

  const Scheme := "mongodb://"

  /** A database setting coerced to a string, as `+` does. */
  function Setting(db: map<string, Json>, k: string): string
  {
    JsString(Field(db, k))
  }

  /** Credentials are used only when both username and password are truthy. */
  predicate HasCredentials(db: map<string, Json>)
  {
    Truthy(Field(db, "username")) && Truthy(Field(db, "password"))
  }

  predicate HasPort(db: map<string, Json>)
  {
    Truthy(Field(db, "port"))
  }

  /** The parts of a connection string. */
  datatype Target = Target(credentials: Option<(string, string)>, host: string, port: Option<string>, database: string)

  /** The parts `connect` means to put into the string. */
  function Intended(db: map<string, Json>): Target
  {
    Target(if HasCredentials(db) then Some((Setting(db, "username"), Setting(db, "password"))) else None,
           Setting(db, "host"),
           if HasPort(db) then Some(Setting(db, "port")) else None,
           Setting(db, "database"))
  }

  /** `username:password@`, or nothing. */
  function CredentialsText(credentials: Option<(string, string)>): string
  {
    match credentials
    case None => ""
    case Some((u, p)) => u + ":" + p + "@"
  }

  /** `:port`, or nothing. */
  function PortText(port: Option<string>): string
  {
    match port
    case None => ""
    case Some(n) => ":" + n
  }

  /** `host[:port]/database`. */
  function HostPartText(h: string, port: Option<string>, d: string): string
  {
    h + PortText(port) + ("/" + d)
  }

  /** The connection string of the given parts, grouped as `connect`
      appends them. */
  function Render(t: Target): string
  {
    Scheme + CredentialsText(t.credentials) + t.host + PortText(t.port) + ("/" + t.database)
  }

  /** The connection string `connect` hands to the driver. */
  function MongoUrl(db: map<string, Json>): string
  {
    Render(Intended(db))
  }

  /** `connect`'s string building: successive appends under conditions. */
  method ConnectUrl(db: map<string, Json>) returns (url: string)
    ensures url == MongoUrl(db)
  {
    ghost var t := Intended(db);
    url := Scheme;
    if Truthy(Field(db, "username")) && Truthy(Field(db, "password")) {
      url := url + (Setting(db, "username") + ":" + Setting(db, "password") + "@");
    }
    assert url == Scheme + CredentialsText(t.credentials);
    url := url + Setting(db, "host");
    if Truthy(Field(db, "port")) {
      url := url + (":" + Setting(db, "port"));
    }
    assert url == Scheme + CredentialsText(t.credentials) + t.host + PortText(t.port);
    url := url + ("/" + Setting(db, "database"));
  }

  // ---------------------------------------------------------------------
  // Reading a connection string back

  /** The first position of `c` in `s`. */
  function IndexOf(s: string, c: char): (r: Option<nat>)
    ensures r.None? <==> c !in s
    ensures r.Some? ==> r.value < |s| && s[r.value] == c && c !in s[..r.value]
  {
    if |s| == 0 then None
    else if s[0] == c then Some(0)
    else match IndexOf(s[1..], c)
      case None => None
      case Some(i) =>
        assert s[..i + 1] == [s[0]] + s[1..][..i];
        Some(i + 1)
  }

  /** `host[:port]`: the port after the first `:`. */
  function ParseAuthority(authority: string): (string, Option<string>)
  {
    match IndexOf(authority, ':')
    case None => (authority, None)
    case Some(k) => (authority[..k], Some(authority[k + 1..]))
  }

  /** `authority/database`: the database after the first `/`. */
  function ParseHostPart(hostPart: string): Option<(string, Option<string>, string)>
  {
    match IndexOf(hostPart, '/')
    case None => None
    case Some(j) =>
      var (host, port) := ParseAuthority(hostPart[..j]);
      Some((host, port, hostPart[j + 1..]))
  }

  /** `username:password`: the password after the first `:`. */
  function ParseUserInfo(userInfo: string): Option<(string, string)>
  {
    match IndexOf(userInfo, ':')
    case None => None
    case Some(k) => Some((userInfo[..k], userInfo[k + 1..]))
  }

  /** Splits a connection string into its parts: credentials before the first
      `@`, the database after the first `/` that follows them, and a port
      after the first `:` of the host. */
  function ParseMongoUrl(url: string): Option<Target>
  {
    if |url| < |Scheme| || url[..|Scheme|] != Scheme then None
    else ParseAfterScheme(url[|Scheme|..])
  }

  /** What follows the scheme. */
  function ParseAfterScheme(rest: string): Option<Target>
  {
    match IndexOf(rest, '@')
    case None =>
      (match ParseHostPart(rest)
       case None => None
       case Some((h, port, d)) => Some(Target(None, h, port, d)))
    case Some(i) =>
      match (ParseUserInfo(rest[..i]), ParseHostPart(rest[i + 1..]))
      case (Some(creds), Some((h, port, d))) => Some(Target(Some(creds), h, port, d))
      case _ => None
  }

  /** Parts that make the string unambiguous: no `@`, `:` or `/` where the
      parser looks for them first. */
  predicate Unambiguous(t: Target)
  {
    && (t.credentials.Some? ==> '@' !in t.credentials.value.0 && ':' !in t.credentials.value.0
                                && '@' !in t.credentials.value.1)
    && '@' !in t.host && ':' !in t.host && '/' !in t.host
    && (t.port.Some? ==> '@' !in t.port.value && '/' !in t.port.value)
    && '@' !in t.database
  }

  // ---------------------------------------------------------------------
  // Properties

  /** A string with `c` first found after `a` is split there. */
  lemma {:induction false} IndexOfSplit(a: string, c: char, b: string)
    requires c !in a
    ensures IndexOf(a + [c] + b, c) == Some(|a|)
    ensures (a + [c] + b)[..|a|] == a && (a + [c] + b)[|a| + 1..] == b
  {
    var s := a + [c] + b;
    assert s[|a|] == c;
    assert s[..|a|] == a;
  }

  /** Regrouping of a five-part concatenation. */
  lemma Regroup(a: string, b: string, c: string, d: string, e: string)
    ensures a + b + c + d + e == a + (b + (c + d + e))
  {
  }

  /** A rendered string is the scheme followed by credentials and host part. */
  lemma RenderSplit(t: Target)
    ensures Render(t) == Scheme + (CredentialsText(t.credentials) + HostPartText(t.host, t.port, t.database))
  {
    Regroup(Scheme, CredentialsText(t.credentials), t.host, PortText(t.port), "/" + t.database);
  }

  /** The string always starts with the scheme and ends with `/database`. */
  lemma UrlFrame(db: map<string, Json>)
    ensures |MongoUrl(db)| >= |Scheme| && MongoUrl(db)[..|Scheme|] == Scheme
    ensures var tail := "/" + Setting(db, "database");
            |MongoUrl(db)| >= |tail| && MongoUrl(db)[|MongoUrl(db)| - |tail|..] == tail
  {
    var t := Intended(db);
    RenderSplit(t);
    var rest := CredentialsText(t.credentials) + HostPartText(t.host, t.port, t.database);
    var head := Scheme + CredentialsText(t.credentials) + t.host + PortText(t.port);
    assert (Scheme + rest)[..|Scheme|] == Scheme;
    assert (head + ("/" + t.database))[|head|..] == "/" + t.database;
  }

  /** A string starting with the scheme is read from what follows it. */
  lemma SchemeThenRest(rest: string)
    ensures ParseMongoUrl(Scheme + rest) == ParseAfterScheme(rest)
  {
    var url := Scheme + rest;
    assert url[..|Scheme|] == Scheme && url[|Scheme|..] == rest;
  }

  /** `host[:port]` reads back as host and port. */
  lemma AuthorityRoundTrip(h: string, port: Option<string>)
    requires ':' !in h
    ensures ParseAuthority(h + PortText(port)) == (h, port)
  {
    if port.Some? {
      assert h + PortText(port) == h + [':'] + port.value;
      IndexOfSplit(h, ':', port.value);
    } else {
      assert h + PortText(port) == h;
    }
  }

  /** The database follows the first `/`, and the authority precedes it. */
  lemma SplitAtSlash(authority: string, d: string)
    requires '/' !in authority
    ensures ParseHostPart(authority + ['/'] + d) == Some((ParseAuthority(authority).0, ParseAuthority(authority).1, d))
  {
    IndexOfSplit(authority, '/', d);
  }

  /** `host[:port]/database` reads back as its three parts. */
  lemma {:induction false} HostPartRoundTrip(h: string, port: Option<string>, d: string)
    requires ':' !in h && '/' !in h
    requires port.Some? ==> '/' !in port.value
    ensures ParseHostPart(HostPartText(h, port, d)) == Some((h, port, d))
  {
    var authority := h + PortText(port);
    assert '/' !in authority by {
      assert '/' !in PortText(port);
    }
    assert HostPartText(h, port, d) == authority + ['/'] + d;
    SplitAtSlash(authority, d);
    AuthorityRoundTrip(h, port);
  }

  /** Without credentials, what follows the scheme reads back as host, port
      and database. */
  lemma AfterSchemeWithoutCredentials(h: string, port: Option<string>, d: string)
    requires '@' !in h && ':' !in h && '/' !in h
    requires port.Some? ==> '@' !in port.value && '/' !in port.value
    requires '@' !in d
    ensures ParseAfterScheme(HostPartText(h, port, d)) == Some(Target(None, h, port, d))
  {
    HostPartRoundTrip(h, port, d);
    assert '@' !in PortText(port);
  }

  /** With credentials, likewise, and the credentials are read back too. */
  lemma AfterSchemeWithCredentials(c: Option<(string, string)>, h: string, port: Option<string>, d: string)
    requires c.Some? && '@' !in c.value.0 && ':' !in c.value.0 && '@' !in c.value.1
    requires ':' !in h && '/' !in h
    requires port.Some? ==> '/' !in port.value
    ensures ParseAfterScheme(CredentialsText(c) + HostPartText(h, port, d)) == Some(Target(c, h, port, d))
  {
    var (u, p) := c.value;
    var hostPart := HostPartText(h, port, d);
    var userInfo := u + [':'] + p;
    assert CredentialsText(c) + hostPart == userInfo + ['@'] + hostPart;
    IndexOfSplit(userInfo, '@', hostPart);
    IndexOfSplit(u, ':', p);
    assert ParseUserInfo(userInfo) == Some((u, p));
    HostPartRoundTrip(h, port, d);
  }

  /** Reading a rendered string back gives exactly its parts. */
  lemma {:induction false} ParseRenderRoundTrip(t: Target)
    requires Unambiguous(t)
    ensures ParseMongoUrl(Render(t)) == Some(t)
  {
    var rest := CredentialsText(t.credentials) + HostPartText(t.host, t.port, t.database);
    RenderSplit(t);
    SchemeThenRest(rest);
    if t.credentials.Some? {
      AfterSchemeWithCredentials(t.credentials, t.host, t.port, t.database);
    } else {
      AfterSchemeWithoutCredentials(t.host, t.port, t.database);
      assert rest == HostPartText(t.host, t.port, t.database);
    }
    assert Target(t.credentials, t.host, t.port, t.database) == t;
    assert ParseAfterScheme(rest) == Some(t);
  }

  /** Reading `connect`'s string back gives exactly the intended parts:
      credentials exactly when both are set, the host, a port exactly when it
      is set, and the database. */
  lemma ParseMongoUrlRoundTrip(db: map<string, Json>)
    requires Unambiguous(Intended(db))
    ensures ParseMongoUrl(MongoUrl(db)) == Some(Intended(db))
  {
    ParseRenderRoundTrip(Intended(db));
  }

  /** Different intended parts give different strings, when unambiguous. */
  lemma MongoUrlInjective(a: map<string, Json>, b: map<string, Json>)
    requires Unambiguous(Intended(a)) && Unambiguous(Intended(b))
    requires MongoUrl(a) == MongoUrl(b)
    ensures Intended(a) == Intended(b)
  {
    ParseMongoUrlRoundTrip(a);
    ParseMongoUrlRoundTrip(b);
  }

  /** The shipped settings: no credentials, no port. */
  lemma DefaultUrl()
    ensures Intended(DbSettings) == Target(None, "localhost", None, "tile")
  {
  }
}
