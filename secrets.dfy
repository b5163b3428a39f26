/**
 * `build_database_url_from_secret`: the PostgreSQL connection string made
 * from the credentials stored in the secrets manager, with the password
 * percent-encoded and every other field inserted as it is.
 */
module Secrets {
  import opened Common
  import opened UrlEncoding

  /** A value of the secret's JSON object. */
  datatype SecretValue = SText(s: string) | SInt(i: int) | SBool(b: bool) | SNull

  /** How an f-string renders a value: `str(v)`. */
  function Str(v: SecretValue): string
  {
    match v
    case SText(s) => s
    case SInt(i) => IntToString(i)
    case SBool(b) => if b then "True" else "False"
    case SNull => "None"
  }

  const Scheme: string := "postgresql://"

  /** What `quote_plus` raises for anything but a text (an `int`, a `bool`, `None`). */
  const QuoteTypeError: string := "quote_from_bytes() expected bytes"

  /** The keys in the order the function reads them. */
  const RequiredKeys: seq<string> := ["username", "password", "host", "port", "dbname"]

  /** The first required key the secret lacks. */
  function MissingKey(secret: map<string, SecretValue>, keys: seq<string>): (r: Option<string>)
    ensures r.None? <==> forall k :: 0 <= k < |keys| ==> keys[k] in secret
    ensures r.Some? ==> r.value in keys && r.value !in secret
    decreases |keys|
  {
    if |keys| == 0 then None
    else if keys[0] !in secret then Some(keys[0])
    else MissingKey(secret, keys[1..])
  }

  /** `build_database_url_from_secret(secret)`; `Err` carries the text of the `KeyError` or `TypeError`. */
  function BuildDatabaseUrl(secret: map<string, SecretValue>): (r: Result<string>)
    ensures MissingKey(secret, RequiredKeys).Some? ==> r == Err(KeyErrorText(MissingKey(secret, RequiredKeys).value))
    ensures MissingKey(secret, RequiredKeys).None? && !secret["password"].SText? ==> r == Err(QuoteTypeError)
    ensures r.Ok? <==> MissingKey(secret, RequiredKeys).None? && secret["password"].SText?
    ensures r.Ok? ==> StartsWith(r.value, Scheme)
  {
    if "username" !in secret then Err(KeyErrorText("username"))
    else if "password" !in secret then Err(KeyErrorText("password"))
    else if "host" !in secret then Err(KeyErrorText("host"))
    else if "port" !in secret then Err(KeyErrorText("port"))
    else if "dbname" !in secret then Err(KeyErrorText("dbname"))
    else if !secret["password"].SText? then Err(QuoteTypeError)
    else
      var rest := Str(secret["username"]) + ":" + QuotePlus(secret["password"].s) + "@" + Location(secret);
      PrefixStartsWith(Scheme, rest);
      Ok(Scheme + rest)
  }

  /** What follows the `@`: `host:port/dbname`, each rendered with `str`. */
  function Location(secret: map<string, SecretValue>): string
    requires "host" in secret && "port" in secret && "dbname" in secret
  {
    Str(secret["host"]) + ":" + Str(secret["port"]) + "/" + Str(secret["dbname"])
  }

  /** A built URL is the scheme, the user, `:`, the encoded password, `@` and the location. */
  lemma BuiltUrl(secret: map<string, SecretValue>)
    requires BuildDatabaseUrl(secret).Ok?
    ensures BuildDatabaseUrl(secret).value ==
      Scheme + (Str(secret["username"]) + [':'] + QuotePlus(secret["password"].s) + ['@'] + Location(secret))
  {
    assert ":" == [':'] && "@" == ['@'];
  }

  /** The first index of `c` in `s`. */
  function IndexOf(s: string, c: char): (r: Option<nat>)
    ensures r.None? <==> c !in s
    ensures r.Some? ==> r.value < |s| && s[r.value] == c && c !in s[..r.value]
    decreases |s|
  {
    if |s| == 0 then None
    else if s[0] == c then Some(0)
    else
      match IndexOf(s[1..], c)
      case None => None
      case Some(i) => assert s[..i + 1] == [s[0]] + s[1..][..i]; Some(i + 1)
  }

  lemma {:induction false} IndexOfFirst(a: string, c: char, b: string)
    requires c !in a
    ensures IndexOf(a + [c] + b, c) == Some(|a|)
    decreases |a|
  {
    if |a| > 0 {
      IndexOfFirst(a[1..], c, b);
      assert (a + [c] + b)[1..] == a[1..] + [c] + b;
    }
  }

  /** The credentials part of a URL: user, still-encoded password and what follows the `@`. */
  datatype Userinfo = Userinfo(user: string, encodedPassword: string, location: string)

  /** Reading a URL back: the user ends at the first `:`, the password at the first `@`. */
  function ParseUserinfo(url: string): Option<Userinfo>
  {
    if !StartsWith(url, Scheme) then None else ParseRest(url[|Scheme|..])
  }

  /** The credentials of what follows the scheme. */
  function ParseRest(rest: string): Option<Userinfo>
  {
    match IndexOf(rest, '@')
    case None => None
    case Some(at) =>
      match IndexOf(rest[..at], ':')
      case None => None
      case Some(colon) => Some(Userinfo(rest[..colon], rest[colon + 1..at], rest[at + 1..]))
  }

  /** The part after the scheme splits at the first `@` and then at the first `:`. */
  lemma SplitRest(user: string, q: string, tail: string)
    requires ':' !in user && '@' !in user && '@' !in q
    ensures var rest := user + [':'] + q + ['@'] + tail;
      var at := |user| + 1 + |q|;
      IndexOf(rest, '@') == Some(at) && IndexOf(rest[..at], ':') == Some(|user|) &&
      rest[..|user|] == user && rest[|user| + 1..at] == q && rest[at + 1..] == tail
  {
    var a := user + [':'] + q;
    assert '@' !in a;
    IndexOfFirst(a, '@', tail);
    var rest := a + ['@'] + tail;
    assert rest[..|a|] == a;
    IndexOfFirst(user, ':', q);
  }

  /** Parsing a URL with the scheme is parsing what follows it. */
  lemma SchemeStripped(rest: string)
    ensures ParseUserinfo(Scheme + rest) == ParseRest(rest)
  {
    PrefixStartsWith(Scheme, rest);
    assert (Scheme + rest)[|Scheme|..] == rest;
  }

  lemma ParseRestAt(rest: string, at: nat, colon: nat)
    requires IndexOf(rest, '@') == Some(at) && IndexOf(rest[..at], ':') == Some(colon)
    ensures ParseRest(rest) == Some(Userinfo(rest[..colon], rest[colon + 1..at], rest[at + 1..]))
  {
    var before := rest[..at];
    assert before[..colon] == rest[..colon];
    assert ParseRest(rest) == Some(Userinfo(before[..colon], rest[colon + 1..at], rest[at + 1..]));
  }

  /** A URL built from a user without `:` or `@` and a password without `@` parses back into its three parts. */
  lemma ParseBuilt(user: string, q: string, tail: string)
    requires ':' !in user && '@' !in user && '@' !in q
    ensures ParseUserinfo(Scheme + (user + [':'] + q + ['@'] + tail)) == Some(Userinfo(user, q, tail))
  {
    var rest := user + [':'] + q + ['@'] + tail;
    assert ParseRest(rest) == Some(Userinfo(user, q, tail)) by {
      SplitRest(user, q, tail);
      ParseRestAt(rest, |user| + 1 + |q|, |user|);
    }
    SchemeStripped(rest);
  }

  /**
   * Provided the user name has no `:` or `@`, the URL gives back the user
   * name verbatim, a password that decodes to the original one, and the
   * host, port and database name verbatim.
   */
  lemma CredentialsRecoverable(secret: map<string, SecretValue>)
    requires BuildDatabaseUrl(secret).Ok?
    requires ':' !in Str(secret["username"]) && '@' !in Str(secret["username"])
    ensures var u := ParseUserinfo(BuildDatabaseUrl(secret).value);
      u.Some? &&
      u.value.user == Str(secret["username"]) &&
      UnquotePlus(u.value.encodedPassword) == Some(secret["password"].s) &&
      u.value.location == Location(secret)
  {
    var pw := secret["password"].s;
    BuiltUrl(secret);
    QuotePlusHasNoDelimiters(pw);
    ParseBuilt(Str(secret["username"]), QuotePlus(pw), Location(secret));
    QuotePlusRoundTrip(pw);
  }
}
