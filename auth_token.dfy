/** The `auth-token` cookie that mirrors the session credential
    (src/shared/utils/auth-token.ts): the cookie string written on login, the
    one written on logout, and the parse of `document.cookie` that reads the
    credential back. */
module AuthToken {
  import opened Wrappers
  import opened Text
  import opened CookieJar

  const TokenCookie := "auth-token"
  /** `${TOKEN_COOKIE}=`, the prefix the reader looks for. */
  const TokenPrefix := "auth-token="

  /** A cookie string for `auth-token`: the pair `auth-token=<value>` and
      the attributes, joined by `;` (each attribute keeps its leading space). */
  function CookieString(value: string, attributes: seq<string>): string {
    Join([TokenPrefix + value] + attributes, ';')
  }

  /** `; Path=/; Max-Age=604800; SameSite=Lax`, then `; Secure` only over
      https; 604800 is ONE_WEEK_IN_SECONDS = 60 * 60 * 24 * 7. */
  function SetAttributes(https: bool): seq<string> {
    [" Path=/", " Max-Age=604800", " SameSite=Lax"] + SecureFlag(https)
  }

  function SecureFlag(https: bool): seq<string> {
    if https then [" Secure"] else []
  }

  /** `; Path=/; Max-Age=0; SameSite=Lax` */
  function ClearAttributes(): seq<string> {
    [" Path=/", " Max-Age=0", " SameSite=Lax"]
  }

  /** The string `setAuthTokenCookie` assigns. */
  function SetCookieString(token: string, https: bool): string {
    CookieString(token, SetAttributes(https))
  }

  /** The string `clearAuthTokenCookie` assigns. */
  function ClearCookieString(): string {
    CookieString("", ClearAttributes())
  }

  lemma PathText() ensures [';'] + " Path=/" == "; Path=/" {}
  lemma WeekText() ensures [';'] + " Max-Age=604800" == "; Max-Age=604800" {}
  lemma SameSiteText() ensures [';'] + " SameSite=Lax" == "; SameSite=Lax" {}
  lemma SecureText() ensures [';'] + " Secure" == "; Secure" {}
  lemma ExpireText() ensures [';'] + " Max-Age=0" == "; Max-Age=0" {}

  /** The exact text `setAuthTokenCookie` assigns. */
  lemma SetCookieText(token: string, https: bool)
    ensures SetCookieString(token, https)
            == "auth-token=" + token + "; Path=/" + "; Max-Age=604800" + "; SameSite=Lax"
               + (if https then "; Secure" else "")
  {
    PathText();
    WeekText();
    SameSiteText();
    if https {
      SecureText();
      assert SetAttributes(https) == [" Path=/", " Max-Age=604800", " SameSite=Lax", " Secure"];
      JoinFive(TokenPrefix + token, " Path=/", " Max-Age=604800", " SameSite=Lax", " Secure", ';');
    } else {
      assert SetAttributes(https) == [" Path=/", " Max-Age=604800", " SameSite=Lax"];
      JoinFour(TokenPrefix + token, " Path=/", " Max-Age=604800", " SameSite=Lax", ';');
    }
  }

  /** The exact text `clearAuthTokenCookie` assigns. */
  lemma ClearCookieText()
    ensures ClearCookieString() == "auth-token=" + "; Path=/" + "; Max-Age=0" + "; SameSite=Lax"
  {
    PathText();
    ExpireText();
    SameSiteText();
    JoinFour(TokenPrefix + "", " Path=/", " Max-Age=0", " SameSite=Lax", ';');
    assert TokenPrefix + "" == TokenPrefix;
  }

  /** The loop of `getAuthTokenFromCookie` as a function of the trimmed
      entries: the text after `auth-token=` of the first entry that starts with
      it, where an empty text means no token. */
  function FindToken(entries: seq<string>): Option<string> {
    if entries == [] then None
    else if StartsWith(entries[0], TokenPrefix) then
      var v := entries[0][|TokenPrefix|..];
      if v == [] then None else Some(v)
    else FindToken(entries[1..])
  }

  /** Entries whose name only resembles the key are passed over, and the
      first entry with the key decides, even when its value is empty. */
  lemma LookalikeNames()
    ensures FindToken(["xauth-token=a", "auth-tokens=b", "auth-token=c"]) == Some("c")
    ensures FindToken(["auth-token=", "auth-token=c"]) == None
  {
    assert !StartsWith("xauth-token=a", TokenPrefix) by { assert "xauth-token=a"[0] != TokenPrefix[0]; }
    assert !StartsWith("auth-tokens=b", TokenPrefix) by { assert "auth-tokens=b"[10] != TokenPrefix[10]; }
    assert StartsWith("auth-token=c", TokenPrefix) && "auth-token=c"[|TokenPrefix|..] == "c";
    assert StartsWith("auth-token=", TokenPrefix);
  }

  /** The credential the jar carries: a non-empty `auth-token` value. */
  function TokenOf(jar: Jar): Option<string> {
    match Lookup(jar, TokenCookie)
    case Some(v) => if v == [] then None else Some(v)
    case None => None
  }

  /** The text before a stored entry's first `=` is its name, so the entry
      starts with `n=` exactly when the cookie is called `n`. */
  lemma EntryNamed(c: Cookie, n: string)
    requires '=' !in c.name && '=' !in n
    ensures StartsWith(Entry(c), n + "=") <==> c.name == n
    ensures c.name == n ==> Entry(c)[|n| + 1..] == c.value
  {
    var e := Entry(c);
    if StartsWith(e, n + "=") {
      IndexAfterName(c.name, c.value);
      var rest := e[|n| + 1..];
      assert e == n + "=" + rest;
      IndexAfterName(n, rest);
      assert c.name == e[..|c.name|];
    }
  }

  lemma PrefixIsName()
    ensures TokenPrefix == TokenCookie + "="
  {}

  /** A stored entry starts with `auth-token=` exactly when the cookie is
      called `auth-token`: `xauth-token` and `auth-tokens` do not match. */
  lemma EntryMatches(c: Cookie)
    requires ValidCookie(c)
    ensures StartsWith(Entry(c), TokenPrefix) <==> c.name == TokenCookie
    ensures c.name == TokenCookie ==> Entry(c)[|TokenPrefix|..] == c.value
  {
    TokenCookieValid();
    PrefixIsName();
    EntryNamed(c, TokenCookie);
  }

  lemma EntryTrimmed(c: Cookie)
    requires ValidCookie(c)
    ensures IsTrimmed(Entry(c)) && Entry(c) != [] && ';' !in Entry(c)
  {
    var e := Entry(c);
    assert e[0] == c.name[0];
    if c.value != [] {
      assert e[|e| - 1] == c.value[|c.value| - 1];
    }
  }

  /** The entries of a well-formed jar, as the reader sees them after `trim`. */
  function Entries(jar: Jar): seq<string> {
    if jar == [] then [] else [Entry(jar[0])] + Entries(jar[1..])
  }

  lemma {:induction false} TrimSpaced(jar: Jar)
    requires WellFormed(jar)
    ensures TrimAll(Spaced(jar)) == Entries(jar)
    ensures forall i :: 0 <= i < |Spaced(jar)| ==> ';' !in Spaced(jar)[i]
  {
    if jar != [] {
      EntryTrimmed(jar[0]);
      TrimLeadingSpace(Entry(jar[0]));
      TrimSpaced(jar[1..]);
      assert Spaced(jar)[1..] == Spaced(jar[1..]);
    }
  }

  lemma {:induction false} FindEntries(jar: Jar)
    requires WellFormed(jar)
    ensures FindToken(Entries(jar)) == TokenOf(jar)
  {
    if jar != [] {
      EntryMatches(jar[0]);
      assert Entries(jar)[1..] == Entries(jar[1..]);
      if jar[0].name != TokenCookie {
        FindEntries(jar[1..]);
      }
    }
  }

  /** Reading `document.cookie` finds exactly the jar's credential. */
  lemma ReadHeader(jar: Jar)
    requires WellFormed(jar)
    ensures FindToken(TrimAll(Split(Header(jar), ';'))) == TokenOf(jar)
  {
    if jar == [] {
      assert Split(Header(jar), ';') == [""];
    } else {
      EntryTrimmed(jar[0]);
      TrimSpaced(jar[1..]);
      var pieces := Pieces(jar);
      assert pieces[1..] == Spaced(jar[1..]);
      assert forall i :: 0 <= i < |pieces| ==> ';' !in pieces[i] by {
        forall i | 0 <= i < |pieces| ensures ';' !in pieces[i] {
          if i > 0 { assert pieces[i] == Spaced(jar[1..])[i - 1]; }
        }
      }
      SplitJoin(pieces, ';');
      var trimmed := TrimAll(pieces);
      assert trimmed == [Entry(jar[0])] + TrimAll(Spaced(jar[1..]));
      assert trimmed == Entries(jar);
      FindEntries(jar);
    }
  }

  lemma TokenCookieValid()
    ensures IsTrimmed(TokenCookie) && TokenCookie != [] && '=' !in TokenCookie && ';' !in TokenCookie
  {
    assert IsTrimmed(TokenCookie);
    assert '=' !in TokenCookie && ';' !in TokenCookie;
  }

  lemma PrefixSplits(v: string)
    ensures TokenPrefix + v == TokenCookie + "=" + v
  {}

  /** A cookie string `name=<v>` followed by separator-free attributes is
      read as a write of `name`, for any trimmed name without `=` or `;`. */
  lemma ParseNamed(name: string, v: string, rest: seq<string>)
    requires IsTrimmed(name) && name != [] && '=' !in name && ';' !in name
    requires ';' !in v
    requires forall i :: 0 <= i < |rest| ==> ';' !in rest[i]
    ensures ParseWrite(Join([name + "=" + v] + rest, ';'))
            == Some(CookieWrite(name, Trim(v), HasAttribute(rest, "Max-Age=0")))
  {
    var parts := [name + "=" + v] + rest;
    assert parts[1..] == rest;
    assert forall i :: 0 <= i < |parts| ==> ';' !in parts[i] by {
      forall i | 0 <= i < |parts| ensures ';' !in parts[i] {
        if i > 0 { assert parts[i] == rest[i - 1]; }
      }
    }
    SplitJoin(parts, ';');
    ParseFields(Join(parts, ';'), name, v, rest);
  }

  /** The first `;`-separated field of the cookie string is `auth-token=<v>`,
      so the browser stores or deletes the cookie `auth-token`. */
  lemma ParsePair(v: string, rest: seq<string>, expired: bool)
    requires ';' !in v
    requires forall i :: 0 <= i < |rest| ==> ';' !in rest[i]
    requires expired <==> HasAttribute(rest, "Max-Age=0")
    ensures ParseWrite(CookieString(v, rest)) == Some(CookieWrite(TokenCookie, Trim(v), expired))
  {
    TokenCookieValid();
    PrefixSplits(v);
    ParseNamed(TokenCookie, v, rest);
  }

  lemma PathNotExpiry() ensures Trim(" Path=/") != "Max-Age=0" { TrimLeadingSpace("Path=/"); }
  lemma WeekNotExpiry() ensures Trim(" Max-Age=604800") != "Max-Age=0" { TrimLeadingSpace("Max-Age=604800"); }
  lemma SameSiteNotExpiry() ensures Trim(" SameSite=Lax") != "Max-Age=0" { TrimLeadingSpace("SameSite=Lax"); }
  lemma SecureNotExpiry(https: bool) ensures !HasAttribute(SecureFlag(https), "Max-Age=0") { TrimLeadingSpace("Secure"); }

  lemma SetAttributesShape(https: bool)
    ensures SetAttributes(https) == [" Path=/"] + ([" Max-Age=604800"] + ([" SameSite=Lax"] + SecureFlag(https)))
  {}

  lemma NoneOfThree(a: string, b: string, c: string, tail: seq<string>, attribute: string)
    requires Trim(a) != attribute && Trim(b) != attribute && Trim(c) != attribute
    requires !HasAttribute(tail, attribute)
    ensures !HasAttribute([a] + ([b] + ([c] + tail)), attribute)
  {
    HasAttributeCons(c, tail, attribute);
    HasAttributeCons(b, [c] + tail, attribute);
    HasAttributeCons(a, [b] + ([c] + tail), attribute);
  }

  lemma SetAttributesSeparated(https: bool)
    ensures forall i :: 0 <= i < |SetAttributes(https)| ==> ';' !in SetAttributes(https)[i]
  {}

  /** The login attributes do not ask for deletion. */
  lemma SetAttributesKeep(https: bool)
    ensures !HasAttribute(SetAttributes(https), "Max-Age=0")
  {
    PathNotExpiry();
    WeekNotExpiry();
    SameSiteNotExpiry();
    SecureNotExpiry(https);
    SetAttributesShape(https);
    NoneOfThree(" Path=/", " Max-Age=604800", " SameSite=Lax", SecureFlag(https), "Max-Age=0");
  }

  lemma ClearAttributesSeparated()
    ensures forall i :: 0 <= i < |ClearAttributes()| ==> ';' !in ClearAttributes()[i]
  {}

  lemma ClearAttributesShape()
    ensures ClearAttributes() == [" Path=/"] + ([" Max-Age=0"] + [" SameSite=Lax"])
  {}

  lemma MaxAgeZero() ensures Trim(" Max-Age=0") == "Max-Age=0" {
    assert " Max-Age=0" == [' '] + "Max-Age=0";
    TrimLeadingSpace("Max-Age=0");
  }

  lemma SecondOfThree(a: string, b: string, c: string, attribute: string)
    requires Trim(b) == attribute
    ensures HasAttribute([a] + ([b] + [c]), attribute)
  {
    HasAttributeCons(b, [c], attribute);
    HasAttributeCons(a, [b] + [c], attribute);
  }

  /** The logout attributes ask for deletion. */
  lemma ClearAttributesExpire()
    ensures HasAttribute(ClearAttributes(), "Max-Age=0")
  {
    MaxAgeZero();
    ClearAttributesShape();
    SecondOfThree(" Path=/", " Max-Age=0", " SameSite=Lax", "Max-Age=0");
  }

  /** `setAuthTokenCookie` stores `auth-token` with the trimmed token. */
  lemma SetCookieFields(token: string, https: bool)
    requires ';' !in token
    ensures ParseWrite(SetCookieString(token, https)) == Some(CookieWrite(TokenCookie, Trim(token), false))
  {
    SetAttributesSeparated(https);
    SetAttributesKeep(https);
    ParsePair(token, SetAttributes(https), false);
  }

  /** `clearAuthTokenCookie` deletes `auth-token`. */
  lemma ClearCookieFields()
    ensures ParseWrite(ClearCookieString()) == Some(CookieWrite(TokenCookie, "", true))
  {
    ClearAttributesSeparated();
    ClearAttributesExpire();
    ParsePair("", ClearAttributes(), true);
  }

  /** Mirror round trip: after `setAuthTokenCookie(t)` the reader returns the
      trimmed `t` (none when that is empty), and no other cookie changes. */
  lemma SetThenRead(jar: Jar, token: string, https: bool, other: string)
    requires WellFormed(jar) && ';' !in token
    ensures TokenOf(Write(jar, SetCookieString(token, https)))
         == if Trim(token) == [] then None else Some(Trim(token))
    ensures other != TokenCookie ==> Lookup(Write(jar, SetCookieString(token, https)), other) == Lookup(jar, other)
  {
    SetCookieFields(token, https);
    LookupStore(jar, TokenCookie, Trim(token), TokenCookie);
    LookupStore(jar, TokenCookie, Trim(token), other);
  }

  /** The round trip for a token as the server issues it. */
  lemma SetThenReadExact(jar: Jar, token: string, https: bool)
    requires WellFormed(jar) && ';' !in token && token != [] && IsTrimmed(token)
    ensures TokenOf(Write(jar, SetCookieString(token, https))) == Some(token)
  {
    SetThenRead(jar, token, https, TokenCookie);
  }

  /** After `clearAuthTokenCookie()` the reader finds nothing, whatever was
      stored, and no other cookie changes. */
  lemma ClearThenRead(jar: Jar, other: string)
    ensures TokenOf(Write(jar, ClearCookieString())) == None
    ensures other != TokenCookie ==> Lookup(Write(jar, ClearCookieString()), other) == Lookup(jar, other)
  {
    ClearCookieFields();
    LookupRemove(jar, TokenCookie, TokenCookie);
    LookupRemove(jar, TokenCookie, other);
  }

  /** Logging out twice leaves the jar as logging out once. */
  lemma ClearTwice(jar: Jar)
    ensures Write(Write(jar, ClearCookieString()), ClearCookieString()) == Write(jar, ClearCookieString())
  {
    ClearCookieFields();
    RemoveTwice(jar, TokenCookie);
  }

  /** The page's `document` and `window`. `inBrowser` is `isBrowser()`;
      `https` is `window.location.protocol === "https:"`. */
  class Document {
    var jar: Jar
    const inBrowser: bool
    const https: bool

    ghost predicate Valid()
      reads this
    {
      WellFormed(jar)
    }

    constructor (jar: Jar, inBrowser: bool, https: bool)
      requires WellFormed(jar)
      ensures Valid() && this.jar == jar && this.inBrowser == inBrowser && this.https == https
    {
      this.jar := jar;
      this.inBrowser := inBrowser;
      this.https := https;
    }

    /** `setAuthTokenCookie(token)`: nothing for an empty token or outside a browser. */
    method SetAuthTokenCookie(token: string)
      requires Valid()
      modifies this`jar
      ensures Valid()
      ensures jar == if token == [] || !inBrowser then old(jar) else Write(old(jar), SetCookieString(token, https))
    {
      if token == [] || !inBrowser {
        return;
      }
      WriteWellFormed(jar, SetCookieString(token, https));
      jar := Write(jar, SetCookieString(token, https));
    }

    /** `clearAuthTokenCookie()`: nothing outside a browser. */
    method ClearAuthTokenCookie()
      requires Valid()
      modifies this`jar
      ensures Valid()
      ensures jar == if !inBrowser then old(jar) else Write(old(jar), ClearCookieString())
      ensures inBrowser ==> TokenOf(jar) == None
    {
      if !inBrowser {
        return;
      }
      WriteWellFormed(jar, ClearCookieString());
      ClearThenRead(jar, TokenCookie);
      jar := Write(jar, ClearCookieString());
    }

    /** The value `getAuthTokenFromCookie()` returns on this page. */
    function CookieToken(): Option<string>
      reads this
    {
      if inBrowser then TokenOf(jar) else None
    }

    /** `getAuthTokenFromCookie()`: the jar's credential, none outside a browser. */
    method GetAuthTokenFromCookie() returns (token: Option<string>)
      requires Valid()
      ensures token == if inBrowser then TokenOf(jar) else None
      ensures token == CookieToken()
    {
      if !inBrowser {
        return None;
      }
      ReadHeader(jar);
      token := ScanEntries(TrimAll(Split(Header(jar), ';')));
    }
  }

  /** The loop of `getAuthTokenFromCookie` over the trimmed entries of
      `document.cookie`: the first entry starting with `auth-token=` decides. */
  method ScanEntries(cookies: seq<string>) returns (token: Option<string>)
    ensures token == FindToken(cookies)
  {
    var i := 0;
    while i < |cookies|
      invariant 0 <= i <= |cookies|
      invariant FindToken(cookies[i..]) == FindToken(cookies)
    {
      assert cookies[i..][1..] == cookies[i + 1..];
      if StartsWith(cookies[i], TokenPrefix) {
        var v := cookies[i][|TokenPrefix|..];
        return if v == [] then None else Some(v);
      }
      i := i + 1;
    }
    return None;
  }
}
