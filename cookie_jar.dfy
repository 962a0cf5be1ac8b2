/** The browser's cookie jar, as far as `document.cookie` exposes it: an
    ordered list of name/value pairs with distinct names. Reading
    `document.cookie` joins them as `name=value` with "; " between; assigning
    a cookie string to it stores, replaces or (with `Max-Age=0`) deletes one
    pair. Paths, expiry times and the `Secure` flag are not part of the jar. */
module CookieJar {
  import opened Wrappers
  import opened Text

  datatype Cookie = Cookie(name: string, value: string)

  type Jar = seq<Cookie>

  /** What the browser keeps: trimmed names that are non-empty and hold no
      `;` or `=`, trimmed values that hold no `;`. */
  predicate ValidCookie(c: Cookie) {
    && c.name != [] && IsTrimmed(c.name) && ';' !in c.name && '=' !in c.name
    && IsTrimmed(c.value) && ';' !in c.value
  }

  function Names(jar: Jar): set<string> {
    if jar == [] then {} else {jar[0].name} + Names(jar[1..])
  }

  predicate WellFormed(jar: Jar) {
    jar == [] || (ValidCookie(jar[0]) && jar[0].name !in Names(jar[1..]) && WellFormed(jar[1..]))
  }

  /** The value stored under `name`, if any (`request.cookies.get(name)?.value`). */
  function Lookup(jar: Jar, name: string): (r: Option<string>)
    ensures r.Some? <==> name in Names(jar)
  {
    if jar == [] then None
    else if jar[0].name == name then Some(jar[0].value)
    else Lookup(jar[1..], name)
  }

  /** One pair as `document.cookie` shows it. */
  function Entry(c: Cookie): string {
    c.name + "=" + c.value
  }

  /** The pieces of `document.cookie` between its `;` separators: every pair
      after the first carries the space of the "; " separator. */
  function Pieces(jar: Jar): seq<string> {
    if jar == [] then [] else [Entry(jar[0])] + Spaced(jar[1..])
  }

  function Spaced(jar: Jar): seq<string> {
    if jar == [] then [] else [[' '] + Entry(jar[0])] + Spaced(jar[1..])
  }

  /** The string `document.cookie` reads. */
  function Header(jar: Jar): string {
    Join(Pieces(jar), ';')
  }

  /** One assignment to `document.cookie`, as the browser parses it. */
  datatype CookieWrite = CookieWrite(name: string, value: string, expired: bool)

  /** The browser's parse of an assigned cookie string: the name/value pair is
      the text before the first `;`, split at its first `=`, both halves
      trimmed; a string without `=` or with an empty name is ignored; an
      attribute `Max-Age=0` asks for deletion. */
  function ParseWrite(s: string): (w: Option<CookieWrite>)
    ensures w.Some? ==> ValidCookie(Cookie(w.value.name, w.value.value))
  {
    var fields := Split(s, ';');
    var pair := fields[0];
    if '=' !in pair then None
    else
      var i := IndexOf(pair, '=');
      var name := Trim(pair[..i]);
      if name == [] then None
      else Some(CookieWrite(name, Trim(pair[i + 1..]), HasAttribute(fields[1..], "Max-Age=0")))
  }

  /** The first `=` of `name=value` is the one after the name. */
  lemma IndexAfterName(name: string, value: string)
    requires '=' !in name
    ensures '=' in name + "=" + value && IndexOf(name + "=" + value, '=') == |name|
  {
    var pair := name + "=" + value;
    assert pair[|name|] == '=';
    assert pair[..|name|] == name;
  }

  /** How the browser reads a cookie string whose `;`-separated fields are a
      `name=value` pair followed by attributes. */
  lemma ParseFields(s: string, name: string, value: string, attributes: seq<string>)
    requires Split(s, ';') == [name + "=" + value] + attributes
    requires '=' !in name && Trim(name) != []
    ensures ParseWrite(s) == Some(CookieWrite(Trim(name), Trim(value), HasAttribute(attributes, "Max-Age=0")))
  {
    var pair := name + "=" + value;
    IndexAfterName(name, value);
    assert pair[..|name|] == name;
    assert pair[|name| + 1..] == value;
    assert Split(s, ';')[1..] == attributes;
  }

  /** Some attribute, trimmed, is `attribute`. */
  predicate HasAttribute(attributes: seq<string>, attribute: string) {
    attributes != [] && (Trim(attributes[0]) == attribute || HasAttribute(attributes[1..], attribute))
  }

  lemma HasAttributeCons(a: string, rest: seq<string>, attribute: string)
    ensures HasAttribute([a] + rest, attribute) <==> Trim(a) == attribute || HasAttribute(rest, attribute)
  {
    assert ([a] + rest)[1..] == rest;
  }

  /** Sets `name` to `value`: in place when the name is already stored,
      otherwise as a new last pair. */
  function Store(jar: Jar, name: string, value: string): (r: Jar)
    ensures Names(r) == Names(jar) + {name}
  {
    if jar == [] then [Cookie(name, value)]
    else if jar[0].name == name then [Cookie(name, value)] + jar[1..]
    else [jar[0]] + Store(jar[1..], name, value)
  }

  /** Deletes every pair called `name`. */
  function Remove(jar: Jar, name: string): (r: Jar)
    ensures Names(r) == Names(jar) - {name}
  {
    if jar == [] then []
    else if jar[0].name == name then Remove(jar[1..], name)
    else [jar[0]] + Remove(jar[1..], name)
  }

  /** The jar after `document.cookie = s`. */
  function Write(jar: Jar, s: string): Jar {
    match ParseWrite(s)
    case None => jar
    case Some(w) => if w.expired then Remove(jar, w.name) else Store(jar, w.name, w.value)
  }

  /** Storing a pair changes the value under that name and no other. */
  lemma {:induction false} LookupStore(jar: Jar, name: string, value: string, other: string)
    ensures Lookup(Store(jar, name, value), other) == if other == name then Some(value) else Lookup(jar, other)
  {
    if jar != [] && jar[0].name != name {
      LookupStore(jar[1..], name, value, other);
    }
  }

  /** Deleting a name leaves every other name as it was. */
  lemma {:induction false} LookupRemove(jar: Jar, name: string, other: string)
    ensures Lookup(Remove(jar, name), other) == if other == name then None else Lookup(jar, other)
  {
    if jar != [] {
      LookupRemove(jar[1..], name, other);
    }
  }

  /** Deleting twice is deleting once. */
  lemma {:induction false} RemoveTwice(jar: Jar, name: string)
    ensures Remove(Remove(jar, name), name) == Remove(jar, name)
  {
    if jar != [] {
      RemoveTwice(jar[1..], name);
      if jar[0].name != name {
        assert ([jar[0]] + Remove(jar[1..], name))[1..] == Remove(jar[1..], name);
      }
    }
  }

  lemma {:induction false} StoreWellFormed(jar: Jar, name: string, value: string)
    requires WellFormed(jar) && ValidCookie(Cookie(name, value))
    ensures WellFormed(Store(jar, name, value))
  {
    if jar != [] && jar[0].name != name {
      StoreWellFormed(jar[1..], name, value);
    }
  }

  lemma {:induction false} RemoveWellFormed(jar: Jar, name: string)
    requires WellFormed(jar)
    ensures WellFormed(Remove(jar, name))
  {
    if jar != [] {
      RemoveWellFormed(jar[1..], name);
    }
  }

  /** Whatever is assigned, the browser keeps a well-formed jar. */
  lemma WriteWellFormed(jar: Jar, s: string)
    requires WellFormed(jar)
    ensures WellFormed(Write(jar, s))
  {
    match ParseWrite(s)
    case None =>
    case Some(w) =>
      if w.expired { RemoveWellFormed(jar, w.name); } else { StoreWellFormed(jar, w.name, w.value); }
  }
}
