/** JavaScript value semantics the handlers rely on: truthiness of request
    fields, `||` defaults, `String.prototype.toLowerCase` on ASCII letters,
    `\s` / `trim` whitespace, `Array.prototype.join` and
    `String.prototype.split` on one character. */
module Js {

  datatype Option<+T> = None | Some(value: T)

  /** A field of a request body, query string or cookie jar: absent
      (`undefined` or `null`) or a string. */
  type Field = Option<string>

  /** JavaScript truthiness of a field: `undefined`, `null` and "" are falsy. */
  predicate Truthy(f: Field) {
    f.Some? && f.value != ""
  }

  /** `f || d` for a string default `d`. */
  function OrElse(f: Field, d: string): string {
    if Truthy(f) then f.value else d
  }

  /** `f || null`: what a handler passes to the database for an optional column. */
  function OrNull(f: Field): Option<string> {
    if Truthy(f) then Some(f.value) else None
  }

  /** The characters matched by the regular-expression class `\s`, which are
      also the characters `String.prototype.trim` removes (ECMAScript
      WhiteSpace and LineTerminator). */
  predicate IsSpace(c: char) {
    c == '\t' || c == '\n' || c == '\U{000B}' || c == '\U{000C}' || c == '\r' ||
    c == ' ' || c == '\U{00A0}' || c == '\U{1680}' ||
    ('\U{2000}' <= c <= '\U{200A}') ||
    c == '\U{2028}' || c == '\U{2029}' || c == '\U{202F}' || c == '\U{205F}' ||
    c == '\U{3000}' || c == '\U{FEFF}'
  }

  function LowerChar(c: char): char {
    if 'A' <= c <= 'Z' then (c as int - 'A' as int + 'a' as int) as char else c
  }

  /** `s.toLowerCase()`, restricted to the ASCII letters. */
  function Lower(s: string): (r: string)
    ensures |r| == |s|
    ensures forall i :: 0 <= i < |s| ==> r[i] == LowerChar(s[i])
  {
    if s == [] then [] else [LowerChar(s[0])] + Lower(s[1..])
  }

  lemma LowerIdempotent(s: string)
    ensures Lower(Lower(s)) == Lower(s)
  {
  }

  /** `String(s).trim()`. */
  function Trim(s: string): string {
    TrimEnd(TrimStart(s))
  }

  function TrimStart(s: string): string {
    if s != [] && IsSpace(s[0]) then TrimStart(s[1..]) else s
  }

  function TrimEnd(s: string): string {
    if s != [] && IsSpace(s[|s| - 1]) then TrimEnd(s[..|s| - 1]) else s
  }

  /** `!s.trim()` holds exactly when every character of `s` is whitespace. */
  lemma {:induction false} TrimEmptyIff(s: string)
    ensures Trim(s) == "" <==> forall i :: 0 <= i < |s| ==> IsSpace(s[i])
  {
    TrimStartEmptyIff(s);
    var t := TrimStart(s);
    if t != "" {
      TrimStartKeepsHead(s);
      TrimEndKeepsNonSpace(t);
    }
  }

  lemma {:induction false} TrimStartEmptyIff(s: string)
    ensures TrimStart(s) == "" <==> forall i :: 0 <= i < |s| ==> IsSpace(s[i])
  {
    if s != [] && IsSpace(s[0]) {
      TrimStartEmptyIff(s[1..]);
      assert forall i :: 1 <= i < |s| ==> s[i] == s[1..][i - 1];
    }
  }

  lemma {:induction false} TrimStartKeepsHead(s: string)
    requires TrimStart(s) != ""
    ensures !IsSpace(TrimStart(s)[0])
  {
    if s != [] && IsSpace(s[0]) {
      TrimStartKeepsHead(s[1..]);
    }
  }

  lemma {:induction false} TrimEndKeepsNonSpace(t: string)
    requires t != "" && !IsSpace(t[0])
    ensures TrimEnd(t) != ""
  {
    if IsSpace(t[|t| - 1]) {
      assert |t| > 1;
      TrimEndKeepsNonSpace(t[..|t| - 1]);
    }
  }

  /** `items.join(sep)`. */
  function Join(items: seq<string>, sep: string): string {
    if |items| == 0 then ""
    else if |items| == 1 then items[0]
    else items[0] + sep + Join(items[1..], sep)
  }

  /** A property of an object literal: its key and its value. */
  datatype Property<V> = Property(key: string, value: V)

  /** Index of the first property named `key`, or `|props|` when there is none. */
  function KeyIndex<V>(props: seq<Property<V>>, key: string): (k: nat)
    ensures k <= |props|
    ensures k < |props| ==> props[k].key == key
    ensures forall i :: 0 <= i < k ==> props[i].key != key
  {
    if props == [] then 0
    else if props[0].key == key then 0
    else 1 + KeyIndex(props[1..], key)
  }

  /** `obj[key]` on an object literal: the value of the property named
      `key`, or `None` (`undefined`). */
  function PropertyValue<V>(props: seq<Property<V>>, key: string): (r: Option<V>)
    ensures r.None? <==> forall i :: 0 <= i < |props| ==> props[i].key != key
    ensures r.Some? ==> exists i :: 0 <= i < |props| && props[i].key == key && r.value == props[i].value
  {
    var k := KeyIndex(props, key);
    if k < |props| then Some(props[k].value) else None
  }

  /** In an object whose keys are distinct, a key finds a value exactly
      when some property has it, and then finds that property's value. */
  lemma PropertyValueFinds<V>(props: seq<Property<V>>, key: string)
    requires forall i, j :: 0 <= i < j < |props| ==> props[i].key != props[j].key
    ensures PropertyValue(props, key).Some? <==> exists i :: 0 <= i < |props| && props[i].key == key
    ensures forall i :: 0 <= i < |props| && props[i].key == key ==>
      PropertyValue(props, key) == Some(props[i].value)
  {
  }

  /** Index of the first occurrence of `c` in `s`, or `|s|` when there is none. */
  function IndexOf(s: string, c: char): (k: nat)
    ensures k <= |s|
    ensures k < |s| ==> s[k] == c
    ensures forall i :: 0 <= i < k ==> s[i] != c
  {
    if s == [] then 0 else if s[0] == c then 0 else 1 + IndexOf(s[1..], c)
  }

  /** `s.split(c)` for a one-character separator `c`. */
  function Split(s: string, c: char): (pieces: seq<string>)
    ensures |pieces| >= 1
    decreases |s|
  {
    var k := IndexOf(s, c);
    if k == |s| then [s] else [s[..k]] + Split(s[k + 1..], c)
  }

  /** `s.split(c)[1]`: absent when `s` has no `c`, otherwise the text between
      the first `c` and the next `c` (or the end). */
  lemma SplitSecond(s: string, c: char)
    ensures var k := IndexOf(s, c);
            (k == |s| <==> |Split(s, c)| == 1) &&
            (k < |s| ==> Split(s, c)[1] == s[k + 1..][..IndexOf(s[k + 1..], c)])
  {
    var k := IndexOf(s, c);
    if k < |s| {
      var rest := s[k + 1..];
      assert Split(rest, c)[0] == rest[..IndexOf(rest, c)];
    }
  }
}

/** What the handlers rely on from the database: text comparison under the
    column collation, and an opaque clock. */
module Db {
  import opened Js

  /** A `NOW()` value; only compared for equality. */
  type Time = nat

  /** The comparison key a `WHERE col = ?` or a UNIQUE index applies to a
      text value: the value itself under a binary collation, its lower-case
      form under a case-insensitive one (`ci`). */
  function Key(ci: bool, s: string): string {
    if ci then Lower(s) else s
  }
}
