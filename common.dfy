/** Shared vocabulary of the model: optional values, JSON values as the
    JavaScript runtime sees them, and the few string operations the client
    and server code rely on (truthiness, `String(x)`, `trim`, `startsWith`,
    `includes`, `split`). */
module Common {

  datatype Option<+T> = None | Some(value: T)

  /** A JavaScript value that came out of `JSON.parse` or is about to go into
      `JSON.stringify`. `Undefined` stands for an absent property. Numbers are
      integers here; fractions and NaN are not modelled. Object fields keep
      their insertion order and, as `JSON.parse` leaves them, hold each key
      once. */
  datatype Json =
    | Undefined
    | Null
    | Bool(b: bool)
    | Num(n: int)
    | Str(s: string)
    | Arr(items: seq<Json>)
    | Obj(fields: seq<(string, Json)>)

  /** JavaScript truthiness: `undefined`, `null`, `false`, `0` and `""` are
      falsy, every other value (including `[]` and `{}`) is truthy. */
  predicate Truthy(v: Json)
  {
    match v
    case Undefined => false
    case Null => false
    case Bool(b) => b
    case Num(n) => n != 0
    case Str(s) => s != ""
    case Arr(_) => true
    case Obj(_) => true
  }

  /** `typeof v === "object" && v !== null` */
  predicate IsObject(v: Json)
  {
    v.Arr? || v.Obj?
  }

  /** Truthiness of an optional string (`s || ...`). */
  predicate Present(s: Option<string>)
  {
    s.Some? && s.value != ""
  }

  /** `a || b` on two optional strings. */
  function OrElse(a: Option<string>, b: string): (r: string)
    ensures Present(a) ==> r == a.value
    ensures !Present(a) ==> r == b
  {
    if Present(a) then a.value else b
  }

  /** `v == null` in the loose sense: reading a property of such a value
      throws a TypeError. */
  predicate IsNullish(v: Json)
  {
    v.Undefined? || v.Null?
  }

  /** `v.key` on a value that is not null or undefined: the value of the last
      field of that name (`JSON.parse` keeps the last of duplicate keys), and
      undefined when there is none or `v` is not a plain object. */
  function Get(v: Json, key: string): (r: Json)
    ensures !v.Obj? ==> r == Undefined
    ensures v.Obj? && |v.fields| > 0 && v.fields[|v.fields| - 1].0 == key ==> r == v.fields[|v.fields| - 1].1
  {
    if v.Obj? then Lookup(v.fields, key) else Undefined
  }

  function Lookup(fields: seq<(string, Json)>, key: string): (r: Json)
    ensures (forall i :: 0 <= i < |fields| ==> fields[i].0 != key) ==> r == Undefined
    ensures r != Undefined ==> exists i :: 0 <= i < |fields| && fields[i] == (key, r)
    decreases |fields|
  {
    if fields == [] then Undefined
    else if fields[|fields| - 1].0 == key then fields[|fields| - 1].1
    else Lookup(fields[..|fields| - 1], key)
  }

  /** A key held by one field only reads as that field's value. */
  lemma {:induction false} LookupUnique(fields: seq<(string, Json)>, i: nat)
    requires i < |fields|
    requires forall j :: 0 <= j < |fields| && j != i ==> fields[j].0 != fields[i].0
    ensures Lookup(fields, fields[i].0) == fields[i].1
    decreases |fields|
  {
    if i < |fields| - 1 {
      var init := fields[..|fields| - 1];
      assert init[i] == fields[i];
      LookupUnique(init, i);
    }
  }

  /** `Object.entries(v)` for an array or object: index/element pairs of an
      array, the fields of an object. */
  function ObjectEntries(v: Json): (r: seq<(string, Json)>)
    requires IsObject(v)
    ensures v.Obj? ==> r == v.fields
    ensures v.Arr? ==> |r| == |v.items|
  {
    if v.Obj? then v.fields
    else seq(|v.items|, i requires 0 <= i < |v.items| => (NatToString(i), v.items[i]))
  }

  /** `a || b` on JSON values. */
  function Or(a: Json, b: Json): (r: Json)
    ensures Truthy(a) ==> r == a
    ensures !Truthy(a) ==> r == b
  {
    if Truthy(a) then a else b
  }

  // ---------------------------------------------------------------------------
  // Object literals with spreads
  // ---------------------------------------------------------------------------

  predicate HasKey(fields: seq<(string, Json)>, key: string)
  {
    exists i :: 0 <= i < |fields| && fields[i].0 == key
  }

  /** Setting one property: a key already present keeps its place and takes
      the new value, a new key goes last. */
  function SetField(fields: seq<(string, Json)>, key: string, value: Json): (r: seq<(string, Json)>)
    ensures HasKey(fields, key) ==> |r| == |fields|
    ensures !HasKey(fields, key) ==> r == fields + [(key, value)]
  {
    if HasKey(fields, key) then
      seq(|fields|, i requires 0 <= i < |fields| => if fields[i].0 == key then (key, value) else fields[i])
    else fields + [(key, value)]
  }

  lemma {:induction false} LookupReplaced(fields: seq<(string, Json)>, key: string, value: Json, k: string)
    ensures var r := seq(|fields|, i requires 0 <= i < |fields| => if fields[i].0 == key then (key, value) else fields[i]);
      Lookup(r, k) == if k == key && HasKey(fields, key) then value else Lookup(fields, k)
    decreases |fields|
  {
    var r := seq(|fields|, i requires 0 <= i < |fields| => if fields[i].0 == key then (key, value) else fields[i]);
    if fields != [] {
      var init := fields[..|fields| - 1];
      var ri := seq(|init|, i requires 0 <= i < |init| => if init[i].0 == key then (key, value) else init[i]);
      assert r[..|r| - 1] == ri;
      LookupReplaced(init, key, value, k);
      if k == key && HasKey(fields, key) && fields[|fields| - 1].0 != key {
        var i :| 0 <= i < |fields| && fields[i].0 == key;
        assert init[i].0 == key;
      }
    }
  }

  /** After setting a property, reading it gives the new value and every
      other property reads as before. */
  lemma SetFieldLookup(fields: seq<(string, Json)>, key: string, value: Json, k: string)
    ensures Lookup(SetField(fields, key, value), k) == if k == key then value else Lookup(fields, k)
    ensures HasKey(SetField(fields, key, value), k) <==> k == key || HasKey(fields, k)
  {
    if HasKey(fields, key) {
      LookupReplaced(fields, key, value, k);
      var r := SetField(fields, key, value);
      if HasKey(fields, k) {
        var i :| 0 <= i < |fields| && fields[i].0 == k;
        assert r[i].0 == k;
      }
    } else {
      var r := fields + [(key, value)];
      assert r[..|r| - 1] == fields;
      if HasKey(fields, k) {
        var i :| 0 <= i < |fields| && fields[i].0 == k;
        assert r[i].0 == k;
      }
      if HasKey(r, k) && k != key {
        var i :| 0 <= i < |r| && r[i].0 == k;
        assert fields[i].0 == k;
      }
    }
  }

  /** `{...base, ...entries}`: the entries set one after the other. */
  function Spread(base: seq<(string, Json)>, entries: seq<(string, Json)>): seq<(string, Json)>
    decreases |entries|
  {
    if entries == [] then base
    else SetField(Spread(base, entries[..|entries| - 1]), entries[|entries| - 1].0, entries[|entries| - 1].1)
  }

  /** A spread property reads as the spread value's property when that has
      it, and as the base's otherwise. */
  lemma {:induction false} SpreadLookup(base: seq<(string, Json)>, entries: seq<(string, Json)>, k: string)
    ensures Lookup(Spread(base, entries), k) == if HasKey(entries, k) then Lookup(entries, k) else Lookup(base, k)
    ensures HasKey(Spread(base, entries), k) <==> HasKey(entries, k) || HasKey(base, k)
    decreases |entries|
  {
    if entries != [] {
      var init := entries[..|entries| - 1];
      var last := entries[|entries| - 1];
      SpreadLookup(base, init, k);
      SetFieldLookup(Spread(base, init), last.0, last.1, k);
      LookupLast(entries, k);
    }
  }

  /** Reading a key of a non-empty field list: the last field when it has
      the key, the earlier fields otherwise. */
  lemma LookupLast(entries: seq<(string, Json)>, k: string)
    requires entries != []
    ensures Lookup(entries, k) == if entries[|entries| - 1].0 == k then entries[|entries| - 1].1 else Lookup(entries[..|entries| - 1], k)
    ensures HasKey(entries, k) <==> HasKey(entries[..|entries| - 1], k) || entries[|entries| - 1].0 == k
  {
    assert entries == entries[..|entries| - 1] + [entries[|entries| - 1]];
    HasKeySnoc(entries[..|entries| - 1], entries[|entries| - 1], k);
  }

  lemma HasKeySnoc(init: seq<(string, Json)>, last: (string, Json), k: string)
    ensures HasKey(init + [last], k) <==> HasKey(init, k) || last.0 == k
  {
    var e := init + [last];
    if HasKey(init, k) {
      var i :| 0 <= i < |init| && init[i].0 == k;
      assert e[i].0 == k;
    }
    if last.0 == k {
      assert e[|init|].0 == k;
    }
    if HasKey(e, k) && last.0 != k {
      var i :| 0 <= i < |e| && e[i].0 == k;
      assert init[i].0 == k;
    }
  }

  /** What `...v` contributes to an object literal: the fields of an object,
      index/element pairs of an array, index/character pairs of a string, and
      nothing for any other value. */
  function SpreadEntries(v: Json): (r: seq<(string, Json)>)
    ensures IsObject(v) ==> r == ObjectEntries(v)
    ensures !IsObject(v) && !v.Str? ==> r == []
  {
    if IsObject(v) then ObjectEntries(v)
    else if v.Str? then seq(|v.s|, i requires 0 <= i < |v.s| => (NatToString(i), Str([v.s[i]])))
    else []
  }

  // ---------------------------------------------------------------------------
  // Decimal rendering of integers (template literals, `String(n)`)
  // ---------------------------------------------------------------------------

  function DigitChar(d: nat): (c: char)
    requires d < 10
    ensures '0' <= c <= '9'
    ensures c as int == '0' as int + d
  {
    ('0' as int + d) as char
  }

  function NatToString(n: nat): (s: string)
    ensures |s| >= 1
    ensures forall i :: 0 <= i < |s| ==> '0' <= s[i] <= '9'
    decreases n
  {
    if n < 10 then [DigitChar(n)] else NatToString(n / 10) + [DigitChar(n % 10)]
  }

  /** Different numbers render differently. */
  lemma {:induction false} NatToStringInjective(a: nat, b: nat)
    requires NatToString(a) == NatToString(b)
    ensures a == b
    decreases a
  {
    var sa, sb := NatToString(a), NatToString(b);
    if a < 10 && b < 10 {
      assert sa[0] == sb[0];
    } else if a >= 10 && b >= 10 {
      assert sa[|sa| - 1] == sb[|sb| - 1];
      assert sa[..|sa| - 1] == NatToString(a / 10);
      assert sb[..|sb| - 1] == NatToString(b / 10);
      NatToStringInjective(a / 10, b / 10);
    }
  }

  function IntToString(n: int): (s: string)
    ensures |s| >= 1
  {
    if n < 0 then "-" + NatToString(-n) else NatToString(n)
  }

  // ---------------------------------------------------------------------------
  // String(x)
  // ---------------------------------------------------------------------------

  /** `String(v)`: what a template literal or `String(...)` produces. Arrays
      join their elements with "," (null and undefined elements give ""),
      plain objects give "[object Object]". */
  function JsString(v: Json): (s: string)
    ensures v.Str? ==> s == v.s
    decreases v, 1
  {
    match v
    case Undefined => "undefined"
    case Null => "null"
    case Bool(b) => if b then "true" else "false"
    case Num(n) => IntToString(n)
    case Str(s) => s
    case Arr(items) => JoinElements(v, 0)
    case Obj(_) => "[object Object]"
  }

  /** `Array.prototype.join(",")` from index `i` on, as used by `String(array)`. */
  function JoinElements(v: Json, i: nat): string
    requires v.Arr? && i <= |v.items|
    decreases v, 0, |v.items| - i
  {
    if i == |v.items| then ""
    else
      var e := v.items[i];
      var piece := if e.Undefined? || e.Null? then "" else JsString(e);
      piece + (if i + 1 < |v.items| then "," else "") + JoinElements(v, i + 1)
  }

  // ---------------------------------------------------------------------------
  // Character classes and string predicates
  // ---------------------------------------------------------------------------

  /** The characters `String.prototype.trim` removes: ECMAScript WhiteSpace
      (TAB, VT, FF, ZWNBSP and every space separator) and LineTerminator
      (LF, CR, LS, PS). */
  predicate IsJsWhitespace(c: char)
  {
    || c == '\t' || c == '\U{000B}' || c == '\U{000C}' || c == ' '
    || c == '\U{00A0}' || c == '\U{FEFF}' || c == '\U{1680}'
    || ('\U{2000}' <= c <= '\U{200A}')
    || c == '\U{202F}' || c == '\U{205F}' || c == '\U{3000}'
    || c == '\n' || c == '\r' || c == '\U{2028}' || c == '\U{2029}'
  }

  /** `!s.trim()`: the string is empty once leading and trailing white space
      is removed, that is, it holds white space only. */
  predicate IsBlank(s: string)
  {
    forall i :: 0 <= i < |s| ==> IsJsWhitespace(s[i])
  }

  predicate StartsWith(s: string, prefix: string)
  {
    |prefix| <= |s| && s[..|prefix|] == prefix
  }

  /** `s.includes(sub)` */
  predicate Contains(s: string, sub: string)
    decreases |s|
  {
    StartsWith(s, sub) || (s != [] && Contains(s[1..], sub))
  }

  lemma {:induction false} ContainsAt(s: string, sub: string, i: nat)
    requires i + |sub| <= |s| && s[i..i + |sub|] == sub
    ensures Contains(s, sub)
    decreases i
  {
    if i == 0 {
      assert s[..|sub|] == sub;
    } else {
      assert s[1..][i - 1..i - 1 + |sub|] == s[i..i + |sub|];
      ContainsAt(s[1..], sub, i - 1);
    }
  }

  /** `String(array)` holds every string element of the array. */
  lemma {:induction false} JoinHoldsElement(v: Json, i: nat, k: nat)
    requires v.Arr? && i <= k < |v.items| && v.items[k].Str?
    ensures Contains(JoinElements(v, i), v.items[k].s)
    decreases k - i
  {
    var sub := v.items[k].s;
    var rest := (if i + 1 < |v.items| then "," else "") + JoinElements(v, i + 1);
    if i == k {
      assert JoinElements(v, i) == sub + rest;
      ContainsAt(sub + rest, sub, 0);
    } else {
      var e := v.items[i];
      var piece := if e.Undefined? || e.Null? then "" else JsString(e);
      var sep := if i + 1 < |v.items| then "," else "";
      JoinHoldsElement(v, i + 1, k);
      ContainsAfterPrefix(piece + sep, JoinElements(v, i + 1), sub);
      assert JoinElements(v, i) == (piece + sep) + JoinElements(v, i + 1);
    }
  }

  /** Text in front keeps an occurrence. */
  lemma {:induction false} ContainsAfterPrefix(p: string, s: string, sub: string)
    requires Contains(s, sub)
    ensures Contains(p + s, sub)
    decreases |p|
  {
    if p != [] {
      assert (p + s)[1..] == p[1..] + s;
      ContainsAfterPrefix(p[1..], s, sub);
    } else {
      assert p + s == s;
    }
  }

  // ---------------------------------------------------------------------------
  // split / join on one separator character
  // ---------------------------------------------------------------------------

  /** `pieces.join(sep)` */
  function Join(pieces: seq<string>, sep: char): string
    requires |pieces| >= 1
    decreases |pieces|
  {
    if |pieces| == 1 then pieces[0] else pieces[0] + [sep] + Join(pieces[1..], sep)
  }

  /** `s.split(sep)` for a one-character separator: always at least one
      piece, no piece holds the separator, and joining the pieces back gives
      `s`. */
  function Split(s: string, sep: char): (r: seq<string>)
    ensures |r| >= 1
    ensures forall i :: 0 <= i < |r| ==> sep !in r[i]
    ensures Join(r, sep) == s
    decreases |s|
  {
    if s == [] then [""]
    else if s[0] == sep then
      var rest := Split(s[1..], sep);
      assert Join([""] + rest, sep) == [sep] + Join(rest, sep);
      assert [sep] + s[1..] == s;
      [""] + rest
    else
      var rest := Split(s[1..], sep);
      var r := [[s[0]] + rest[0]] + rest[1..];
      assert |rest| == 1 ==> Join(r, sep) == [s[0]] + rest[0];
      assert |rest| > 1 ==> Join(r, sep) == [s[0]] + Join(rest, sep) by {
        if |rest| > 1 {
          assert r[1..] == rest[1..];
          assert Join(rest, sep) == rest[0] + [sep] + Join(rest[1..], sep);
        }
      }
      assert [s[0]] + s[1..] == s;
      r
  }

  /** Splitting is the inverse of joining when no piece holds the separator. */
  lemma {:induction false} SplitJoin(pieces: seq<string>, sep: char)
    requires |pieces| >= 1
    requires forall i :: 0 <= i < |pieces| ==> sep !in pieces[i]
    ensures Split(Join(pieces, sep), sep) == pieces
    decreases |pieces|
  {
    if |pieces| == 1 {
      SplitNoSeparator(pieces[0], sep);
    } else {
      var rest := pieces[1..];
      SplitJoin(rest, sep);
      SplitPrefix(pieces[0], Join(rest, sep), sep);
      assert [pieces[0]] + rest == pieces;
    }
  }

  lemma {:induction false} SplitNoSeparator(s: string, sep: char)
    requires sep !in s
    ensures Split(s, sep) == [s]
    decreases |s|
  {
    if s != [] {
      assert sep !in s[1..] by {
        forall k | 0 <= k < |s[1..]| ensures s[1..][k] != sep { assert s[1..][k] == s[k + 1]; }
      }
      SplitNoSeparator(s[1..], sep);
      assert [s[0]] + s[1..] == s;
    }
  }

  /** A separator-free prefix followed by a separator becomes the first piece. */
  lemma {:induction false} SplitPrefix(p: string, rest: string, sep: char)
    requires sep !in p
    ensures Split(p + [sep] + rest, sep) == [p] + Split(rest, sep)
    decreases |p|
  {
    var s := p + [sep] + rest;
    if p == [] {
      assert s[0] == sep && s[1..] == rest;
    } else {
      assert s[0] == p[0] && s[0] != sep;
      assert sep !in p[1..] by {
        forall k | 0 <= k < |p[1..]| ensures p[1..][k] != sep { assert p[1..][k] == p[k + 1]; }
      }
      assert s[1..] == p[1..] + [sep] + rest;
      SplitPrefix(p[1..], rest, sep);
      assert [p[0]] + p[1..] == p;
    }
  }
}
