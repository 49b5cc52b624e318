/** The optional value used wherever the source has `T | null` or `T | undefined`. */
module Wrappers {

  datatype Option<+T> = None | Some(value: T) {

    /** The value, or `default` when there is none (`x ?? default`). */
    function GetOr(default: T): T {
      match this
      case Some(v) => v
      case None => default
    }
  }

  /** A computation that either produced a value or failed with a message (a thrown `Error`). */
  datatype Result<+T> = Success(value: T) | Failure(message: string)
}

/**
 * The few pieces of JavaScript string semantics the portal relies on:
 * truthiness of strings, `String.prototype.trim`, `split` and `join` on one
 * separator, `startsWith`-style prefix tests, number-to-string conversion
 * and upper-casing of the first character.
 */
module JsText {
  import opened Wrappers

  /** A string is truthy in JavaScript exactly when it is not empty. */
  predicate Truthy(s: string) {
    s != ""
  }

  /** An optional string field is truthy when it is present and not empty (`obj?.field`). */
  predicate TruthyOpt(o: Option<string>) {
    o.Some? && o.value != ""
  }

  /** `a || b` on strings. */
  function Or(a: string, b: string): (r: string)
    ensures Truthy(a) ==> r == a
    ensures !Truthy(a) ==> r == b
  {
    if a != "" then a else b
  }

  /** `o || b` where `o` is an optional string field. */
  function OrOpt(o: Option<string>, b: string): (r: string)
    ensures TruthyOpt(o) ==> r == o.value
    ensures !TruthyOpt(o) ==> r == b
  {
    if TruthyOpt(o) then o.value else b
  }

  /**
   * The characters `trim` removes: ECMAScript WhiteSpace (tab, vertical tab,
   * form feed, space, no-break space, zero width no-break space and the
   * Unicode space separators) and LineTerminator (LF, CR, LS, PS).
   */
  predicate IsWhitespace(c: char) {
    var n := c as int;
    n == 0x09 || n == 0x0A || n == 0x0B || n == 0x0C || n == 0x0D || n == 0x20 ||
    n == 0xA0 || n == 0x1680 || (0x2000 <= n <= 0x200A) || n == 0x2028 || n == 0x2029 ||
    n == 0x202F || n == 0x205F || n == 0x3000 || n == 0xFEFF
  }

  /** Every character of `s` is whitespace (the empty string included). */
  predicate IsBlank(s: string) {
    forall i :: 0 <= i < |s| ==> IsWhitespace(s[i])
  }

  /** Removes leading whitespace: the result is a suffix of `s` that does not start with whitespace. */
  function TrimStart(s: string): (r: string)
    ensures |r| <= |s| && r == s[|s| - |r|..]
    ensures r == "" || !IsWhitespace(r[0])
  {
    if s != [] && IsWhitespace(s[0]) then TrimStart(s[1..]) else s
  }

  /** Removes trailing whitespace: the result is a prefix of `s` that does not end with whitespace. */
  function TrimEnd(s: string): (r: string)
    ensures |r| <= |s| && r == s[..|r|]
    ensures r == "" || !IsWhitespace(r[|r| - 1])
  {
    if s != [] && IsWhitespace(s[|s| - 1]) then TrimEnd(s[..|s| - 1]) else s
  }

  /** `s.trim()`. */
  function Trim(s: string): string {
    TrimEnd(TrimStart(s))
  }

  /** What `TrimStart` removes is whitespace. */
  lemma {:induction false} TrimStartDropsBlank(s: string)
    ensures IsBlank(s[..|s| - |TrimStart(s)|])
  {
    if s != [] && IsWhitespace(s[0]) {
      TrimStartDropsBlank(s[1..]);
      var k := |s| - |TrimStart(s)|;
      forall i | 0 <= i < k ensures IsWhitespace(s[..k][i]) {
        if i > 0 {
          assert s[..k][i] == s[1..][..k - 1][i - 1];
        }
      }
    }
  }

  /** What `TrimEnd` removes is whitespace. */
  lemma {:induction false} TrimEndDropsBlank(s: string)
    ensures IsBlank(s[|TrimEnd(s)|..])
  {
    if s != [] && IsWhitespace(s[|s| - 1]) {
      var init := s[..|s| - 1];
      TrimEndDropsBlank(init);
      var k := |TrimEnd(s)|;
      forall i | 0 <= i < |s| - k ensures IsWhitespace(s[k..][i]) {
        if k + i < |s| - 1 {
          assert s[k..][i] == init[k..][i];
        }
      }
    }
  }

  /** `s.trim()` is empty exactly when `s` consists of whitespace only. */
  lemma TrimEmptyIffBlank(s: string)
    ensures Trim(s) == "" <==> IsBlank(s)
  {
    var t := TrimStart(s);
    TrimStartDropsBlank(s);
    TrimEndDropsBlank(t);
    if Trim(s) == "" {
      assert s[..|s|] == s;
    }
  }

  /** A non-empty `s.trim()` neither starts nor ends with whitespace. */
  lemma TrimmedEnds(s: string)
    requires Trim(s) != ""
    ensures !IsWhitespace(Trim(s)[0]) && !IsWhitespace(Trim(s)[|Trim(s)| - 1])
  {
    var u := TrimStart(s);
    var t := TrimEnd(u);
    assert t == u[..|t|];
    assert t[0] == u[0];
  }

  /** Trimming only removes characters: one absent from `s` is absent from `s.trim()`. */
  lemma TrimKeepsAbsent(s: string, c: char)
    requires c !in s
    ensures c !in Trim(s)
  {
  }

  /** `s.trim()` of a string with a non-whitespace character is not empty. */
  lemma TrimNonBlank(s: string, i: nat)
    requires i < |s| && !IsWhitespace(s[i])
    ensures Trim(s) != ""
  {
    TrimEmptyIffBlank(s);
  }

  /** Does `s` begin with `p` (`s.indexOf(p) === 0`, `s.startsWith(p)`)? */
  predicate StartsWith(s: string, p: string) {
    |p| <= |s| && s[..|p|] == p
  }

  /**
   * `s.split(sep)` for a one-character separator: the pieces between
   * separators, in order; there is always at least one piece.
   */
  function Split(s: string, sep: char): (parts: seq<string>)
    ensures |parts| >= 1
    ensures forall i :: 0 <= i < |parts| ==> sep !in parts[i]
  {
    if s == [] then [""]
    else if s[0] == sep then [""] + Split(s[1..], sep)
    else
      var rest := Split(s[1..], sep);
      [[s[0]] + rest[0]] + rest[1..]
  }

  /** `parts.join(sep)`. */
  function Join(parts: seq<string>, sep: string): string {
    if parts == [] then ""
    else if |parts| == 1 then parts[0]
    else parts[0] + sep + Join(parts[1..], sep)
  }

  /** `parts.reverse()` (the values, not the in-place reversal). */
  function Reverse<T>(parts: seq<T>): (r: seq<T>)
    ensures |r| == |parts|
    ensures forall i :: 0 <= i < |parts| ==> r[i] == parts[|parts| - 1 - i]
  {
    if parts == [] then [] else Reverse(parts[1..]) + [parts[0]]
  }

  lemma {:induction false} ReverseReverse<T>(parts: seq<T>)
    ensures Reverse(Reverse(parts)) == parts
  {
    var r := Reverse(Reverse(parts));
    assert |r| == |parts|;
    forall i | 0 <= i < |parts| ensures r[i] == parts[i] {
      assert r[i] == Reverse(parts)[|parts| - 1 - i];
    }
  }

  /** Splitting `a + [sep] + b` where `a` has no separator gives `a` first, then the pieces of `b`. */
  lemma {:induction false} SplitFirst(a: string, sep: char, b: string)
    requires sep !in a
    ensures Split(a + [sep] + b, sep) == [a] + Split(b, sep)
  {
    if a == [] {
      assert a + [sep] + b == [sep] + b;
      assert ([sep] + b)[1..] == b;
    } else {
      assert (a + [sep] + b)[1..] == a[1..] + [sep] + b;
      SplitFirst(a[1..], sep, b);
      assert [a[0]] + a[1..] == a;
    }
  }

  /** A string without the separator splits into itself alone. */
  lemma {:induction false} SplitNoSep(a: string, sep: char)
    requires sep !in a
    ensures Split(a, sep) == [a]
  {
    if a != [] {
      SplitNoSep(a[1..], sep);
      assert [a[0]] + a[1..] == a;
    }
  }

  /** Joining with the one-character separator and splitting again gives back the pieces. */
  lemma {:induction false} SplitJoin(parts: seq<string>, sep: char)
    requires |parts| >= 1
    requires forall i :: 0 <= i < |parts| ==> sep !in parts[i]
    ensures Split(Join(parts, [sep]), sep) == parts
  {
    if |parts| == 1 {
      SplitNoSep(parts[0], sep);
    } else {
      SplitJoin(parts[1..], sep);
      assert parts[0] + [sep] + Join(parts[1..], [sep]) == parts[0] + [sep] + Join(parts[1..], [sep]);
      SplitFirst(parts[0], sep, Join(parts[1..], [sep]));
      assert [parts[0]] + parts[1..] == parts;
    }
  }

  /** Splitting and joining again with the same separator gives back the string. */
  lemma {:induction false} JoinSplit(s: string, sep: char)
    ensures Join(Split(s, sep), [sep]) == s
  {
    if s == [] {
    } else if s[0] == sep {
      JoinSplit(s[1..], sep);
      var rest := Split(s[1..], sep);
      assert ([""] + rest)[1..] == rest;
      assert [s[0]] + s[1..] == s;
    } else {
      JoinSplit(s[1..], sep);
      JoinExtendsHead(s[0], Split(s[1..], sep), [sep]);
      assert [s[0]] + s[1..] == s;
    }
  }

  /** Prefixing the first piece with a character prefixes the joined text with it. */
  lemma JoinExtendsHead(c: char, parts: seq<string>, sep: string)
    requires |parts| >= 1
    ensures Join([[c] + parts[0]] + parts[1..], sep) == [c] + Join(parts, sep)
  {
    var q := [[c] + parts[0]] + parts[1..];
    assert q[1..] == parts[1..];
    if |parts| > 1 {
      assert [c] + parts[0] + sep + Join(parts[1..], sep) == [c] + (parts[0] + sep + Join(parts[1..], sep));
    }
  }

  /** The decimal digits of a natural number, most significant first (`n.toString()`). */
  function NatToString(n: nat): (r: string)
    ensures |r| >= 1
    ensures forall i :: 0 <= i < |r| ==> '0' <= r[i] <= '9'
    ensures n < 10 <==> |r| == 1
    decreases n
  {
    if n < 10 then [('0' as int + n) as char]
    else NatToString(n / 10) + [('0' as int + n % 10) as char]
  }

  /** `n.toString()` for an integer. */
  function IntToString(n: int): string {
    if n < 0 then "-" + NatToString(-n) else NatToString(n)
  }

  /** `s.padStart(2, '0')`. */
  function PadStart2(s: string): (r: string)
    ensures |r| >= 2
    ensures |s| < 2 ==> r == "00"[..2 - |s|] + s
    ensures |s| >= 2 ==> r == s
  {
    if |s| == 0 then "00" else if |s| == 1 then "0" + s else s
  }

  /** `c.toUpperCase()` for the ASCII letters; every other character is left as it is. */
  function UpperAscii(c: char): char {
    if 'a' <= c <= 'z' then (c as int - 32) as char else c
  }

  /** `s.charAt(0).toUpperCase() + s.slice(1)`. */
  function UpperFirst(s: string): (r: string)
    ensures |r| == |s|
    ensures s != "" ==> r[0] == UpperAscii(s[0]) && r[1..] == s[1..]
  {
    if s == "" then "" else [UpperAscii(s[0])] + s[1..]
  }
}

/**
 * Plain JavaScript records as the portal's JSON payloads decode them: a map
 * from field name to a scalar value. A spread `{...a, ...b}` is `a + b`.
 */
module JsRecord {
  import opened Wrappers

  datatype Value = Str(s: string) | Num(n: int) | Bool(b: bool) | Null | Undefined

  type Record = map<string, Value>

  /** `r.k`: a missing field reads as `undefined`. */
  function Get(r: Record, k: string): Value {
    if k in r then r[k] else Undefined
  }

  /** JavaScript truthiness of a scalar. */
  predicate Truthy(v: Value) {
    match v
    case Str(s) => s != ""
    case Num(n) => n != 0
    case Bool(b) => b
    case Null => false
    case Undefined => false
  }

  /** `a || b`. */
  function Or(a: Value, b: Value): (r: Value)
    ensures Truthy(a) ==> r == a
    ensures !Truthy(a) ==> r == b
  {
    if Truthy(a) then a else b
  }

  /** What `JSON.parse(JSON.stringify(r))` gives back: fields holding `undefined` are dropped. */
  function Stringified(r: Record): (s: Record)
    ensures forall k :: k in s <==> k in r && r[k] != Undefined
    ensures forall k :: k in s ==> s[k] == r[k]
  {
    map k | k in r && r[k] != Undefined :: r[k]
  }
}

/**
 * What an HTTP call made through axios can end in, as the handlers see it:
 * a response body, or a rejection carrying `error.response?.status`,
 * `error.response?.data?.message` and `error.message`.
 */
module Http {
  import opened Wrappers
  import opened JsText

  datatype HttpError = HttpError(status: Option<int>, serverMessage: Option<string>, message: Option<string>)

  datatype Outcome<T> = Response(body: T) | Thrown(error: HttpError)

  /** A notification shown to the user; loading toasts, which the result replaces, are not kept. */
  datatype Toast = SuccessToast(text: string) | ErrorToast(text: string)

  /** `error.response?.data?.message || error.message || fallback`. */
  function ServerThenErrorMessage(e: HttpError, fallback: string): (m: string)
    ensures TruthyOpt(e.serverMessage) ==> m == e.serverMessage.value
    ensures !TruthyOpt(e.serverMessage) && TruthyOpt(e.message) ==> m == e.message.value
    ensures !TruthyOpt(e.serverMessage) && !TruthyOpt(e.message) ==> m == fallback
  {
    if TruthyOpt(e.serverMessage) then e.serverMessage.value
    else if TruthyOpt(e.message) then e.message.value
    else fallback
  }
}

/** `Array.prototype.filter`, `map` and `flatMap` on values. */
module Seqs {

  function Filter<T(!new)>(s: seq<T>, p: T -> bool): (r: seq<T>)
    ensures |r| <= |s|
    ensures forall x :: x in r <==> x in s && p(x)
  {
    if s == [] then []
    else if p(s[0]) then [s[0]] + Filter(s[1..], p)
    else Filter(s[1..], p)
  }

  /** Filtering keeps order: it distributes over concatenation. */
  lemma {:induction false} FilterAppend<T(!new)>(a: seq<T>, b: seq<T>, p: T -> bool)
    ensures Filter(a + b, p) == Filter(a, p) + Filter(b, p)
  {
    if a == [] {
      assert a + b == b;
    } else {
      assert (a + b)[0] == a[0] && (a + b)[1..] == a[1..] + b;
      FilterAppend(a[1..], b, p);
    }
  }

  /** A property holds of the first `n` elements exactly when it holds of the first and of the next `n - 1`. */
  lemma AllPrefixShift<T>(s: seq<T>, p: T -> bool, n: int)
    requires 0 < n <= |s|
    ensures (forall j :: 0 <= j < n ==> p(s[j])) <==> p(s[0]) && forall j :: 0 <= j < n - 1 ==> p(s[1..][j])
  {
    if p(s[0]) && forall j :: 0 <= j < n - 1 ==> p(s[1..][j]) {
      forall j | 0 <= j < n ensures p(s[j]) {
        if j > 0 { assert s[j] == s[1..][j - 1]; }
      }
    }
  }

  function Map<T, U>(s: seq<T>, f: T -> U): (r: seq<U>)
    ensures |r| == |s|
    ensures forall i :: 0 <= i < |s| ==> r[i] == f(s[i])
  {
    if s == [] then [] else [f(s[0])] + Map(s[1..], f)
  }

  /** What a `filter` followed by a `map` holds: the images of the kept elements. */
  lemma MapFilterMembers<T(!new), U>(s: seq<T>, p: T -> bool, f: T -> U, y: U)
    ensures y in Map(Filter(s, p), f) <==> exists x :: x in s && p(x) && y == f(x)
  {
    var kept := Filter(s, p);
    var r := Map(kept, f);
    if y in r {
      var i :| 0 <= i < |r| && r[i] == y;
      assert kept[i] in kept;
    }
    if exists x :: x in s && p(x) && y == f(x) {
      var x :| x in s && p(x) && y == f(x);
      var i :| 0 <= i < |kept| && kept[i] == x;
      assert r[i] == y;
    }
  }

  function FlatMap<T(!new), U(!new)>(s: seq<T>, f: T -> seq<U>): (r: seq<U>)
    ensures forall y :: y in r <==> exists x :: x in s && y in f(x)
  {
    if s == [] then [] else f(s[0]) + FlatMap(s[1..], f)
  }
}
