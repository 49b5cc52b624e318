/**
 * The hand-written cookie helpers of `src/lib/cookies.ts`: `getCookie` scans
 * the `;`-separated text that reading `document.cookie` yields, `setCookie`
 * and `deleteCookie` assign fixed-format texts to `document.cookie`, and three
 * helpers do the same for the `b2b_customer_token` cookie.
 *
 * The browser is a `CookieDocument`: whether a `window` exists, the text that
 * reading `document.cookie` gives, and the texts written to it, in order.
 */
module Cookies {
  import opened Wrappers
  import opened JsText
  import Seqs

  const B2BCustomerTokenName: string := "b2b_customer_token"
  const B2BCustomerTokenDays: int := 7
  const MillisPerDay: int := 24 * 60 * 60 * 1000

  /** The entry `part` with its leading SPACE characters removed (the inner `while` of `getCookie`). */
  function StripSpaces(part: string): (c: string)
    ensures |c| <= |part| && c == part[|part| - |c|..]
    ensures c == "" || c[0] != ' '
    ensures forall i :: 0 <= i < |part| - |c| ==> part[i] == ' '
  {
    if part == [] || part[0] != ' ' then part else StripSpaces(part[1..])
  }

  /** Does the entry `part` carry the cookie `name`, i.e. does it start with `name=` once its leading spaces are gone? */
  predicate Matches(part: string, name: string) {
    StartsWith(StripSpaces(part), name + "=")
  }

  /** The value an entry matching `name` carries: everything after `name=`. */
  function ValueOf(part: string, name: string): string
    requires Matches(part, name)
  {
    StripSpaces(part)[|name| + 1..]
  }

  /** The value of the first entry that matches `name`, if any. */
  function Lookup(parts: seq<string>, name: string): Option<string> {
    if parts == [] then None
    else if Matches(parts[0], name) then Some(ValueOf(parts[0], name))
    else Lookup(parts[1..], name)
  }

  /** No entry before index `i` matches `name`. */
  predicate NoMatchBefore(parts: seq<string>, name: string, i: int)
    requires 0 <= i <= |parts|
  {
    forall j :: 0 <= j < i ==> !Matches(parts[j], name)
  }

  /** Entry `i` is the first one matching `name`, and it carries `v`. */
  predicate FirstMatchAt(parts: seq<string>, name: string, i: int, v: string) {
    0 <= i < |parts| && Matches(parts[i], name) && ValueOf(parts[i], name) == v && NoMatchBefore(parts, name, i)
  }

  /** Dropping the first entry, which does not match, shifts the first match down by one. */
  lemma FirstMatchShift(parts: seq<string>, name: string, i: int, v: string)
    requires parts != [] && !Matches(parts[0], name)
    ensures FirstMatchAt(parts, name, i + 1, v) <==> FirstMatchAt(parts[1..], name, i, v)
  {
    if 0 <= i < |parts| - 1 {
      assert parts[1..][i] == parts[i + 1];
      var p := (x: string) => !Matches(x, name);
      assert NoMatchBefore(parts, name, i + 1) <==> forall j :: 0 <= j < i + 1 ==> p(parts[j]);
      assert NoMatchBefore(parts[1..], name, i) <==> forall j :: 0 <= j < i ==> p(parts[1..][j]);
      Seqs.AllPrefixShift(parts, p, i + 1);
    }
  }

  /** `getCookie` finds a value exactly when it is the value of a matching entry with no matching entry before it. */
  lemma {:induction false} LookupFirstMatch(parts: seq<string>, name: string, v: string)
    ensures Lookup(parts, name) == Some(v) <==> exists i :: FirstMatchAt(parts, name, i, v)
  {
    if parts != [] {
      if Matches(parts[0], name) {
        if ValueOf(parts[0], name) == v {
          assert FirstMatchAt(parts, name, 0, v);
        }
        forall i | FirstMatchAt(parts, name, i, v) ensures i == 0 {
        }
      } else {
        LookupFirstMatch(parts[1..], name, v);
        if Lookup(parts[1..], name) == Some(v) {
          var i :| FirstMatchAt(parts[1..], name, i, v);
          FirstMatchShift(parts, name, i, v);
        }
        if exists i :: FirstMatchAt(parts, name, i, v) {
          var i :| FirstMatchAt(parts, name, i, v);
          FirstMatchShift(parts, name, i - 1, v);
        }
      }
    }
  }

  /** No entry matches exactly when the first does not and no later one does. */
  lemma NoMatchShift(parts: seq<string>, name: string)
    requires parts != []
    ensures NoMatchBefore(parts, name, |parts|) <==> !Matches(parts[0], name) && NoMatchBefore(parts[1..], name, |parts| - 1)
  {
    var p := (x: string) => !Matches(x, name);
    assert NoMatchBefore(parts, name, |parts|) <==> forall i :: 0 <= i < |parts| ==> p(parts[i]);
    assert NoMatchBefore(parts[1..], name, |parts| - 1) <==> forall i :: 0 <= i < |parts| - 1 ==> p(parts[1..][i]);
    Seqs.AllPrefixShift(parts, p, |parts|);
  }

  /** An entry whose leading spaces are all gone is its own `StripSpaces`. */
  lemma StrippedEntry(c: string, part: string)
    requires StripSpaces(c) == StripSpaces(part) && (c == [] || c[0] != ' ')
    ensures c == StripSpaces(part)
  {
  }

  /** The lookup from entry `i` on either stops at entry `i` or goes on from the next. */
  lemma LookupStep(parts: seq<string>, i: int, name: string)
    requires 0 <= i < |parts|
    ensures Lookup(parts[i..], name) == if Matches(parts[i], name) then Some(ValueOf(parts[i], name)) else Lookup(parts[i + 1..], name)
  {
    assert parts[i..][0] == parts[i] && parts[i..][1..] == parts[i + 1..];
  }

  /** `getCookie` returns null exactly when no entry matches. */
  lemma {:induction false} LookupNoneIff(parts: seq<string>, name: string)
    ensures Lookup(parts, name) == None <==> NoMatchBefore(parts, name, |parts|)
  {
    if parts != [] {
      LookupNoneIff(parts[1..], name);
      NoMatchShift(parts, name);
    }
  }

  /** The position of the first `=` in an entry (its length when there is none). */
  function FirstEquals(s: string): (k: nat)
    ensures k <= |s|
  {
    if s == [] || s[0] == '=' then 0 else 1 + FirstEquals(s[1..])
  }

  /** In `key=value` with no `=` in `key`, the first `=` follows `key`. */
  lemma {:induction false} FirstEqualsAfterKey(key: string, value: string)
    requires '=' !in key
    ensures FirstEquals(key + "=" + value) == |key|
  {
    var part := key + "=" + value;
    if key == [] {
      assert part[0] == '=';
    } else {
      assert part[0] == key[0];
      assert part[1..] == key[1..] + "=" + value;
      FirstEqualsAfterKey(key[1..], value);
    }
  }

  /** The first `=` of `key=value` sits right after `key`, so a prefix `name=` names the same key. */
  lemma SameKeyBeforeEquals(key: string, value: string, name: string)
    requires '=' !in key && '=' !in name
    requires StartsWith(key + "=" + value, name + "=")
    ensures key == name
  {
    var part := key + "=" + value;
    var rest := part[|name| + 1..];
    assert part == name + "=" + rest;
    FirstEqualsAfterKey(key, value);
    FirstEqualsAfterKey(name, rest);
    assert key == part[..|key|];
  }

  /**
   * An entry written as `key=value`, where `key` holds no `=`, matches `name`
   * exactly when `key` is `name`: a longer or shorter key such as `xname`
   * never matches `name`.
   */
  lemma KeyMatchesExactly(key: string, value: string, name: string)
    requires '=' !in key && '=' !in name
    requires key == "" || key[0] != ' '
    ensures Matches(key + "=" + value, name) <==> key == name
    ensures key == name ==> ValueOf(key + "=" + value, name) == value
  {
    var part := key + "=" + value;
    assert part[0] != ' ' by { if key == "" { assert part[0] == '='; } else { assert part[0] == key[0]; } }
    assert StripSpaces(part) == part;
    if Matches(part, name) {
      SameKeyBeforeEquals(key, value, name);
    }
    if key == name {
      assert part[..|name| + 1] == name + "=";
      assert part[|name| + 1..] == value;
    }
  }

  /** The value may itself contain `=`: everything after the first `name=` is returned. */
  lemma ValueKeepsEquals(name: string, value: string)
    requires name == "" || name[0] != ' '
    ensures Lookup([name + "=" + value], name) == Some(value)
  {
    var part := name + "=" + value;
    assert part[0] != ' ' by { if name == "" { assert part[0] == '='; } else { assert part[0] == name[0]; } }
    assert StripSpaces(part) == part;
    assert part[..|name| + 1] == name + "=";
    assert Matches(part, name);
    assert ValueOf(part, name) == value by { assert part[|name| + 1..] == value; }
    LookupStep([part], 0, name);
  }

  /** Only spaces are stripped: an entry whose name is preceded by a tab does not match it. */
  lemma TabIsNotStripped(name: string, value: string)
    requires name == "" || name[0] != '\t'
    ensures !Matches("\t" + name + "=" + value, name)
  {
    var part := "\t" + name + "=" + value;
    assert StripSpaces(part) == part;
    assert (name + "=")[0] != '\t' by {
      if name == "" { assert (name + "=")[0] == '='; } else { assert (name + "=")[0] == name[0]; }
    }
  }

  /** The expiry instant `setCookie` computes: `days` whole days after `nowMs`, in milliseconds. */
  function ExpiryMillis(nowMs: int, days: int): int
  {
    nowMs + days * MillisPerDay
  }

  /**
   * The text `setCookie` assigns to `document.cookie`, given the expiry text
   * (`setCookie` passes the result of `toUTCString`, which ends in `GMT`).
   */
  function SetCookieText(name: string, value: string, expiresUtc: string): (t: string)
    ensures StartsWith(t, name + "=" + value + ";")
  {
    name + "=" + value + "; expires=" + expiresUtc + "; path=/; SameSite=Lax"
  }

  /**
   * The expiry text `deleteCookie` writes: the 1970 epoch, spelt with `UTC`
   * where `toUTCString` would give `GMT`.
   */
  const EpochUtc: string := "Thu, 01 Jan 1970 00:00:00 UTC"

  /**
   * The text `deleteCookie` assigns: an empty value that expired at the 1970
   * epoch. It has `setCookie`'s layout, with `deleteCookie`'s own literal
   * `UTC` expiry text in place of a `toUTCString` result, cut before the
   * `SameSite` attribute. No `setCookie` text begins with it, since
   * `toUTCString` always ends in `GMT`.
   */
  function DeleteCookieText(name: string): (t: string)
    ensures StartsWith(SetCookieText(name, "", EpochUtc), t)
  {
    name + "=" + "; expires=" + EpochUtc + "; path=/;"
  }

  /** The first entry of `head;tail`, when `head` is `name=value` without a `;`, decides the lookup. */
  lemma LeadingEntryWins(name: string, value: string, tail: string)
    requires ';' !in name && ';' !in value
    requires name == "" || name[0] != ' '
    ensures Lookup(Split(name + "=" + value + ";" + tail, ';'), name) == Some(value)
  {
    var head := name + "=" + value;
    assert ';' !in head by {
      forall i | 0 <= i < |head| ensures head[i] != ';' {
        if i < |name| { assert head[i] == name[i]; }
        else if i > |name| { assert head[i] == value[i - |name| - 1]; }
      }
    }
    assert name + "=" + value + ";" + tail == head + [';'] + tail;
    SplitFirst(head, ';', tail);
    ValueKeepsEquals(name, value);
  }

  /**
   * Round trip: scanning the text that `setCookie` writes for `name` gives back
   * `value`, provided neither holds a `;` and `name` does not start with a space.
   */
  lemma SetThenLookup(name: string, value: string, expiresUtc: string)
    requires ';' !in name && ';' !in value
    requires name == "" || name[0] != ' '
    ensures Lookup(Split(SetCookieText(name, value, expiresUtc), ';'), name) == Some(value)
  {
    var tail := " expires=" + expiresUtc + "; path=/; SameSite=Lax";
    var rest := "; expires=" + expiresUtc + "; path=/; SameSite=Lax";
    assert rest == ";" + tail by {
      assert "; expires=" == ";" + " expires=";
    }
    assert SetCookieText(name, value, expiresUtc) == (name + "=" + value) + rest;
    assert (name + "=" + value) + (";" + tail) == name + "=" + value + ";" + tail;
    LeadingEntryWins(name, value, tail);
  }

  /** The deletion text is an entry with an empty value, a `;`, and the attributes after it. */
  lemma DeleteTextShape(name: string, expiresUtc: string)
    ensures name + "=" + "; expires=" + expiresUtc + "; path=/;" == name + "=" + "" + ";" + (" expires=" + expiresUtc + "; path=/;")
  {
    assert "; expires=" == ";" + " expires=";
  }

  /** Deleting a cookie writes an entry that `getCookie` reads back as the empty value. */
  lemma DeleteThenLookup(name: string)
    requires ';' !in name
    requires name == "" || name[0] != ' '
    ensures Lookup(Split(DeleteCookieText(name), ';'), name) == Some("")
  {
    DeleteTextShape(name, EpochUtc);
    LeadingEntryWins(name, "", " expires=" + EpochUtc + "; path=/;");
  }

  /** The browser's `document`, as far as these helpers see it. */
  class CookieDocument {
    /** `typeof window !== 'undefined'`: false during server-side rendering. */
    const hasWindow: bool
    /** What reading `document.cookie` yields. */
    var cookie: string
    /** Every text written to `document.cookie`, oldest first. */
    var written: seq<string>

    constructor (hasWindow: bool, cookie: string)
      ensures this.hasWindow == hasWindow && this.cookie == cookie && written == []
    {
      this.hasWindow := hasWindow;
      this.cookie := cookie;
      written := [];
    }

    /** The inner `while` of `getCookie`: drops one leading space at a time. */
    static method StripLeadingSpaces(part: string) returns (c: string)
      ensures c == StripSpaces(part)
    {
      c := part;
      while |c| > 0 && c[0] == ' '
        invariant StripSpaces(c) == StripSpaces(part)
      {
        c := c[1..];
      }
      StrippedEntry(c, part);
    }

    /**
     * `getCookie(name)`: without a window, null; otherwise the value of the
     * first `;`-separated entry that starts with `name=` once its leading
     * spaces are stripped, or null when none does.
     */
    method GetCookie(name: string) returns (r: Option<string>)
      ensures !hasWindow ==> r == None
      ensures hasWindow ==> r == Lookup(Split(cookie, ';'), name)
    {
      r := None;
      if hasWindow {
        var ca := Split(cookie, ';');
        r := ScanEntries(ca, name);
      }
    }

    /** The `for` loop of `getCookie` over the `;`-separated entries: the first that matches gives the value. */
    static method ScanEntries(ca: seq<string>, name: string) returns (r: Option<string>)
      ensures r == Lookup(ca, name)
    {
      var nameEQ := name + "=";
      for i := 0 to |ca|
        invariant Lookup(ca, name) == Lookup(ca[i..], name)
      {
        var c := StripLeadingSpaces(ca[i]);
        LookupStep(ca, i, name);
        if StartsWith(c, nameEQ) {
          return Some(c[|nameEQ|..]);
        }
      }
      return None;
    }

    /**
     * `setCookie(name, value, days)`: with a window, assigns
     * `name=value; expires=<now + days days>; path=/; SameSite=Lax`, the
     * instant formatted by `toUtc` (the `toUTCString` of the source);
     * without one, does nothing.
     */
    method SetCookie(name: string, value: string, days: int, nowMs: int, toUtc: int -> string)
      modifies this`written
      ensures written == old(written) +
        (if hasWindow then [SetCookieText(name, value, toUtc(ExpiryMillis(nowMs, days)))] else [])
    {
      if hasWindow {
        var expires := nowMs + days * 24 * 60 * 60 * 1000;
        written := written + [name + "=" + value + "; expires=" + toUtc(expires) + "; path=/; SameSite=Lax"];
      }
    }

    /** `deleteCookie(name)`: with a window, assigns the epoch-expired text; otherwise does nothing. */
    method DeleteCookie(name: string)
      modifies this`written
      ensures written == old(written) + (if hasWindow then [DeleteCookieText(name)] else [])
    {
      if hasWindow {
        written := written + [name + "=" + "; expires=" + EpochUtc + "; path=/;"];
      }
    }

    /** `setB2BCustomerToken(token)`: `setCookie('b2b_customer_token', token, 7)`. */
    method SetB2BCustomerToken(token: string, nowMs: int, toUtc: int -> string)
      modifies this`written
      ensures written == old(written) +
        (if hasWindow then [SetCookieText(B2BCustomerTokenName, token, toUtc(ExpiryMillis(nowMs, B2BCustomerTokenDays)))] else [])
    {
      SetCookie(B2BCustomerTokenName, token, B2BCustomerTokenDays, nowMs, toUtc);
    }

    /** `getB2BCustomerToken()`: `getCookie('b2b_customer_token')`. */
    method GetB2BCustomerToken() returns (r: Option<string>)
      ensures !hasWindow ==> r == None
      ensures hasWindow ==> r == Lookup(Split(cookie, ';'), B2BCustomerTokenName)
    {
      r := GetCookie(B2BCustomerTokenName);
    }

    /** `deleteB2BCustomerToken()`: `deleteCookie('b2b_customer_token')`. */
    method DeleteB2BCustomerToken()
      modifies this`written
      ensures written == old(written) + (if hasWindow then [DeleteCookieText(B2BCustomerTokenName)] else [])
    {
      DeleteCookie(B2BCustomerTokenName);
    }
  }
}
