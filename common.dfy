/** Helpers shared by both variants of the content script and by the options module:
    an Option type, the time-window test `isOlderThan`, JavaScript's whitespace class
    and the string predicates the scripts use (`startsWith`, `includes`, `trim`). */
module Common {

  datatype Option<+T> = None | Some(value: T) {
    function GetOr(default: T): T {
      match this
      case Some(v) => v
      case None => default
    }
  }

  /** Milliseconds in a day: `1000 * 60 * 60 * 24`. */
  const DAY: int := 86_400_000

  /** `isOlderThan(time, days)`: a timestamp of 0 stands for JavaScript's `undefined`
      (or 0), which is falsy and makes the whole test false. `now` replaces `Date.now()`. */
  function IsOlderThan(time: int, days: int, now: int): bool
  {
    time != 0 && now - (time + DAY * days) > 0
  }

  /** A timestamp that is old at some moment stays old at every later moment. */
  lemma OlderStaysOlder(time: int, days: int, now: int, later: int)
    requires IsOlderThan(time, days, now) && now <= later
    ensures IsOlderThan(time, days, later)
  {
  }

  /** The characters of JavaScript's `\s` class, which `String.prototype.trim` also removes. */
  predicate IsSpace(c: char)
  {
    || ('\U{0009}' <= c <= '\U{000D}') || c == ' ' || c == '\U{00A0}' || c == '\U{1680}'
    || ('\U{2000}' <= c <= '\U{200A}') || c == '\U{2028}' || c == '\U{2029}' || c == '\U{202F}'
    || c == '\U{205F}' || c == '\U{3000}' || c == '\U{FEFF}'
  }

  /** `s.startsWith(p)` */
  predicate StartsWith<T(==)>(s: seq<T>, p: seq<T>)
  {
    |p| <= |s| && s[..|p|] == p
  }

  /** `s.includes(sub)`: some suffix of `s` starts with `sub`. */
  predicate Contains<T(==)>(s: seq<T>, sub: seq<T>)
    decreases |s|
  {
    StartsWith(s, sub) || (|s| > 0 && Contains(s[1..], sub))
  }

  /** An occurrence of `sub` at position `i` makes `Contains` true. */
  lemma {:induction false} ContainsAtIndex<T>(s: seq<T>, sub: seq<T>, i: nat)
    requires i + |sub| <= |s| && s[i..i + |sub|] == sub
    ensures Contains(s, sub)
    decreases i
  {
    if i > 0 {
      assert s[1..][i - 1..i - 1 + |sub|] == sub;
      ContainsAtIndex(s[1..], sub, i - 1);
    }
  }

  /** Appending to a sequence keeps every occurrence it already had. */
  lemma {:induction false} ContainsExtend<T>(s: seq<T>, tail: seq<T>, sub: seq<T>)
    requires Contains(s, sub)
    ensures Contains(s + tail, sub)
    decreases |s|
  {
    if !StartsWith(s, sub) {
      assert (s + tail)[1..] == s[1..] + tail;
      ContainsExtend(s[1..], tail, sub);
    }
  }

  /** Drops the leading elements for which `blank` holds. */
  function TrimStart<T>(s: seq<T>, blank: T -> bool): (r: seq<T>)
    ensures |r| <= |s| && r == s[|s| - |r|..]
    ensures forall k :: 0 <= k < |s| - |r| ==> blank(s[k])
    ensures |r| > 0 ==> !blank(r[0])
  {
    if |s| > 0 && blank(s[0]) then TrimStart(s[1..], blank) else s
  }

  /** Drops the trailing elements for which `blank` holds. */
  function TrimEnd<T>(s: seq<T>, blank: T -> bool): (r: seq<T>)
    ensures |r| <= |s| && r == s[..|r|]
    ensures forall k :: |r| <= k < |s| ==> blank(s[k])
    ensures |r| > 0 ==> !blank(r[|r| - 1])
  {
    if |s| > 0 && blank(s[|s| - 1]) then TrimEnd(s[..|s| - 1], blank) else s
  }

  /** `trim()`, over any sequence and any notion of blank. */
  function Trim<T>(s: seq<T>, blank: T -> bool): seq<T>
  {
    TrimEnd(TrimStart(s, blank), blank)
  }

  /** Trimming twice is trimming once. */
  lemma TrimIdempotent<T>(s: seq<T>, blank: T -> bool)
    ensures Trim(Trim(s, blank), blank) == Trim(s, blank)
  {
    var r := Trim(s, blank);
    if |r| > 0 {
      assert TrimStart(r, blank) == r;
      assert TrimEnd(r, blank) == r;
    }
  }
}
