/** The condensation of a profile description into short segments. The source builds an
    HTML string; here the string is a sequence of tokens in which the `<span class="bfi-url">`
    that wraps a rewritten URL is kept as two opaque markers, so that every later step
    (split, dash strip, trim, emoji strip, drop empties) acts on exactly the characters it
    acts on in the source. The joined HTML is not built: the result is the list of segments. */
module Description {
  import opened Common

  datatype Token = Char(c: char) | UrlOpen | UrlClose

  /** One segment of the condensed description. */
  type Line = seq<Token>

  function Chars(s: string): (r: seq<Token>)
    ensures |r| == |s| && forall i :: 0 <= i < |s| ==> r[i] == Char(s[i])
  {
    seq(|s|, i requires 0 <= i < |s| => Char(s[i]))
  }

  /** `'⚡️ '`: prefixed to a rewritten URL when emoji are enabled. */
  const Bolt: string := "\U{26A1}\U{FE0F} "

  /** The characters of the split pattern `[|❯•∙⋅\n\r]+`. */
  predicate IsSeparator(c: char)
  {
    c == '|' || c == '\U{276F}' || c == '\U{2022}' || c == '\U{2219}' || c == '\U{22C5}'
    || c == '\n' || c == '\r'
  }

  predicate IsSeparatorToken(t: Token)
  {
    t.Char? && IsSeparator(t.c)
  }

  /** What `trim()` removes from a segment. */
  predicate IsBlank(t: Token)
  {
    t.Char? && IsSpace(t.c)
  }

  // ---------------------------------------------------------------------------------------
  // URL rewrite: replaceAll(/(https?:\/\/)(www\.)?(\S+)/g, …)
  // ---------------------------------------------------------------------------------------

  /** Length of the `https?:\/\/` at the start of `s`, or 0. */
  function SchemeLength(s: string): (k: nat)
    ensures k == 8 <==> StartsWith(s, "https://")
    ensures k == 7 <==> StartsWith(s, "http://")
    ensures k == 0 <==> !StartsWith(s, "http://") && !StartsWith(s, "https://")
    ensures k <= |s|
  {
    if StartsWith(s, "https://") then
      assert s[4] == "https://"[4];
      8
    else if StartsWith(s, "http://") then 7
    else 0
  }

  /** Length of the longest prefix of `s` without whitespace (what `\S+` consumes). */
  function NonSpaceRun(s: string): (n: nat)
    ensures n <= |s|
    ensures forall i :: 0 <= i < n ==> !IsSpace(s[i])
    ensures n < |s| ==> IsSpace(s[n])
  {
    if s == [] || IsSpace(s[0]) then 0 else 1 + NonSpaceRun(s[1..])
  }

  /** `c.replace(/\/$/, '')`: one trailing slash removed. */
  function DropTrailingSlash(c: string): string
  {
    if |c| > 0 && c[|c| - 1] == '/' then c[..|c| - 1] else c
  }

  /** The regex tried at the start of `s`: the length of the match and its third group.
      `\S+` runs to the first blank; the optional `www.` is taken only when at least one
      non-blank character follows it (otherwise the regex backtracks and `www.` becomes part
      of the third group). */
  function UrlAt(s: string): (m: Option<(nat, string)>)
    ensures m.Some? ==> 0 < m.value.0 <= |s|
  {
    var k := SchemeLength(s);
    var run := NonSpaceRun(s[k..]);
    if k == 0 || run == 0 then None
    else
      var w := if StartsWith(s[k..], "www.") && run > 4 then 4 else 0;
      Some((k + run, s[k + w..k + run]))
  }

  /** What the regex matches at the start of `s`: a match exists exactly when a scheme is
      followed by a non-blank character; it then runs up to the next blank (or the end), and
      its third group is the non-blank text after the scheme, less a `www.` that has more
      text after it. */
  lemma UrlAtMatches(s: string)
    ensures UrlAt(s).Some? <==> 0 < SchemeLength(s) < |s| && !IsSpace(s[SchemeLength(s)])
    ensures UrlAt(s).Some? ==>
      var k, len, c := SchemeLength(s), UrlAt(s).value.0, UrlAt(s).value.1;
      && c != [] && k + |c| <= len <= |s| && c == s[len - |c|..len]
      && (forall i :: k <= i < len ==> !IsSpace(s[i]))
      && (len == |s| || IsSpace(s[len]))
      && (len - |c| == k + 4 <==> StartsWith(s[k..], "www.") && k + 4 < len)
      && (len - |c| != k + 4 ==> len - |c| == k)
  {
    var k := SchemeLength(s);
    if UrlAt(s).Some? {
      var run := NonSpaceRun(s[k..]);
      forall i | k <= i < k + run
        ensures !IsSpace(s[i])
      {
        assert s[i] == s[k..][i - k];
      }
    }
  }

  /** The replacement of one URL: the span markers around the optional bolt and the
      third group with one trailing slash removed. */
  function UrlTokens(c: string, bolt: bool): Line
  {
    [UrlOpen] + (if bolt then Chars(Bolt) else []) + Chars(DropTrailingSlash(c)) + [UrlClose]
  }

  /** The global replacement, scanning left to right and resuming after each match. */
  function Rewrite(s: string, bolt: bool): seq<Token>
    decreases |s|
  {
    if s == [] then []
    else match UrlAt(s)
      case Some((len, c)) => UrlTokens(c, bolt) + Rewrite(s[len..], bolt)
      case None => [Char(s[0])] + Rewrite(s[1..], bolt)
  }

  /** Text without any `http://` or `https://` is left exactly as it was. */
  lemma {:induction false} RewritePlain(s: string, bolt: bool)
    requires !Contains(s, "http://") && !Contains(s, "https://")
    ensures Rewrite(s, bolt) == Chars(s)
    decreases |s|
  {
    if s != [] {
      assert UrlAt(s) == None;
      RewritePlain(s[1..], bolt);
      assert Chars(s) == [Char(s[0])] + Chars(s[1..]);
    }
  }

  /** `c` without a leading `www.` (when something follows it). */
  function StripWww(c: string): string
  {
    if StartsWith(c, "www.") && |c| > 4 then c[4..] else c
  }

  /** A URL followed by the end of the text or by whitespace is replaced as a whole: the
      scheme, an optional `www.` and one trailing slash are gone, and the rewrite carries on
      with what follows. */
  lemma RewriteUrl(scheme: string, c: string, rest: string, bolt: bool)
    requires scheme == "http://" || scheme == "https://"
    requires c != [] && forall i :: 0 <= i < |c| ==> !IsSpace(c[i])
    requires rest == [] || IsSpace(rest[0])
    ensures Rewrite(scheme + c + rest, bolt) == UrlTokens(StripWww(c), bolt) + Rewrite(rest, bolt)
  {
    var s := scheme + c + rest;
    AllNonSpace(c);
    ConcatAssoc(scheme, c, rest);
    SchemeOf(scheme, c + rest);
    UrlAtUrl(s, |scheme|, c, rest);
    assert s[|scheme| + |c|..] == rest;
  }

  /** A text without blanks is its own non-blank run. */
  lemma {:induction false} AllNonSpace(c: string)
    requires forall i :: 0 <= i < |c| ==> !IsSpace(c[i])
    ensures NonSpaceRun(c) == |c|
    decreases |c|
  {
    if c != [] {
      AllNonSpace(c[1..]);
    }
  }

  /** The match at a scheme followed by a non-blank text and whitespace (or nothing). */
  lemma UrlAtUrl(s: string, k: nat, c: string, rest: string)
    requires 0 < k <= |s| && SchemeLength(s) == k && s[k..] == c + rest
    requires c != [] && NonSpaceRun(c) == |c|
    requires rest == [] || IsSpace(rest[0])
    ensures UrlAt(s) == Some((k + |c|, StripWww(c)))
  {
    NonSpaceRunStops(c, rest);
    WwwOf(c, rest);
    var w := if StartsWith(c, "www.") && |c| > 4 then 4 else 0;
    UrlAtOf(s, k, c + rest, |c|, w);
    PrefixSlice(c, rest, w);
  }

  lemma ConcatAssoc<T>(a: seq<T>, b: seq<T>, c: seq<T>)
    ensures a + b + c == a + (b + c)
  {
  }

  lemma PrefixSlice<T>(c: seq<T>, rest: seq<T>, w: nat)
    requires w <= |c|
    ensures (c + rest)[w..|c|] == c[w..]
  {
  }

  /** The match, given the pieces it is made of. */
  lemma UrlAtOf(s: string, k: nat, t: string, run: nat, w: nat)
    requires 0 < k <= |s| && SchemeLength(s) == k && s[k..] == t
    requires 0 < run == NonSpaceRun(t)
    requires w == (if StartsWith(t, "www.") && run > 4 then 4 else 0)
    ensures UrlAt(s) == Some((k + run, t[w..run]))
  {
    SuffixSlice(s, k, w, run);
  }

  lemma SuffixSlice<T>(s: seq<T>, k: nat, lo: nat, hi: nat)
    requires k <= |s| && lo <= hi <= |s| - k
    ensures s[k + lo..k + hi] == s[k..][lo..hi]
  {
  }

  /** `www.` is taken from a non-blank text followed by whitespace exactly as `StripWww` takes it. */
  lemma WwwOf(c: string, rest: string)
    ensures (StartsWith(c + rest, "www.") && |c| > 4) == (StartsWith(c, "www.") && |c| > 4)
    ensures StripWww(c) == c[(if StartsWith(c, "www.") && |c| > 4 then 4 else 0)..]
  {
    if |c| > 4 {
      assert (c + rest)[..4] == c[..4];
    }
  }

  lemma SchemeOf(scheme: string, t: string)
    requires scheme == "http://" || scheme == "https://"
    ensures SchemeLength(scheme + t) == |scheme| && (scheme + t)[|scheme|..] == t
  {
    var s := scheme + t;
    assert s[..|scheme|] == scheme;
    if scheme == "http://" {
      assert s[4] == ':';
    }
  }

  /** The non-blank run of a non-blank text followed by whitespace (or nothing) is that text. */
  lemma {:induction false} NonSpaceRunStops(c: string, rest: string)
    requires NonSpaceRun(c) == |c|
    requires rest == [] || IsSpace(rest[0])
    ensures NonSpaceRun(c + rest) == |c|
    decreases |c|
  {
    if c == [] {
      assert c + rest == rest;
    } else {
      assert (c + rest)[1..] == c[1..] + rest;
      NonSpaceRunStops(c[1..], rest);
    }
  }

  /** Text that mentions no URL and ends in whitespace is copied, and the rewrite of what
      follows is unaffected by it. */
  lemma {:induction false} RewriteAppend(pre: string, rest: string, bolt: bool)
    requires !Contains(pre, "http://") && !Contains(pre, "https://")
    requires pre != [] ==> IsSpace(pre[|pre| - 1])
    ensures Rewrite(pre + rest, bolt) == Chars(pre) + Rewrite(rest, bolt)
    decreases |pre|
  {
    if pre == [] {
      assert pre + rest == rest;
    } else {
      NoSchemeAtStart(pre, rest);
      RewriteNoMatchCons(pre, rest, bolt);
      RewriteAppend(pre[1..], rest, bolt);
      CharsStep(pre, Rewrite(pre + rest, bolt), Rewrite(pre[1..] + rest, bolt), Rewrite(rest, bolt));
    }
  }

  lemma RewriteNoMatchCons(pre: string, rest: string, bolt: bool)
    requires pre != [] && UrlAt(pre + rest) == None
    ensures Rewrite(pre + rest, bolt) == [Char(pre[0])] + Rewrite(pre[1..] + rest, bolt)
  {
    var s := pre + rest;
    RewriteNoMatch(s, bolt);
    assert s[0] == pre[0] && s[1..] == pre[1..] + rest;
  }

  /** One more copied character in front of a copied text. */
  lemma CharsStep(pre: string, x: seq<Token>, y: seq<Token>, tail: seq<Token>)
    requires pre != [] && x == [Char(pre[0])] + y && y == Chars(pre[1..]) + tail
    ensures x == Chars(pre) + tail
  {
    CharsCons(pre);
    ConcatAssoc([Char(pre[0])], Chars(pre[1..]), tail);
  }

  /** Where no URL starts, the first character is copied. */
  lemma RewriteNoMatch(s: string, bolt: bool)
    requires s != [] && UrlAt(s) == None
    ensures Rewrite(s, bolt) == [Char(s[0])] + Rewrite(s[1..], bolt)
  {
  }

  lemma CharsCons(s: string)
    requires s != []
    ensures Chars(s) == [Char(s[0])] + Chars(s[1..])
  {
  }

  /** No match can start inside a URL-free text that ends in whitespace. */
  lemma NoSchemeAtStart(pre: string, rest: string)
    requires pre != [] && IsSpace(pre[|pre| - 1])
    requires !StartsWith(pre, "http://") && !StartsWith(pre, "https://")
    ensures UrlAt(pre + rest) == None
  {
    NoPrefixAcross(pre, rest, "https://");
    NoPrefixAcross(pre, rest, "http://");
  }

  /** A blank-free prefix cannot reach past a trailing blank. */
  lemma NoPrefixAcross(pre: string, rest: string, p: string)
    requires pre != [] && IsSpace(pre[|pre| - 1]) && !StartsWith(pre, p)
    requires forall j :: 0 <= j < |p| ==> !IsSpace(p[j])
    ensures !StartsWith(pre + rest, p)
  {
    var s := pre + rest;
    if |pre| >= |p| {
      assert s[..|p|] == pre[..|p|];
    } else {
      assert s[|pre| - 1] == pre[|pre| - 1];
    }
  }

  // ---------------------------------------------------------------------------------------
  // split(/[|❯•∙⋅\n\r]+/g)
  // ---------------------------------------------------------------------------------------

  /** A piece with no separator in it. */
  predicate NoSeparator(line: Line)
  {
    forall j :: 0 <= j < |line| ==> !IsSeparatorToken(line[j])
  }

  /** `split` on runs of separators, built from the right: a token that is not a separator
      joins the first piece; a separator starts a new (empty) piece unless the next token is a
      separator too, so that a run yields one cut. A leading or trailing run yields an empty
      piece, as in JavaScript. */
  function Split(ts: seq<Token>): (r: seq<Line>)
    ensures |r| >= 1
  {
    if ts == [] then [[]]
    else
      var r := Split(ts[1..]);
      if !IsSeparatorToken(ts[0]) then [[ts[0]] + r[0]] + r[1..]
      else if |ts| > 1 && IsSeparatorToken(ts[1]) then r
      else [[]] + r
  }

  /** No piece of a split holds a separator. */
  lemma {:induction false} SplitPieces(ts: seq<Token>, k: nat)
    requires k < |Split(ts)|
    ensures NoSeparator(Split(ts)[k])
    decreases |ts|
  {
    if ts != [] {
      var r := Split(ts[1..]);
      if !IsSeparatorToken(ts[0]) {
        SplitPieces(ts[1..], if k == 0 then 0 else k);
        var p := [ts[0]] + r[0];
        if k == 0 {
          assert forall j :: 1 <= j < |p| ==> p[j] == r[0][j - 1];
        }
      } else if |ts| > 1 && IsSeparatorToken(ts[1]) {
        SplitPieces(ts[1..], k);
      } else if k > 0 {
        SplitPieces(ts[1..], k - 1);
      }
    }
  }

  /** The tokens that are not separators, in order. */
  function Unseparated(ts: seq<Token>): seq<Token>
  {
    if ts == [] then []
    else (if IsSeparatorToken(ts[0]) then [] else [ts[0]]) + Unseparated(ts[1..])
  }

  function Flatten(lines: seq<Line>): seq<Token>
  {
    if lines == [] then [] else lines[0] + Flatten(lines[1..])
  }

  lemma FlattenCons(line: Line, lines: seq<Line>)
    ensures Flatten([line] + lines) == line + Flatten(lines)
  {
    var r := [line] + lines;
    assert r[0] == line && r[1..] == lines;
  }

  lemma {:induction false} UnseparatedPlain(a: seq<Token>)
    requires NoSeparator(a)
    ensures Unseparated(a) == a
    decreases |a|
  {
    if a != [] {
      UnseparatedPlain(a[1..]);
    }
  }

  /** Splitting loses nothing but the separators: the pieces, put back together, are the
      input without its separators. */
  lemma {:induction false} SplitKeepsText(ts: seq<Token>)
    ensures Flatten(Split(ts)) == Unseparated(ts)
    decreases |ts|
  {
    if ts == [] {
      FlattenCons([], []);
    } else {
      var r := Split(ts[1..]);
      SplitKeepsText(ts[1..]);
      if !IsSeparatorToken(ts[0]) {
        calc {
          Flatten(Split(ts));
          Flatten([[ts[0]] + r[0]] + r[1..]);
          { FlattenCons([ts[0]] + r[0], r[1..]); }
          ([ts[0]] + r[0]) + Flatten(r[1..]);
          [ts[0]] + (r[0] + Flatten(r[1..]));
          { FlattenCons(r[0], r[1..]); assert [r[0]] + r[1..] == r; }
          [ts[0]] + Flatten(r);
          Unseparated(ts);
        }
      } else if |ts| > 1 && IsSeparatorToken(ts[1]) {
      } else {
        FlattenCons([], r);
        assert [] + Flatten(r) == Flatten(r);
      }
    }
  }

  /** A run of separators at the start cuts off one empty piece, whatever its length. */
  lemma {:induction false} SplitRun(run: seq<Token>, b: seq<Token>)
    requires run != [] && forall j :: 0 <= j < |run| ==> IsSeparatorToken(run[j])
    requires b == [] || !IsSeparatorToken(b[0])
    ensures Split(run + b) == [[]] + Split(b)
    decreases |run|
  {
    var s := run + b;
    assert s[0] == run[0];
    if |run| > 1 {
      assert s[1] == run[1];
      assert s[1..] == run[1..] + b;
      SplitRun(run[1..], b);
    } else {
      assert s[1..] == b;
    }
  }

  /** A run of separators between two texts cuts there and only there: the pieces are those
      of the text before it followed by those of the text after it. */
  lemma {:induction false} SplitCut(a: seq<Token>, run: seq<Token>, b: seq<Token>)
    requires run != [] && forall j :: 0 <= j < |run| ==> IsSeparatorToken(run[j])
    requires a == [] || !IsSeparatorToken(a[|a| - 1])
    requires b == [] || !IsSeparatorToken(b[0])
    ensures Split(a + run + b) == Split(a) + Split(b)
    decreases |a|
  {
    if a == [] {
      assert a + run + b == run + b;
      SplitRun(run, b);
    } else {
      var tail := a[1..] + run + b;
      assert a + run + b == [a[0]] + tail;
      assert a == [a[0]] + a[1..];
      SplitCut(a[1..], run, b);
      if IsSeparatorToken(a[0]) {
        assert a[1..] != [] && tail[0] == a[1..][0];
      }
      SplitCutStep(a[0], a[1..], tail, Split(b));
    }
  }

  /** The step of `SplitCut`: putting the same token in front keeps the trailing pieces. */
  lemma SplitCutStep(t: Token, x: seq<Token>, y: seq<Token>, q: seq<Line>)
    requires Split(y) == Split(x) + q
    requires IsSeparatorToken(t) ==> x != [] && y != [] && y[0] == x[0]
    ensures Split([t] + y) == Split([t] + x) + q
  {
    var r := Split(x);
    if !IsSeparatorToken(t) {
      SplitConsPlain(t, y);
      SplitConsPlain(t, x);
      SplitAppendHead(r, q);
      ConcatAssoc([[t] + r[0]], r[1..], q);
    } else if IsSeparatorToken(x[0]) {
      SplitConsRun(t, y);
      SplitConsRun(t, x);
    } else {
      SplitConsCut(t, y);
      SplitConsCut(t, x);
      ConcatAssoc([[]], r, q);
    }
  }

  /** `Split` unfolded once, on a token that is not a separator put in front. */
  lemma SplitConsPlain(t: Token, ts: seq<Token>)
    requires !IsSeparatorToken(t)
    ensures Split([t] + ts) == [[t] + Split(ts)[0]] + Split(ts)[1..]
  {
    assert ([t] + ts)[1..] == ts;
  }

  /** `Split` unfolded once, on a separator put in front of another. */
  lemma SplitConsRun(t: Token, ts: seq<Token>)
    requires IsSeparatorToken(t) && ts != [] && IsSeparatorToken(ts[0])
    ensures Split([t] + ts) == Split(ts)
  {
    assert ([t] + ts)[1..] == ts;
  }

  /** `Split` unfolded once, on a separator put in front of a non-separator or of nothing. */
  lemma SplitConsCut(t: Token, ts: seq<Token>)
    requires IsSeparatorToken(t) && (ts == [] || !IsSeparatorToken(ts[0]))
    ensures Split([t] + ts) == [[]] + Split(ts)
  {
    assert ([t] + ts)[1..] == ts;
  }

  lemma SplitAppendHead(r: seq<Line>, q: seq<Line>)
    requires r != []
    ensures (r + q)[0] == r[0] && (r + q)[1..] == r[1..] + q
  {
  }

  // ---------------------------------------------------------------------------------------
  // per-segment clean-up
  // ---------------------------------------------------------------------------------------

  /** `line.replace(/^- /g, ' ')` */
  function DashStrip(line: Line): (r: Line)
    ensures forall t :: t in r ==> t in line || t == Char(' ')
  {
    if |line| >= 2 && line[0] == Char('-') && line[1] == Char(' ') then [Char(' ')] + line[2..]
    else line
  }

  /** `trim()` on a segment. */
  function TrimLine(line: Line): (r: Line)
    ensures forall t :: t in r ==> t in line
    ensures |r| > 0 ==> !IsBlank(r[0]) && !IsBlank(r[|r| - 1])
  {
    var a := TrimStart(line, IsBlank);
    var r := TrimEnd(a, IsBlank);
    assert |r| > 0 ==> r[0] == a[0];
    r
  }

  /** A `- ` bullet is dropped by the clean-up, which then leaves what follows it, trimmed. */
  lemma CleanDropsBullet(l: Line)
    ensures Clean([Char('-'), Char(' ')] + l, false) == TrimLine(l)
  {
    var line := [Char('-'), Char(' ')] + l;
    assert line[2..] == l;
    assert DashStrip(line) == [Char(' ')] + l;
    TrimLineBlankCons(l);
  }

  /** A segment without the bullet is only trimmed. */
  lemma CleanNoBullet(l: Line)
    requires !StartsWith(l, [Char('-'), Char(' ')])
    ensures Clean(l, false) == TrimLine(l)
  {
    DashStripNoBullet(l);
  }

  lemma DashStripNoBullet(l: Line)
    requires !StartsWith(l, [Char('-'), Char(' ')])
    ensures DashStrip(l) == l
  {
    if |l| >= 2 {
      assert l[..2] == [l[0], l[1]];
    }
  }

  lemma TrimLineBlankCons(l: Line)
    ensures TrimLine([Char(' ')] + l) == TrimLine(l)
  {
    var x := [Char(' ')] + l;
    assert IsBlank(x[0]);
    assert x[1..] == l;
    assert TrimStart(x, IsBlank) == TrimStart(l, IsBlank);
  }

  /** The emoji code point ranges of `stripEmojis` (their union). */
  predicate IsEmoji(c: char)
  {
    || ('\U{2600}' <= c <= '\U{27BF}')
    || ('\U{2B00}' <= c <= '\U{2BFF}')
    || ('\U{1F000}' <= c <= '\U{1F1FF}')
    || ('\U{1F201}' <= c <= '\U{1F2FF}')
    || ('\U{1F300}' <= c <= '\U{1F9FF}')
    || ('\U{1FA70}' <= c <= '\U{1FAFF}')
  }

  /** The optional variation selector or skin tone removed together with an emoji. */
  predicate IsModifier(c: char)
  {
    ('\U{FE00}' <= c <= '\U{FE0F}') || ('\U{1F3FB}' <= c <= '\U{1F3FF}')
  }

  predicate IsEmojiToken(t: Token)
  {
    t.Char? && IsEmoji(t.c)
  }

  /** The first replace of `stripEmojis`: each emoji, with the modifier right after it. */
  function StripEmoji(line: Line): (r: Line)
    ensures forall t :: t in r ==> t in line && !IsEmojiToken(t)
    ensures |line| == 1 ==> r == (if IsEmojiToken(line[0]) then [] else line)
    ensures |line| == 2 && IsEmojiToken(line[0]) && line[1].Char? && IsModifier(line[1].c) ==> r == []
    decreases |line|
  {
    if line == [] then []
    else if IsEmojiToken(line[0]) then
      if |line| > 1 && line[1].Char? && IsModifier(line[1].c) then StripEmoji(line[2..])
      else StripEmoji(line[1..])
    else [line[0]] + StripEmoji(line[1..])
  }

  /** A segment without emoji is left as it is. */
  lemma {:induction false} StripEmojiPlain(line: Line)
    requires forall t :: t in line ==> !IsEmojiToken(t)
    ensures StripEmoji(line) == line
    decreases |line|
  {
    if line != [] {
      StripEmojiPlain(line[1..]);
    }
  }

  /** Emoji are stripped one by one: stripping a concatenation strips each part, unless the
      second part starts with a modifier that the first part's last emoji would take. */
  lemma {:induction false} StripEmojiAppend(a: Line, b: Line)
    requires b == [] || !(b[0].Char? && IsModifier(b[0].c))
    ensures StripEmoji(a + b) == StripEmoji(a) + StripEmoji(b)
    decreases |a|
  {
    if a == [] {
      assert a + b == b;
    } else if !IsEmojiToken(a[0]) {
      StripEmojiKeep(a, b);
      StripEmojiAppend(a[1..], b);
      ConcatAssoc([a[0]], StripEmoji(a[1..]), StripEmoji(b));
    } else if |a| > 1 && a[1].Char? && IsModifier(a[1].c) {
      StripEmojiPair(a, b);
      StripEmojiAppend(a[2..], b);
    } else {
      StripEmojiSingle(a, b);
      StripEmojiAppend(a[1..], b);
    }
  }

  lemma StripEmojiKeep(a: Line, b: Line)
    requires a != [] && !IsEmojiToken(a[0])
    ensures StripEmoji(a + b) == [a[0]] + StripEmoji(a[1..] + b)
    ensures StripEmoji(a) == [a[0]] + StripEmoji(a[1..])
  {
    assert (a + b)[0] == a[0] && (a + b)[1..] == a[1..] + b;
  }

  lemma StripEmojiPair(a: Line, b: Line)
    requires |a| > 1 && IsEmojiToken(a[0]) && a[1].Char? && IsModifier(a[1].c)
    ensures StripEmoji(a + b) == StripEmoji(a[2..] + b)
    ensures StripEmoji(a) == StripEmoji(a[2..])
  {
    assert (a + b)[0] == a[0] && (a + b)[1] == a[1] && (a + b)[2..] == a[2..] + b;
  }

  lemma StripEmojiSingle(a: Line, b: Line)
    requires a != [] && IsEmojiToken(a[0])
    requires !(|a| > 1 && a[1].Char? && IsModifier(a[1].c))
    requires b == [] || !(b[0].Char? && IsModifier(b[0].c))
    ensures StripEmoji(a + b) == StripEmoji(a[1..] + b)
    ensures StripEmoji(a) == StripEmoji(a[1..])
  {
    var s := a + b;
    assert s[0] == a[0] && s[1..] == a[1..] + b;
    if |a| > 1 {
      assert s[1] == a[1];
    } else if |s| > 1 {
      assert s[1] == b[0];
    }
  }

  /** The second replace of `stripEmojis`: every zero-width joiner. */
  function RemoveJoiners(line: Line): (r: Line)
    ensures forall t :: t in r ==> t in line && t != Char('\U{200D}')
    ensures Char('\U{200D}') !in line ==> r == line
  {
    if line == [] then []
    else (if line[0] == Char('\U{200D}') then [] else [line[0]]) + RemoveJoiners(line[1..])
  }

  /** Joiners are removed one by one: removing them from a concatenation removes them from
      each part. */
  lemma {:induction false} RemoveJoinersAppend(a: Line, b: Line)
    ensures RemoveJoiners(a + b) == RemoveJoiners(a) + RemoveJoiners(b)
    decreases |a|
  {
    if a == [] {
      assert a + b == b;
    } else {
      assert (a + b)[0] == a[0];
      assert (a + b)[1..] == a[1..] + b;
      RemoveJoinersAppend(a[1..], b);
    }
  }

  /** The two `map` steps on one segment: dash strip and trim, then (when emoji are to be
      stripped) emoji strip and trim again. */
  function Clean(line: Line, strip: bool): (r: Line)
    ensures forall t :: t in r ==> t in line || t == Char(' ')
    ensures |r| > 0 ==> !IsBlank(r[0]) && !IsBlank(r[|r| - 1])
    ensures strip ==> forall t :: t in r ==> !IsEmojiToken(t) && t != Char('\U{200D}')
  {
    var l := TrimLine(DashStrip(line));
    if strip then TrimLine(RemoveJoiners(StripEmoji(l))) else l
  }

  /** `filter(line => line.length > 0)` */
  function DropEmpty(lines: seq<Line>): (r: seq<Line>)
    ensures forall i :: 0 <= i < |r| ==> r[i] != [] && r[i] in lines
    ensures |r| <= |lines|
    ensures [] !in lines ==> r == lines
  {
    if lines == [] then []
    else (if lines[0] == [] then [] else [lines[0]]) + DropEmpty(lines[1..])
  }

  /** Lines are filtered one by one: filtering a concatenation filters each part. */
  lemma {:induction false} DropEmptyAppend(a: seq<Line>, b: seq<Line>)
    ensures DropEmpty(a + b) == DropEmpty(a) + DropEmpty(b)
    decreases |a|
  {
    if a == [] {
      assert a + b == b;
    } else {
      assert (a + b)[0] == a[0];
      assert (a + b)[1..] == a[1..] + b;
      DropEmptyAppend(a[1..], b);
      var head: seq<Line> := if a[0] == [] then [] else [a[0]];
      ConcatAssoc(head, DropEmpty(a[1..]), DropEmpty(b));
    }
  }

  /** A single segment is kept exactly when it is not empty. */
  lemma DropEmptySingle(l: Line)
    ensures DropEmpty([l]) == (if l == [] then [] else [l])
  {
    assert [l][1..] == [];
  }

  function CleanAll(lines: seq<Line>, strip: bool): (r: seq<Line>)
    ensures |r| == |lines| && forall i :: 0 <= i < |lines| ==> r[i] == Clean(lines[i], strip)
  {
    seq(|lines|, i requires 0 <= i < |lines| => Clean(lines[i], strip))
  }

  /** The condensed description: trim; nothing when empty; otherwise rewrite URLs, split,
      clean each segment and drop the empty ones. `bolt` prefixes URLs with ⚡️, `strip`
      removes emoji. */
  function Condense(description: Option<string>, bolt: bool, strip: bool): seq<Line>
  {
    match description
    case None => []
    case Some(d) =>
      var t := Trim(d, IsSpace);
      if t == [] then [] else DropEmpty(CleanAll(Split(Rewrite(t, bolt)), strip))
  }

  /** Cleaning a segment that holds no separator cannot bring one in. */
  lemma CleanNoSeparator(piece: Line, strip: bool)
    requires NoSeparator(piece)
    ensures forall t :: t in Clean(piece, strip) ==> !IsSeparatorToken(t)
  {
    forall t | t in Clean(piece, strip)
      ensures !IsSeparatorToken(t)
    {
      if t != Char(' ') {
        var j :| 0 <= j < |piece| && piece[j] == t;
      }
    }
  }

  /** Every segment of a condensed description is non-empty, holds no separator, neither
      starts nor ends with whitespace, and holds no emoji or joiner when they are stripped. */
  lemma CondenseSegments(description: Option<string>, bolt: bool, strip: bool, i: nat)
    requires i < |Condense(description, bolt, strip)|
    ensures var line := Condense(description, bolt, strip)[i];
      && line != []
      && (forall t :: t in line ==> !IsSeparatorToken(t))
      && !IsBlank(line[0]) && !IsBlank(line[|line| - 1])
      && (strip ==> forall t :: t in line ==> !IsEmojiToken(t) && t != Char('\U{200D}'))
  {
    var pieces := Split(Rewrite(Trim(description.value, IsSpace), bolt));
    var cleaned := CleanAll(pieces, strip);
    assert Condense(description, bolt, strip) == DropEmpty(cleaned);
    var line := DropEmpty(cleaned)[i];
    assert line in cleaned;
    var k :| 0 <= k < |cleaned| && cleaned[k] == line;
    assert line == Clean(pieces[k], strip);
    SplitPieces(Rewrite(Trim(description.value, IsSpace), bolt), k);
    CleanNoSeparator(pieces[k], strip);
  }

  /** `Split` of a sequence with no separator is that sequence alone. */
  lemma {:induction false} SplitPlain(ts: seq<Token>)
    requires NoSeparator(ts)
    ensures Split(ts) == [ts]
    decreases |ts|
  {
    if ts != [] {
      SplitPlain(ts[1..]);
      assert [ts[0]] + ts[1..] == ts;
    }
  }

  /** A segment with nothing to trim and no dash bullet is left as it is. */
  lemma CleanPlain(ts: Line)
    requires ts != [] && !IsBlank(ts[0]) && !IsBlank(ts[|ts| - 1])
    requires !(|ts| >= 2 && ts[0] == Char('-') && ts[1] == Char(' '))
    ensures Clean(ts, false) == ts
  {
    assert DashStrip(ts) == ts;
    assert TrimStart(ts, IsBlank) == ts;
    assert TrimEnd(ts, IsBlank) == ts;
  }

  /** A trimmed description of plain text only (no URL, no separator, no dash bullet)
      condenses to itself as a single segment. */
  lemma CondensePlain(d: string, bolt: bool)
    requires d != [] && !IsSpace(d[0]) && !IsSpace(d[|d| - 1])
    requires !Contains(d, "http://") && !Contains(d, "https://")
    requires forall i :: 0 <= i < |d| ==> !IsSeparator(d[i])
    requires !StartsWith(d, "- ")
    ensures Condense(Some(d), bolt, false) == [Chars(d)]
  {
    CondenseTrimmed(d, bolt);
    RewritePlain(d, bolt);
    PlainSegment(d);
    PlainPieces(Chars(d));
  }

  lemma CondenseTrimmed(d: string, bolt: bool)
    requires d != [] && !IsSpace(d[0]) && !IsSpace(d[|d| - 1])
    ensures Condense(Some(d), bolt, false) == DropEmpty(CleanAll(Split(Rewrite(d, bolt)), false))
  {
    TrimmedAlready(d);
  }

  /** The steps after the URL rewrite keep a plain segment as it is. */
  lemma PlainPieces(ts: Line)
    requires ts != [] && NoSeparator(ts) && !IsBlank(ts[0]) && !IsBlank(ts[|ts| - 1])
    requires !(|ts| >= 2 && ts[0] == Char('-') && ts[1] == Char(' '))
    ensures DropEmpty(CleanAll(Split(ts), false)) == [ts]
  {
    SplitPlain(ts);
    CleanPlain(ts);
    assert CleanAll([ts], false) == [ts];
    assert DropEmpty([ts]) == [ts] + DropEmpty([]);
  }

  lemma TrimmedAlready(d: string)
    requires d != [] && !IsSpace(d[0]) && !IsSpace(d[|d| - 1])
    ensures Trim(d, IsSpace) == d
  {
    assert TrimStart(d, IsSpace) == d;
  }

  /** The tokens of a plain description meet what `CleanPlain` and `SplitPlain` ask for. */
  lemma PlainSegment(d: string)
    requires d != [] && !IsSpace(d[0]) && !IsSpace(d[|d| - 1])
    requires forall i :: 0 <= i < |d| ==> !IsSeparator(d[i])
    requires !StartsWith(d, "- ")
    ensures var ts := Chars(d);
      && NoSeparator(ts) && !IsBlank(ts[0]) && !IsBlank(ts[|ts| - 1])
      && !(|ts| >= 2 && ts[0] == Char('-') && ts[1] == Char(' '))
  {
  }

  /** A text without emoji and without zero-width joiners. */
  predicate EmojiFree(s: string)
  {
    forall i :: 0 <= i < |s| ==> !IsEmoji(s[i]) && s[i] != '\U{200D}'
  }

  /** A token that stripping would remove. */
  predicate Strippable(t: Token)
  {
    IsEmojiToken(t) || t == Char('\U{200D}')
  }

  /** Without emoji in the description, stripping them changes nothing: with the bolt off,
      the condensed description is the same whether emoji are stripped or not. */
  lemma CondenseStripKeepsText(d: string)
    requires EmojiFree(d)
    ensures Condense(Some(d), false, true) == Condense(Some(d), false, false)
  {
    var t := Trim(d, IsSpace);
    var a := TrimStart(d, IsSpace);
    assert t == a[..|t|] && a == d[|d| - |a|..];
    assert EmojiFree(t) by {
      forall i | 0 <= i < |t|
        ensures !IsEmoji(t[i]) && t[i] != '\U{200D}'
      {
        assert t[i] == d[|d| - |a| + i];
      }
    }
    if t != [] {
      var ts := Rewrite(t, false);
      RewriteEmojiFree(t);
      var pieces := Split(ts);
      forall k | 0 <= k < |pieces|
        ensures Clean(pieces[k], true) == Clean(pieces[k], false)
      {
        SplitFrom(ts, k);
        CleanStripPlain(pieces[k]);
      }
      assert CleanAll(pieces, true) == CleanAll(pieces, false);
    }
  }

  /** The rewrite with the bolt off brings in no emoji: every character it outputs comes
      from the text. */
  lemma {:induction false} RewriteEmojiFree(s: string)
    requires EmojiFree(s)
    ensures forall t :: t in Rewrite(s, false) ==> !Strippable(t)
    decreases |s|
  {
    if s != [] {
      match UrlAt(s)
      case Some((len, c)) =>
        UrlAtMatches(s);
        assert EmojiFree(s[len..]);
        RewriteEmojiFree(s[len..]);
        var kept := DropTrailingSlash(c);
        assert kept == c[..|kept|];
        assert forall i :: 0 <= i < |kept| ==> kept[i] == c[i] == s[len - |c| + i];
        assert forall t :: t in UrlTokens(c, false) ==> t == UrlOpen || t == UrlClose || t in Chars(kept);
      case None =>
        assert EmojiFree(s[1..]);
        RewriteEmojiFree(s[1..]);
    }
  }

  /** Every token of a piece of a split comes from the input. */
  lemma {:induction false} SplitFrom(ts: seq<Token>, k: nat)
    requires k < |Split(ts)|
    ensures forall t :: t in Split(ts)[k] ==> t in ts
    decreases |ts|
  {
    if ts != [] {
      var r := Split(ts[1..]);
      if !IsSeparatorToken(ts[0]) {
        SplitFrom(ts[1..], k);
      } else if |ts| > 1 && IsSeparatorToken(ts[1]) {
        SplitFrom(ts[1..], k);
      } else if k > 0 {
        SplitFrom(ts[1..], k - 1);
      }
    }
  }

  /** On a segment without emoji or joiners, the stripping clean-up is the plain one. */
  lemma CleanStripPlain(l: Line)
    requires forall t :: t in l ==> !Strippable(t)
    ensures Clean(l, true) == Clean(l, false)
  {
    var x := TrimLine(DashStrip(l));
    assert forall t :: t in x ==> !Strippable(t) by {
      forall t | t in x
        ensures !Strippable(t)
      {
        assert t in DashStrip(l);
      }
    }
    StripEmojiPlain(x);
    assert RemoveJoiners(x) == x;
    TrimLineTwice(DashStrip(l));
  }

  lemma TrimLineTwice(y: Line)
    ensures TrimLine(TrimLine(y)) == TrimLine(y)
  {
    TrimIdempotent(y, IsBlank);
  }

  /** A text that stands as one segment: not empty, no whitespace at either end, no
      separator and no `- ` bullet. */
  predicate Segmentable(d: string)
  {
    && d != [] && !IsSpace(d[0]) && !IsSpace(d[|d| - 1])
    && (forall i :: 0 <= i < |d| ==> !IsSeparator(d[i]))
    && !StartsWith(d, "- ")
  }

  /** Two such texts joined by a separator condense to the two of them, in order. */
  lemma CondenseTwo(a: string, sep: char, b: string, bolt: bool)
    requires Segmentable(a) && Segmentable(b) && IsSeparator(sep)
    requires !Contains(a + [sep] + b, "http://") && !Contains(a + [sep] + b, "https://")
    ensures Condense(Some(a + [sep] + b), bolt, false) == [Chars(a), Chars(b)]
  {
    var d := a + [sep] + b;
    assert d[0] == a[0] && d[|d| - 1] == b[|b| - 1];
    CondenseNoUrl(d, bolt);
    CharsConcat(a, sep, b);
    TwoSegments(a, sep, b);
  }

  lemma TwoSegments(a: string, sep: char, b: string)
    requires Segmentable(a) && Segmentable(b) && IsSeparator(sep)
    ensures DropEmpty(CleanAll(Split(Chars(a) + [Char(sep)] + Chars(b)), false)) == [Chars(a), Chars(b)]
  {
    PlainSegment(a);
    PlainSegment(b);
    TwoPieces(Chars(a), Char(sep), Chars(b));
  }

  lemma CondenseNoUrl(d: string, bolt: bool)
    requires d != [] && !IsSpace(d[0]) && !IsSpace(d[|d| - 1])
    requires !Contains(d, "http://") && !Contains(d, "https://")
    ensures Condense(Some(d), bolt, false) == DropEmpty(CleanAll(Split(Chars(d)), false))
  {
    CondenseTrimmed(d, bolt);
    RewritePlain(d, bolt);
  }

  lemma CharsConcat(a: string, sep: char, b: string)
    ensures Chars(a + [sep] + b) == Chars(a) + [Char(sep)] + Chars(b)
  {
  }

  /** The steps after the URL rewrite on two plain segments around a separator. */
  lemma TwoPieces(ca: Line, sep: Token, cb: Line)
    requires IsSeparatorToken(sep)
    requires ca != [] && NoSeparator(ca) && !IsBlank(ca[0]) && !IsBlank(ca[|ca| - 1])
    requires !(|ca| >= 2 && ca[0] == Char('-') && ca[1] == Char(' '))
    requires cb != [] && NoSeparator(cb) && !IsBlank(cb[0]) && !IsBlank(cb[|cb| - 1])
    requires !(|cb| >= 2 && cb[0] == Char('-') && cb[1] == Char(' '))
    ensures DropEmpty(CleanAll(Split(ca + [sep] + cb), false)) == [ca, cb]
  {
    SplitTwo(ca, sep, cb);
    CleanTwo(ca, cb);
  }

  lemma SplitTwo(ca: Line, sep: Token, cb: Line)
    requires IsSeparatorToken(sep) && ca != [] && cb != [] && NoSeparator(ca) && NoSeparator(cb)
    ensures Split(ca + [sep] + cb) == [ca, cb]
  {
    SplitCut(ca, [sep], cb);
    SplitPlain(ca);
    SplitPlain(cb);
  }

  lemma CleanTwo(ca: Line, cb: Line)
    requires ca != [] && !IsBlank(ca[0]) && !IsBlank(ca[|ca| - 1])
    requires !(|ca| >= 2 && ca[0] == Char('-') && ca[1] == Char(' '))
    requires cb != [] && !IsBlank(cb[0]) && !IsBlank(cb[|cb| - 1])
    requires !(|cb| >= 2 && cb[0] == Char('-') && cb[1] == Char(' '))
    ensures DropEmpty(CleanAll([ca, cb], false)) == [ca, cb]
  {
    CleanPlain(ca);
    CleanPlain(cb);
    CleanAllTwo(ca, cb);
    DropEmptyTwo(ca, cb);
  }

  lemma CleanAllTwo(ca: Line, cb: Line)
    requires Clean(ca, false) == ca && Clean(cb, false) == cb
    ensures CleanAll([ca, cb], false) == [ca, cb]
  {
    var cl := CleanAll([ca, cb], false);
    assert cl[0] == ca;
    assert cl[1] == cb;
  }

  lemma DropEmptyTwo(ca: Line, cb: Line)
    requires ca != [] && cb != []
    ensures DropEmpty([ca, cb]) == [ca, cb]
  {
    assert [ca, cb] == [ca] + [cb];
    DropEmptyAppend([ca], [cb]);
    DropEmptySingle(ca);
    DropEmptySingle(cb);
  }
}
