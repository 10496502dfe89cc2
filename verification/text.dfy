/** Python's whitespace handling on `str`: `isspace`, `split()` with no
    argument, `strip()` with no argument and `" ".join(...)`. */
module Text {

  /** The characters Python's `str.isspace` accepts: the ASCII controls
      U+0009..U+000D and U+001C..U+001F, the space, and the Unicode
      separators Python's character database marks as whitespace. */
  predicate IsSpace(c: char) {
    var n := c as int;
    || (0x09 <= n <= 0x0D)
    || (0x1C <= n <= 0x20)
    || n == 0x85 || n == 0xA0 || n == 0x1680
    || (0x2000 <= n <= 0x200A)
    || n == 0x2028 || n == 0x2029 || n == 0x202F || n == 0x205F || n == 0x3000
  }

  /** No character of `s` is anything but whitespace (true of ""). */
  predicate AllSpace(s: string) {
    forall i :: 0 <= i < |s| ==> IsSpace(s[i])
  }

  /** A token `split()` can produce: non-empty, without whitespace. */
  predicate IsWord(w: string) {
    |w| > 0 && forall i :: 0 <= i < |w| ==> !IsSpace(w[i])
  }

  predicate AllWords(ts: seq<string>) {
    forall i :: 0 <= i < |ts| ==> IsWord(ts[i])
  }

  /** Length of the longest whitespace-free prefix of `s`. */
  function WordLength(s: string): (n: nat)
    ensures n <= |s|
    ensures forall i :: 0 <= i < n ==> !IsSpace(s[i])
    ensures n == |s| || IsSpace(s[n])
  {
    if s == [] || IsSpace(s[0]) then 0 else 1 + WordLength(s[1..])
  }

  /** The whitespace-free prefix is determined by where the first
      whitespace character (or the end) is. */
  lemma WordLengthUnique(s: string, k: nat)
    requires k <= |s|
    requires forall i :: 0 <= i < k ==> !IsSpace(s[i])
    requires k == |s| || IsSpace(s[k])
    ensures WordLength(s) == k
  {
  }

  /** `s.split()`: the maximal runs of non-whitespace characters, in order.
      Runs of whitespace separate tokens; leading and trailing whitespace
      produce no token. */
  function Split(s: string): (ts: seq<string>)
    ensures AllWords(ts)
    decreases |s|
  {
    if s == [] then []
    else if IsSpace(s[0]) then Split(s[1..])
    else
      var n := WordLength(s);
      [s[..n]] + Split(s[n..])
  }

  /** `" ".join(ts)`. */
  function Join(ts: seq<string>): string {
    if |ts| == 0 then ""
    else if |ts| == 1 then ts[0]
    else ts[0] + " " + Join(ts[1..])
  }

  /** `s` with every whitespace character deleted. */
  function NonSpace(s: string): string {
    if s == [] then []
    else (if IsSpace(s[0]) then [] else [s[0]]) + NonSpace(s[1..])
  }

  /** Flattening of a list of strings. */
  function Concat(ts: seq<string>): string {
    if ts == [] then [] else ts[0] + Concat(ts[1..])
  }

  /** Number of whitespace characters `s.lstrip()` removes. */
  function LeadingSpaces(s: string): (k: nat)
    ensures k <= |s|
    ensures forall i :: 0 <= i < k ==> IsSpace(s[i])
    ensures k == |s| || !IsSpace(s[k])
  {
    if s != [] && IsSpace(s[0]) then 1 + LeadingSpaces(s[1..]) else 0
  }

  /** Number of whitespace characters `s.rstrip()` removes. */
  function TrailingSpaces(s: string): (k: nat)
    ensures k <= |s|
    ensures forall i :: |s| - k <= i < |s| ==> IsSpace(s[i])
    ensures k == |s| || !IsSpace(s[|s| - k - 1])
  {
    if s != [] && IsSpace(s[|s| - 1]) then 1 + TrailingSpaces(s[..|s| - 1]) else 0
  }

  /** `s.lstrip()`. */
  function TrimStart(s: string): string {
    s[LeadingSpaces(s)..]
  }

  /** `s.rstrip()`. */
  function TrimEnd(s: string): string {
    s[..|s| - TrailingSpaces(s)]
  }

  /** `s.strip()`. */
  function Strip(s: string): string {
    TrimEnd(TrimStart(s))
  }

  /** `lstrip` cuts a whitespace-only prefix and leaves a suffix that is
      empty or starts with a non-whitespace character. */
  lemma TrimStartSpec(s: string)
    ensures |TrimStart(s)| <= |s| && TrimStart(s) == s[|s| - |TrimStart(s)|..]
    ensures AllSpace(s[..|s| - |TrimStart(s)|])
    ensures TrimStart(s) == [] || !IsSpace(TrimStart(s)[0])
  {
  }

  /** `rstrip` cuts a whitespace-only suffix and leaves a prefix that is
      empty or ends with a non-whitespace character. */
  lemma TrimEndSpec(s: string)
    ensures |TrimEnd(s)| <= |s| && TrimEnd(s) == s[..|TrimEnd(s)|]
    ensures AllSpace(s[|TrimEnd(s)|..])
    ensures TrimEnd(s) == [] || !IsSpace(TrimEnd(s)[|TrimEnd(s)| - 1])
  {
    var r := TrimEnd(s);
    var b := s[|r|..];
    assert forall i :: 0 <= i < |b| ==> b[i] == s[|r| + i];
  }

  /** `strip` leaves nothing exactly for an all-whitespace string, and
      otherwise a string whose first and last characters are not
      whitespace. */
  lemma StripSpec(s: string)
    ensures Strip(s) == [] <==> AllSpace(s)
    ensures Strip(s) == [] || (!IsSpace(Strip(s)[0]) && !IsSpace(Strip(s)[|Strip(s)| - 1]))
  {
    var t := TrimStart(s);
    var r := TrimEnd(t);
    var k := |s| - |t|;
    TrimStartSpec(s);
    TrimEndSpec(t);
    if r == [] {
      assert t[|r|..] == t;
      assert t == [];
      assert s[..k] == s;
    } else {
      assert r[0] == t[0];
      assert t[0] == s[k];
    }
  }

  /** A string in the form `" ".join` of `split()` tokens produces: no
      whitespace at either end, and each whitespace character is a single
      plain space standing between two non-whitespace characters. */
  predicate Normalized(t: string) {
    && (|t| > 0 ==> !IsSpace(t[0]) && !IsSpace(t[|t| - 1]))
    && (forall i :: 0 <= i < |t| && IsSpace(t[i]) ==> t[i] == ' ')
    && (forall i :: 0 <= i < |t| ==> NoDoubleSpaceAt(t, i))
  }

  /** Position `i` of `t` does not start two consecutive whitespace
      characters. */
  predicate NoDoubleSpaceAt(t: string, i: int) {
    0 <= i && i + 1 < |t| && IsSpace(t[i]) ==> !IsSpace(t[i + 1])
  }

  /** `" ".join(s.split())`: whitespace runs collapsed to one space and
      the ends trimmed. */
  function Normalize(s: string): (t: string)
    ensures Normalized(t)
    ensures Split(t) == Split(s)
  {
    JoinNormalized(Split(s));
    SplitJoin(Split(s));
    Join(Split(s))
  }

  // ---------------------------------------------------------------------
  // Lemmas about Split

  /** One unfolding of `Split` on a string starting with whitespace. */
  lemma SplitSpaceCons(s: string)
    requires s != [] && IsSpace(s[0])
    ensures Split(s) == Split(s[1..])
  {
  }

  /** One unfolding of `Split` on a string starting with a word. */
  lemma SplitWordCons(s: string)
    requires s != [] && !IsSpace(s[0])
    ensures Split(s) == [s[..WordLength(s)]] + Split(s[WordLength(s)..])
  {
  }

  /** A word followed by whitespace (or nothing) is split off as one token. */
  lemma SplitWordThen(w: string, rest: string)
    requires IsWord(w)
    requires rest == [] || IsSpace(rest[0])
    ensures Split(w + rest) == [w] + Split(rest)
  {
    var s := w + rest;
    WordLengthUnique(s, |w|);
    assert s[..|w|] == w;
    assert s[|w|..] == rest;
  }

  /** Leading whitespace produces no token. */
  lemma {:induction false} SplitPrependSpace(w: string, s: string)
    requires AllSpace(w)
    ensures Split(w + s) == Split(s)
    decreases |w|
  {
    if w == [] {
      assert w + s == s;
    } else {
      assert (w + s)[0] == w[0];
      assert (w + s)[1..] == w[1..] + s;
      SplitPrependSpace(w[1..], s);
    }
  }

  /** Trailing whitespace produces no token. */
  lemma {:induction false} SplitAppendSpace(s: string, w: string)
    requires AllSpace(w)
    ensures Split(s + w) == Split(s)
    decreases |s|
  {
    if s == [] {
      assert s + w == w + [];
      SplitPrependSpace(w, []);
    } else if IsSpace(s[0]) {
      assert (s + w)[1..] == s[1..] + w;
      SplitAppendSpace(s[1..], w);
    } else {
      var n := WordLength(s);
      WordLengthUnique(s + w, n);
      assert (s + w)[..n] == s[..n];
      assert (s + w)[n..] == s[n..] + w;
      SplitAppendSpace(s[n..], w);
    }
  }

  /** `s.lstrip().split()` equals `s.split()`. */
  lemma SplitTrimStart(s: string)
    ensures Split(TrimStart(s)) == Split(s)
  {
    var k := LeadingSpaces(s);
    var a := s[..k];
    assert s == a + TrimStart(s);
    SplitPrependSpace(a, TrimStart(s));
  }

  /** `s.rstrip().split()` equals `s.split()`. */
  lemma SplitTrimEnd(s: string)
    ensures Split(TrimEnd(s)) == Split(s)
  {
    var r := TrimEnd(s);
    var b := s[|r|..];
    assert s == r + b;
    assert forall i :: 0 <= i < |b| ==> b[i] == s[|r| + i];
    SplitAppendSpace(r, b);
  }

  /** Dropping a prefix of `a` from `a + c`. */
  lemma DropAppend(a: string, c: string, n: nat)
    requires n <= |a|
    ensures (a + c)[n..] == a[n..] + c
  {
  }

  /** A word at the front of `a` stays one token when `c` is appended,
      provided it ends inside `a` or `c` starts with whitespace. */
  lemma SplitWordExtend(a: string, c: string)
    requires a != [] && !IsSpace(a[0])
    requires WordLength(a) < |a| || (c != [] && IsSpace(c[0]))
    ensures Split(a + c) == [a[..WordLength(a)]] + Split(a[WordLength(a)..] + c)
  {
    var n := WordLength(a);
    var s := a + c;
    assert s[..n] == a[..n];
    DropAppend(a, c, n);
    assert forall i :: 0 <= i < n ==> !IsSpace(s[i]) by {
      forall i | 0 <= i < n ensures !IsSpace(s[i]) {
        assert s[i] == a[i];
      }
    }
    assert IsSpace(s[n]) by {
      if n < |a| { assert s[n] == a[n]; } else { assert s[n] == c[0]; }
    }
    WordLengthUnique(s, n);
  }

  /** A non-empty run of whitespace inside a string separates tokens:
      the tokens of `a + w + b` are those of `a` followed by those of `b`,
      whatever the run's length or characters. */
  lemma {:induction false} SplitSeparated(a: string, w: string, b: string)
    requires AllSpace(w) && w != []
    ensures Split(a + w + b) == Split(a) + Split(b)
    decreases |a|
  {
    var c := w + b;
    assert a + w + b == a + c;
    if a == [] {
      assert a + c == c;
      SplitPrependSpace(w, b);
    } else if IsSpace(a[0]) {
      SplitSpaceCons(a + c);
      assert (a + c)[1..] == a[1..] + c;
      assert a[1..] + c == a[1..] + w + b;
      SplitSpaceCons(a);
      SplitSeparated(a[1..], w, b);
    } else {
      var n := WordLength(a);
      assert c[0] == w[0];
      SplitWordExtend(a, c);
      SplitWordCons(a);
      assert a[n..] + c == a[n..] + w + b;
      SplitSeparated(a[n..], w, b);
    }
  }

  /** Specimen: a tab and a double space separate tokens like one space. */
  lemma SplitSeparatedExample()
    ensures Split("a\tb") == Split("a") + Split("b")
    ensures Split("a  b") == Split("a") + Split("b")
  {
    SplitSeparated("a", "\t", "b");
    assert "a\tb" == "a" + "\t" + "b";
    SplitSeparated("a", "  ", "b");
    assert "a  b" == "a" + "  " + "b";
  }

  /** Stripping before splitting changes nothing: `s.strip().split()`
      equals `s.split()`. */
  lemma SplitStrip(s: string)
    ensures Split(Strip(s)) == Split(s)
  {
    SplitTrimStart(s);
    SplitTrimEnd(TrimStart(s));
  }

  /** `split()` yields no token exactly when the string is all whitespace. */
  lemma {:induction false} SplitEmptyIff(s: string)
    ensures Split(s) == [] <==> AllSpace(s)
    decreases |s|
  {
    if s != [] && IsSpace(s[0]) {
      SplitEmptyIff(s[1..]);
      if AllSpace(s[1..]) {
        assert forall i :: 0 <= i < |s| ==> IsSpace(s[i]) by {
          forall i | 0 <= i < |s| ensures IsSpace(s[i]) {
            if i > 0 { assert s[i] == s[1..][i - 1]; }
          }
        }
      }
    }
  }

  lemma {:induction false} NonSpaceAppend(a: string, b: string)
    ensures NonSpace(a + b) == NonSpace(a) + NonSpace(b)
    decreases |a|
  {
    if a == [] {
      assert a + b == b;
    } else {
      assert (a + b)[1..] == a[1..] + b;
      NonSpaceAppend(a[1..], b);
    }
  }

  lemma {:induction false} NonSpaceOfWord(w: string)
    requires forall i :: 0 <= i < |w| ==> !IsSpace(w[i])
    ensures NonSpace(w) == w
    decreases |w|
  {
    if w != [] {
      NonSpaceOfWord(w[1..]);
    }
  }

  /** Splitting loses and adds no character other than whitespace: the
      tokens, concatenated, are `s` with its whitespace deleted. */
  lemma {:induction false} SplitKeepsContent(s: string)
    ensures Concat(Split(s)) == NonSpace(s)
    decreases |s|
  {
    if s == [] {
    } else if IsSpace(s[0]) {
      SplitKeepsContent(s[1..]);
    } else {
      var n := WordLength(s);
      assert s == s[..n] + s[n..];
      NonSpaceAppend(s[..n], s[n..]);
      NonSpaceOfWord(s[..n]);
      SplitKeepsContent(s[n..]);
      assert ([s[..n]] + Split(s[n..]))[1..] == Split(s[n..]);
    }
  }

  // ---------------------------------------------------------------------
  // Lemmas about Join

  /** The joined text of non-empty words starts with the first word's
      first character and ends with the last word's last character. */
  lemma {:induction false} JoinEnds(ts: seq<string>)
    requires AllWords(ts) && |ts| > 0
    ensures |Join(ts)| > 0
    ensures Join(ts)[0] == ts[0][0]
    ensures Join(ts)[|Join(ts)| - 1] == ts[|ts| - 1][|ts[|ts| - 1]| - 1]
  {
    if |ts| > 1 {
      JoinEnds(ts[1..]);
    }
  }

  /** `" ".join` after popping the last token, then re-appending it. */
  lemma {:induction false} JoinLast(ts: seq<string>)
    requires |ts| >= 2
    ensures Join(ts) == Join(ts[..|ts| - 1]) + " " + ts[|ts| - 1]
  {
    if |ts| > 2 {
      JoinLast(ts[1..]);
      assert ts[1..][..|ts| - 2] == ts[..|ts| - 1][1..];
    }
  }

  /** A word, a space and a normalized non-empty string make a
      normalized string. */
  lemma NormalizedCons(w: string, t: string)
    requires IsWord(w) && Normalized(t) && |t| > 0
    ensures Normalized(w + " " + t)
  {
    var s := w + " " + t;
    assert s[|w|] == ' ' && s[|w| + 1] == t[0];
    forall i | 0 <= i < |s|
      ensures NoDoubleSpaceAt(s, i)
      ensures IsSpace(s[i]) ==> s[i] == ' '
    {
      if i > |w| {
        assert s[i] == t[i - |w| - 1];
        assert NoDoubleSpaceAt(t, i - |w| - 1);
        if i + 1 < |s| { assert s[i + 1] == t[i - |w|]; }
      } else if i < |w| {
        assert s[i] == w[i];
      }
    }
    assert s[|s| - 1] == t[|t| - 1];
  }

  /** `" ".join` of `split()`-shaped tokens is normalized. */
  lemma {:induction false} JoinNormalized(ts: seq<string>)
    requires AllWords(ts)
    ensures Normalized(Join(ts))
  {
    if |ts| > 1 {
      JoinNormalized(ts[1..]);
      JoinEnds(ts[1..]);
      NormalizedCons(ts[0], Join(ts[1..]));
    }
  }

  /** Round trip: splitting the `" ".join` of tokens gives the tokens back. */
  lemma {:induction false} SplitJoin(ts: seq<string>)
    requires AllWords(ts)
    ensures Split(Join(ts)) == ts
  {
    if |ts| == 1 {
      SplitWordThen(ts[0], []);
      assert ts[0] + [] == ts[0];
    } else if |ts| > 1 {
      var j := Join(ts[1..]);
      assert Join(ts) == ts[0] + (" " + j);
      SplitWordThen(ts[0], " " + j);
      assert (" " + j)[1..] == j;
      SplitJoin(ts[1..]);
    }
  }

  /** A suffix of a normalized string that starts on a non-whitespace
      character is normalized. */
  lemma NormalizedSuffix(t: string, k: nat)
    requires Normalized(t) && k < |t| && !IsSpace(t[k])
    ensures Normalized(t[k..])
  {
    var u := t[k..];
    forall i | 0 <= i < |u|
      ensures NoDoubleSpaceAt(u, i)
      ensures IsSpace(u[i]) ==> u[i] == ' '
    {
      assert NoDoubleSpaceAt(t, k + i);
      assert u[i] == t[k + i];
      if i + 1 < |u| { assert u[i + 1] == t[k + i + 1]; }
    }
    assert u[|u| - 1] == t[|t| - 1];
  }

  /** A normalized string with a space in it is a word, a space and a
      shorter normalized string. */
  lemma NormalizedSplitsAt(t: string, n: nat)
    requires Normalized(t)
    requires n < |t| && n == WordLength(t)
    ensures n > 0 && n + 1 < |t| && t[n] == ' '
    ensures Normalized(t[n + 1..]) && !IsSpace(t[n + 1])
  {
    assert n > 0 by { assert !IsSpace(t[0]); }
    assert t[n] == ' ';
    assert n + 1 < |t| by { assert !IsSpace(t[|t| - 1]); }
    assert NoDoubleSpaceAt(t, n);
    NormalizedSuffix(t, n + 1);
  }

  /** The tokens of a normalized string with a space in it: the first
      word, then the (at least one) tokens after the space. */
  lemma SplitNormalizedAt(t: string, n: nat)
    requires Normalized(t)
    requires n < |t| && n == WordLength(t)
    ensures Split(t) == [t[..n]] + Split(t[n + 1..])
    ensures Split(t[n + 1..]) != []
  {
    NormalizedSplitsAt(t, n);
    var u := t[n + 1..];
    SplitWordCons(t);
    SplitSpaceCons(t[n..]);
    assert t[n..][1..] == u;
    SplitEmptyIff(u);
  }

  /** A string with a space at `n` is its prefix, a space and its suffix. */
  lemma AroundSpace(t: string, n: nat)
    requires n < |t| && t[n] == ' '
    ensures t == t[..n] + " " + t[n + 1..]
  {
  }

  /** `" ".join` of a word followed by a non-empty list. */
  lemma JoinCons(w: string, ts: seq<string>)
    requires ts != []
    ensures Join([w] + ts) == w + " " + Join(ts)
  {
    assert ([w] + ts)[1..] == ts;
  }

  /** Round trip the other way: a normalized string is the `" ".join` of
      its own tokens, so normalization leaves it unchanged. */
  lemma {:induction false} JoinSplitNormalized(t: string)
    requires Normalized(t)
    ensures Join(Split(t)) == t
    decreases |t|
  {
    if t != [] {
      var n := WordLength(t);
      var w := t[..n];
      SplitWordCons(t);
      if n == |t| {
        assert t[n..] == [];
        assert w == t;
      } else {
        NormalizedSplitsAt(t, n);
        SplitNormalizedAt(t, n);
        var u := t[n + 1..];
        AroundSpace(t, n);
        JoinSplitNormalized(u);
        JoinCons(w, Split(u));
      }
    }
  }

  /** Normalizing a normalized string changes nothing. */
  lemma NormalizeFixpoint(t: string)
    requires Normalized(t)
    ensures Normalize(t) == t
  {
    JoinSplitNormalized(t);
  }
}
