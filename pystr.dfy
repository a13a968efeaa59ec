/**
 * The Python `str` built-ins the core relies on: `split()` with no argument
 * (callback data), `rstrip(c)` (the gateway base URL), `lower()` (the
 * gateway status) and slicing `s[:n]` (error snippets).
 */
module PyStr {

  /** `c.isspace()`: the characters `str.split()` separates on. */
  predicate IsSpace(c: char) {
    || c == ' '
    || ('\t' <= c <= '\r')
    || ('\U{1C}' <= c <= '\U{1F}')
    || c == '\U{85}' || c == '\U{A0}' || c == '\U{1680}'
    || ('\U{2000}' <= c <= '\U{200A}')
    || c == '\U{2028}' || c == '\U{2029}' || c == '\U{202F}' || c == '\U{205F}' || c == '\U{3000}'
  }

  /** A token `split()` can produce: non-empty and free of whitespace. */
  predicate IsWord(w: string) {
    w != [] && forall i :: 0 <= i < |w| ==> !IsSpace(w[i])
  }

  /** Length of the longest whitespace-free prefix of `s`. */
  function WordLen(s: string): (n: nat)
    ensures n <= |s|
    ensures forall i :: 0 <= i < n ==> !IsSpace(s[i])
    ensures n == |s| || IsSpace(s[n])
  {
    if s == [] || IsSpace(s[0]) then 0 else 1 + WordLen(s[1..])
  }

  /** `s.split()`: the maximal runs of non-whitespace characters, in order. */
  function Split(s: string): (words: seq<string>)
    ensures forall k :: 0 <= k < |words| ==> IsWord(words[k])
    decreases |s|
  {
    if s == [] then []
    else if IsSpace(s[0]) then Split(s[1..])
    else
      var n := WordLen(s);
      [s[..n]] + Split(s[n..])
  }

  /** `" ".join(words)`. */
  function Unsplit(words: seq<string>): string {
    if words == [] then ""
    else if |words| == 1 then words[0]
    else words[0] + " " + Unsplit(words[1..])
  }

  lemma {:induction false} WordLenOfWord(w: string, tail: string)
    requires IsWord(w)
    requires tail == [] || IsSpace(tail[0])
    ensures WordLen(w + tail) == |w|
  {
    if |w| > 1 {
      assert (w + tail)[1..] == w[1..] + tail;
      WordLenOfWord(w[1..], tail);
    } else {
      assert (w + tail)[1..] == tail;
    }
  }

  /** A word followed by a separator (or nothing) splits off as the first token. */
  lemma SplitWord(w: string, tail: string)
    requires IsWord(w)
    requires tail == [] || IsSpace(tail[0])
    ensures Split(w + tail) == [w] + Split(tail)
  {
    WordLenOfWord(w, tail);
    assert (w + tail)[..|w|] == w;
    assert (w + tail)[|w|..] == tail;
  }

  /** A run of whitespace, possibly empty. */
  predicate AllSpace(ws: string) {
    forall i :: 0 <= i < |ws| ==> IsSpace(ws[i])
  }

  /** Leading whitespace, however long a run and of whatever kind, is dropped. */
  lemma {:induction false} SplitSkipsSpace(ws: string, s: string)
    requires AllSpace(ws)
    ensures Split(ws + s) == Split(s)
  {
    if ws != [] {
      assert (ws + s)[0] == ws[0];
      assert (ws + s)[1..] == ws[1..] + s;
      SplitSkipsSpace(ws[1..], s);
    } else {
      assert ws + s == s;
    }
  }

  /** A word, then a non-empty run of whitespace: the word is the first token and the run is dropped. */
  lemma SplitWordThenSpace(w: string, sep: string, rest: string)
    requires IsWord(w) && AllSpace(sep) && sep != []
    ensures Split(w + (sep + rest)) == [w] + Split(rest)
  {
    assert (sep + rest)[0] == sep[0];
    SplitWord(w, sep + rest);
    SplitSkipsSpace(sep, rest);
  }

  /** Concatenation of seven pieces, regrouped to the right. */
  lemma Regroup(p0: string, p1: string, p2: string, p3: string, p4: string, p5: string, p6: string)
    ensures p0 + p1 + p2 + p3 + p4 + p5 + p6 == p0 + (p1 + (p2 + (p3 + (p4 + (p5 + p6)))))
  {
  }

  /**
   * Three words with any whitespace before, between and after them split into
   * exactly those words: every run of separators, whatever its length and kind,
   * acts as one, and leading and trailing runs are dropped.
   */
  lemma SplitThreeWords(lead: string, a: string, s1: string, b: string, s2: string, c: string, trail: string)
    requires AllSpace(lead) && AllSpace(s1) && AllSpace(s2) && AllSpace(trail)
    requires s1 != [] && s2 != []
    requires IsWord(a) && IsWord(b) && IsWord(c)
    ensures Split(lead + a + s1 + b + s2 + c + trail) == [a, b, c]
  {
    var t3 := b + (s2 + (c + trail));
    var t1 := a + (s1 + t3);
    Regroup(lead, a, s1, b, s2, c, trail);
    SplitSkipsSpace(trail, []);
    assert trail + [] == trail;
    SplitWord(c, trail);
    assert Split(c + trail) == [c];
    SplitWordThenSpace(b, s2, c + trail);
    assert Split(t3) == [b, c];
    SplitWordThenSpace(a, s1, t3);
    assert Split(t1) == [a, b, c];
    SplitSkipsSpace(lead, t1);
  }

  /** Callback data with a tab in front, a doubled space and a trailing newline still parses as its three words. */
  lemma SplitCallbackWithStrayWhitespace()
    ensures Split("\tsub  buy 7d\n") == ["sub", "buy", "7d"]
  {
    SplitThreeWords("\t", "sub", "  ", "buy", " ", "7d", "\n");
    assert "\t" + "sub" + "  " + "buy" + " " + "7d" + "\n" == "\tsub  buy 7d\n";
  }

  /** Splitting words joined by single spaces gives the words back. */
  lemma {:induction false} SplitUnsplit(words: seq<string>)
    requires forall k :: 0 <= k < |words| ==> IsWord(words[k])
    ensures Split(Unsplit(words)) == words
  {
    if |words| == 1 {
      SplitWord(words[0], "");
      assert words[0] + "" == words[0];
    } else if |words| > 1 {
      var rest := Unsplit(words[1..]);
      SplitUnsplit(words[1..]);
      SplitWord(words[0], " " + rest);
      assert words[0] + " " + rest == words[0] + (" " + rest);
      assert (" " + rest)[1..] == rest;
      assert words == [words[0]] + words[1..];
    }
  }

  /** `s.rstrip(c)`: `s` without its trailing run of `c`. */
  function RStrip(s: string, c: char): (r: string)
    ensures r <= s
    ensures r == [] || r[|r| - 1] != c
    ensures forall i :: |r| <= i < |s| ==> s[i] == c
  {
    if s != [] && s[|s| - 1] == c then RStrip(s[..|s| - 1], c) else s
  }

  /**
   * `c.lower()` where it yields an ASCII letter: for 'A'..'Z', and for
   * U+212A KELVIN SIGN, which lower-cases to 'k'. Every other character is
   * kept, so comparing the result with an all-ASCII word is exact.
   */
  function LowerChar(c: char): char {
    if 'A' <= c <= 'Z' then (c as int + 32) as char
    else if c == '\U{212A}' then 'k'
    else c
  }

  /** `s.lower()`, character by character as `LowerChar`. */
  function Lower(s: string): (r: string)
    ensures |r| == |s|
    ensures forall i :: 0 <= i < |s| ==> r[i] == LowerChar(s[i])
  {
    if s == [] then [] else [LowerChar(s[0])] + Lower(s[1..])
  }

  /** `s[:n]`. */
  function Take(s: string, n: nat): (r: string)
    ensures r <= s
    ensures |r| == if |s| <= n then |s| else n
  {
    if |s| <= n then s else s[..n]
  }
}
