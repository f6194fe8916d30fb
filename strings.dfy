// Rust's `str::split(char)` and `str::split_whitespace`, which the array
// engine's FEN reader uses to cut a FEN record into fields and ranks.
module Strings {
  /** `char::is_whitespace`: the Unicode White_Space characters. */
  predicate IsWhitespace(c: char)
  {
    c == ' ' || '\t' <= c <= '\r' || c == '\U{85}' || c == '\U{A0}' || c == '\U{1680}'
    || '\U{2000}' <= c <= '\U{200A}' || c == '\U{2028}' || c == '\U{2029}' || c == '\U{202F}'
    || c == '\U{205F}' || c == '\U{3000}'
  }

  /** A word: at least one character and no whitespace. */
  predicate IsWord(w: string)
  {
    |w| > 0 && forall i :: 0 <= i < |w| ==> !IsWhitespace(w[i])
  }

  /** The words of `s`, with `word` the part of the current word already read. */
  function WordsFrom(s: string, word: string): (r: seq<string>)
    requires word == [] || IsWord(word)
    ensures forall i :: 0 <= i < |r| ==> IsWord(r[i])
  {
    if s == [] then (if word == [] then [] else [word])
    else if IsWhitespace(s[0]) then
      (if word == [] then [] else [word]) + WordsFrom(s[1..], [])
    else WordsFrom(s[1..], word + [s[0]])
  }

  /** `split_whitespace`: the maximal runs of non-whitespace characters, in order. */
  function SplitWhitespace(s: string): (r: seq<string>)
    ensures forall i :: 0 <= i < |r| ==> IsWord(r[i])
  {
    WordsFrom(s, [])
  }

  /** The words joined with single spaces. */
  function JoinSpaces(words: seq<string>): (s: string)
  {
    if words == [] then []
    else if |words| == 1 then words[0]
    else words[0] + [' '] + JoinSpaces(words[1..])
  }

  /** Reading the rest of a word carries on from the characters already read. */
  lemma {:induction false} WordsFromWord(w: string, word: string, rest: string)
    requires (word == [] || IsWord(word)) && (w == [] || IsWord(w))
    requires rest == [] || IsWhitespace(rest[0])
    ensures WordsFrom(w + rest, word) == WordsFrom(rest, word + w)
    decreases |w|
  {
    if w != [] {
      assert (w + rest)[0] == w[0] && !IsWhitespace(w[0]);
      assert (w + rest)[1..] == w[1..] + rest;
      assert word + w == (word + [w[0]]) + w[1..];
      assert IsWord(word + [w[0]]);
      WordsFromWord(w[1..], word + [w[0]], rest);
    } else {
      assert w + rest == rest && word + w == word;
    }
  }

  /** Joining words with spaces and splitting on whitespace gives the words back. */
  lemma {:induction false} SplitJoin(words: seq<string>)
    requires forall i :: 0 <= i < |words| ==> IsWord(words[i])
    ensures SplitWhitespace(JoinSpaces(words)) == words
  {
    if |words| == 1 {
      WordsFromWord(words[0], [], []);
      assert words[0] + [] == words[0];
    } else if |words| > 1 {
      var rest := [' '] + JoinSpaces(words[1..]);
      assert JoinSpaces(words) == words[0] + rest;
      WordsFromWord(words[0], [], rest);
      assert [] + words[0] == words[0];
      assert rest[1..] == JoinSpaces(words[1..]);
      SplitJoin(words[1..]);
    }
  }

  /** `split(sep)`: the pieces between separators, one more than there are separators; none holds `sep`. */
  function Split(s: string, sep: char): (r: seq<string>)
    ensures |r| >= 1
    ensures forall i :: 0 <= i < |r| ==> sep !in r[i]
  {
    if s == [] then [[]]
    else
      var rest := Split(s[1..], sep);
      if s[0] == sep then [[]] + rest else [[s[0]] + rest[0]] + rest[1..]
  }

  /** The pieces joined with `sep`. */
  function Join(pieces: seq<string>, sep: char): (s: string)
    requires |pieces| >= 1
  {
    if |pieces| == 1 then pieces[0] else pieces[0] + [sep] + Join(pieces[1..], sep)
  }

  /** Splitting and joining again gives the text back. */
  lemma {:induction false} JoinSplit(s: string, sep: char)
    ensures Join(Split(s, sep), sep) == s
  {
    if s != [] {
      var rest := Split(s[1..], sep);
      JoinSplit(s[1..], sep);
      if s[0] != sep {
        if |rest| > 1 {
          assert Join(rest, sep) == rest[0] + [sep] + Join(rest[1..], sep);
        }
      }
    }
  }

  /** Joining pieces that hold no separator and splitting again gives the pieces back. */
  lemma {:induction false} SplitJoinPieces(pieces: seq<string>, sep: char)
    requires |pieces| >= 1 && forall i :: 0 <= i < |pieces| ==> sep !in pieces[i]
    ensures Split(Join(pieces, sep), sep) == pieces
  {
    if |pieces| == 1 {
      SplitNoSep(pieces[0], sep);
    } else {
      SplitJoinPieces(pieces[1..], sep);
      SplitPrefix(pieces[0], Join(pieces[1..], sep), sep);
    }
  }

  /** Text without the separator is one piece. */
  lemma {:induction false} SplitNoSep(w: string, sep: char)
    requires sep !in w
    ensures Split(w, sep) == [w]
  {
    if w != [] {
      SplitNoSep(w[1..], sep);
      assert [w[0]] + w[1..] == w;
    }
  }

  /** A piece without the separator, the separator, and more text: the piece comes first. */
  lemma {:induction false} SplitPrefix(w: string, rest: string, sep: char)
    requires sep !in w
    ensures Split(w + [sep] + rest, sep) == [w] + Split(rest, sep)
  {
    if w == [] {
      assert w + [sep] + rest == [sep] + rest;
    } else {
      assert (w + [sep] + rest)[1..] == w[1..] + [sep] + rest;
      SplitPrefix(w[1..], rest, sep);
      assert [w[0]] + w[1..] == w;
    }
  }
}
