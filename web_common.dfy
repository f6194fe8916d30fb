// What the two web clients (`rust-mate-web` and `web-application`, each in
// its `src/Board/Board.tsx`) share: the FEN form's input handling, with
// JavaScript's `String.prototype.trim`, and the highlight classes their
// `togglePieceAvailableMoves` switches on and off on the board's cells.
module WebCommon {
  import MailboxBoard
  import opened Strings

  /** The FEN of the start position: both clients spell the engine's record. */
  const INITIAL_FEN: string := MailboxBoard.INITIAL_FEN

  /** Words joined with spaces start with the first word's first character and end with the last word's last one. */
  lemma {:induction false} JoinSpacesEnds(words: seq<string>)
    requires |words| >= 1 && forall i :: 0 <= i < |words| ==> |words[i]| > 0
    ensures |JoinSpaces(words)| > 0
    ensures JoinSpaces(words)[0] == words[0][0]
    ensures JoinSpaces(words)[|JoinSpaces(words)| - 1] == words[|words| - 1][|words[|words| - 1]| - 1]
  {
    if |words| > 1 {
      JoinSpacesEnds(words[1..]);
      var rest := JoinSpaces(words[1..]);
      assert JoinSpaces(words) == words[0] + [' '] + rest;
    }
  }

  /** The start position's record begins with Black's rook and ends with the move number 1. */
  lemma InitialFenEnds()
    ensures |INITIAL_FEN| > 0 && INITIAL_FEN[0] == 'r' && INITIAL_FEN[|INITIAL_FEN| - 1] == '1'
  {
    var ranks := MailboxBoard.INITIAL_RANKS;
    var first := Join(ranks, '/');
    assert first == ranks[0] + ['/'] + Join(ranks[1..], '/');
    assert ranks[0][0] == 'r';
    var fields := MailboxBoard.INITIAL_FIELDS;
    assert fields[5] == "1";
    JoinSpacesEnds(fields);
  }

  // ---------------------------------------------------------------- trim

  /** The characters `trim` removes: JavaScript's white space and line terminators. */
  predicate JsSpace(c: char)
  {
    c == '\t' || c == '\n' || c == '\U{B}' || c == '\U{C}' || c == '\r' || c == ' '
    || c == '\U{A0}' || c == '\U{1680}' || '\U{2000}' <= c <= '\U{200A}'
    || c == '\U{2028}' || c == '\U{2029}' || c == '\U{202F}' || c == '\U{205F}'
    || c == '\U{3000}' || c == '\U{FEFF}'
  }

  /** The number of white-space characters at the start of `s`. */
  function LeadingSpaces(s: string): (n: nat)
    ensures n <= |s|
    ensures forall k :: 0 <= k < n ==> JsSpace(s[k])
    ensures n < |s| ==> !JsSpace(s[n])
  {
    if |s| == 0 || !JsSpace(s[0]) then 0 else 1 + LeadingSpaces(s[1..])
  }

  /** The number of white-space characters at the end of `s`. */
  function TrailingSpaces(s: string): (n: nat)
    ensures n <= |s|
    ensures forall k :: |s| - n <= k < |s| ==> JsSpace(s[k])
    ensures n < |s| ==> !JsSpace(s[|s| - n - 1])
  {
    if |s| == 0 || !JsSpace(s[|s| - 1]) then 0 else 1 + TrailingSpaces(s[..|s| - 1])
  }

  /** `String.prototype.trim`: white space removed at both ends. */
  function Trim(s: string): (r: string)
  {
    var start := LeadingSpaces(s);
    var rest := s[start..];
    rest[..|rest| - TrailingSpaces(rest)]
  }

  /**
   * The trimmed text is a piece of the input that neither starts nor ends
   * with white space, and everything cut off on either side is white space.
   */
  lemma TrimCutsSpacesOnly(s: string) returns (start: nat, end: nat)
    ensures start <= end <= |s| && Trim(s) == s[start..end]
    ensures forall k :: 0 <= k < start ==> JsSpace(s[k])
    ensures forall k :: end <= k < |s| ==> JsSpace(s[k])
    ensures start < end ==> !JsSpace(s[start]) && !JsSpace(s[end - 1])
  {
    start := LeadingSpaces(s);
    var rest := s[start..];
    var trailing := TrailingSpaces(rest);
    end := |s| - trailing;
    assert rest[..|rest| - trailing] == s[start..end];
    forall k | end <= k < |s|
      ensures JsSpace(s[k])
    {
      assert s[k] == rest[k - start];
    }
    if start < end {
      assert s[end - 1] == rest[|rest| - trailing - 1];
    }
  }

  /** The trimmed text is blank exactly when the input is all white space. */
  lemma TrimBlankIffAllSpaces(s: string)
    ensures Trim(s) == "" <==> forall k :: 0 <= k < |s| ==> JsSpace(s[k])
  {
    var start, end := TrimCutsSpacesOnly(s);
    if start < end {
      assert !JsSpace(s[start]);
    }
  }

  /** Trimming twice trims nothing more. */
  lemma TrimIdempotent(s: string)
    ensures Trim(Trim(s)) == Trim(s)
  {
    var t := Trim(s);
    var start, end := TrimCutsSpacesOnly(s);
    assert LeadingSpaces(t) == 0;
    assert TrailingSpaces(t) == 0;
    assert t[0..] == t;
  }

  /**
   * The FEN the form posts (lines 159-163 and 220-223 of the two clients):
   * the trimmed input, or the start position when that is blank; no post at
   * all when the input element is missing.
   */
  function FenToLoad(input: string): (fen: string)
  {
    if Trim(input) != "" then Trim(input) else INITIAL_FEN
  }

  /**
   * The posted FEN is never blank and never has white space at either end;
   * it is the start position exactly when the input is all white space, or
   * the input itself.
   */
  lemma FenToLoadNeverBlank(input: string)
    ensures |FenToLoad(input)| > 0
    ensures !JsSpace(FenToLoad(input)[0]) && !JsSpace(FenToLoad(input)[|FenToLoad(input)| - 1])
    ensures (forall k :: 0 <= k < |input| ==> JsSpace(input[k])) ==> FenToLoad(input) == INITIAL_FEN
    ensures (exists k :: 0 <= k < |input| && !JsSpace(input[k])) ==> FenToLoad(input) == Trim(input)
  {
    TrimBlankIffAllSpaces(input);
    if Trim(input) == "" {
      InitialFenNotBlank();
    } else {
      var start, end := TrimCutsSpacesOnly(input);
    }
  }

  /** The start position's record has no white space at either end. */
  lemma InitialFenNotBlank()
    ensures |INITIAL_FEN| > 0 && !JsSpace(INITIAL_FEN[0]) && !JsSpace(INITIAL_FEN[|INITIAL_FEN| - 1])
  {
    InitialFenEnds();
  }

  // ---------------------------------------------------------------- highlights

  /** The classes `togglePieceAvailableMoves` switches: on a cell, or on the piece button inside it. */
  datatype CssClass = CaptureReceptor | EmptyReceptor | Disabled

  /** A class on the cell (or its button) at a board position. */
  type Mark = (int, CssClass)

  /** `classList.toggle`: present classes are removed, absent ones added. */
  function Toggle(marks: set<Mark>, m: Mark): (r: set<Mark>)
    ensures m in r <==> m !in marks
    ensures forall n :: n != m ==> (n in r <==> n in marks)
  {
    if m in marks then marks - {m} else marks + {m}
  }

  /** The classes after toggling each of `items` in order. */
  function ToggleAll(marks: set<Mark>, items: seq<Mark>): (r: set<Mark>)
  {
    if |items| == 0 then marks else Toggle(ToggleAll(marks, items[..|items| - 1]), items[|items| - 1])
  }

  /** Toggling leaves every mark not named among the items as it was. */
  lemma {:induction false} ToggleAllElsewhere(marks: set<Mark>, items: seq<Mark>, n: Mark)
    requires n !in items
    ensures n in ToggleAll(marks, items) <==> n in marks
  {
    if |items| > 0 {
      ToggleAllElsewhere(marks, items[..|items| - 1], n);
    }
  }

  /** Two toggles commute. */
  lemma ToggleCommutes(marks: set<Mark>, a: Mark, b: Mark)
    ensures Toggle(Toggle(marks, a), b) == Toggle(Toggle(marks, b), a)
  {
  }

  /** A toggle made first can be made last instead. */
  lemma {:induction false} ToggleFirstOrLast(marks: set<Mark>, m: Mark, items: seq<Mark>)
    ensures ToggleAll(Toggle(marks, m), items) == Toggle(ToggleAll(marks, items), m)
  {
    if |items| > 0 {
      var init, last := items[..|items| - 1], items[|items| - 1];
      ToggleFirstOrLast(marks, m, init);
      ToggleCommutes(ToggleAll(marks, init), m, last);
    }
  }

  /** Toggling the same items twice restores the classes: the highlight switch is an involution. */
  lemma {:induction false} ToggleAllTwice(marks: set<Mark>, items: seq<Mark>)
    ensures ToggleAll(ToggleAll(marks, items), items) == marks
  {
    if |items| > 0 {
      var init, last := items[..|items| - 1], items[|items| - 1];
      var once := ToggleAll(marks, init);
      ToggleFirstOrLast(Toggle(once, last), last, init);
      ToggleFirstOrLast(once, last, init);
      ToggleAllTwice(marks, init);
      assert Toggle(Toggle(ToggleAll(once, init), last), last) == ToggleAll(once, init);
    }
  }
}
