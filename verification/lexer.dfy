/** The scanner (`Lexer.cpp`): turns source text into tokens carrying their
    line and column. The lexer object's mutable state (`position`, `line`,
    `column`) is the `Cursor` value threaded through every function; each
    `while` loop of the C++ is a function recursive on the cursor. */
module Lexer {
  import opened Common
  import opened Ascii
  import opened Tokens

  /** `position`, `line`, `column`. */
  datatype Cursor = Cursor(pos: nat, line: int, column: int)

  /** The state the constructor sets up. */
  const Start: Cursor := Cursor(0, 1, 1)

  /** What a scanning function hands back: the token, the position of its
      first character, and the cursor after it. */
  datatype Scan = Scan(tok: Token, start: nat, next: Cursor)

  /** `currentChar`: NUL past the end (and, as in C++, for a NUL in the text). */
  function CurrentChar(src: string, c: Cursor): char {
    if c.pos >= |src| then '\0' else src[c.pos]
  }

  /** `peekChar()`, with its default offset taken as 1: the character after the cursor. */
  function PeekChar(src: string, c: Cursor): char {
    if c.pos + 1 >= |src| then '\0' else src[c.pos + 1]
  }

  /** `isAtEnd`. */
  predicate AtEnd(src: string, c: Cursor) {
    c.pos >= |src|
  }

  // ---------------------------------------------------------------------
  // Reference positions: line and column of every offset, read off the text.

  /** 1 + the number of newlines before offset `p`. */
  function LineAt(src: string, p: nat): int
    requires p <= |src|
  {
    if p == 0 then 1 else LineAt(src, p - 1) + (if src[p - 1] == '\n' then 1 else 0)
  }

  /** 1 + the number of characters between the last newline before `p` and `p`. */
  function ColumnAt(src: string, p: nat): int
    requires p <= |src|
  {
    if p == 0 then 1 else if src[p - 1] == '\n' then 1 else ColumnAt(src, p - 1) + 1
  }

  /** The cursor's line and column agree with its offset. */
  ghost predicate WellPositioned(src: string, c: Cursor) {
    c.pos <= |src| && c.line == LineAt(src, c.pos) && c.column == ColumnAt(src, c.pos)
  }

  // ---------------------------------------------------------------------
  // Moving the cursor

  /** `advance`: one character forward; a newline starts the next line at
      column 1, anything else moves one column right; nothing happens at the end. */
  function Advance(src: string, c: Cursor): (r: Cursor)
    requires c.pos <= |src|
    ensures r.pos <= |src|
    ensures c.pos < |src| ==> r.pos == c.pos + 1
    ensures c.pos < |src| && src[c.pos] == '\n' ==> r.line == c.line + 1 && r.column == 1
    ensures c.pos < |src| && src[c.pos] != '\n' ==> r.line == c.line && r.column == c.column + 1
    ensures c.pos == |src| ==> r == c
    ensures WellPositioned(src, c) ==> WellPositioned(src, r)
  {
    if c.pos < |src| then
      if CurrentChar(src, c) == '\n' then Cursor(c.pos + 1, c.line + 1, 1)
      else Cursor(c.pos + 1, c.line, c.column + 1)
    else c
  }

  /** `skipWhitespace`: stops on the first non-blank character. */
  function SkipWhitespace(src: string, c: Cursor): (r: Cursor)
    requires c.pos <= |src|
    ensures c.pos <= r.pos <= |src|
    ensures forall i :: c.pos <= i < r.pos ==> IsSpace(src[i])
    ensures !IsSpace(CurrentChar(src, r))
    ensures WellPositioned(src, c) ==> WellPositioned(src, r)
    decreases |src| - c.pos
  {
    if IsSpace(CurrentChar(src, c)) then SkipWhitespace(src, Advance(src, c)) else c
  }

  /** `skipLineComment`: stops on the newline (left unconsumed), a NUL or the end. */
  function SkipLineComment(src: string, c: Cursor): (r: Cursor)
    requires c.pos <= |src|
    ensures c.pos <= r.pos <= |src|
    ensures forall i :: c.pos <= i < r.pos ==> src[i] != '\n' && src[i] != '\0'
    ensures CurrentChar(src, r) == '\n' || CurrentChar(src, r) == '\0'
    ensures CurrentChar(src, c) != '\n' && CurrentChar(src, c) != '\0' ==> r.pos > c.pos
    ensures WellPositioned(src, c) ==> WellPositioned(src, r)
    decreases |src| - c.pos
  {
    if CurrentChar(src, c) != '\n' && CurrentChar(src, c) != '\0' then
      SkipLineComment(src, Advance(src, c))
    else c
  }

  /** Where a block comment's body that begins at offset `b` ends: just past
      the first star-slash at or after `b`, or, when a NUL or the end of the
      input comes first, at that NUL or at the end. */
  predicate BlockBodyEnds(src: string, b: nat, k: nat) {
    && b <= k <= |src|
    && ((&& b + 2 <= k && src[k - 2] == '*' && src[k - 1] == '/'
         && forall m :: b <= m < k - 2 ==> src[m] != '\0' && !(src[m] == '*' && src[m + 1] == '/'))
        || (&& (k == |src| || src[k] == '\0')
            && forall m :: b <= m < k ==> src[m] != '\0' && !(m + 1 < k && src[m] == '*' && src[m + 1] == '/')))
  }

  /** A comment body has one end only. */
  lemma BlockBodyEndsUnique(src: string, b: nat, k1: nat, k2: nat)
    requires BlockBodyEnds(src, b, k1) && BlockBodyEnds(src, b, k2)
    ensures k1 == k2
  {
  }

  /** The loop of `skipBlockComment`: runs up to and including the first
      closing star-slash, or up to a NUL or the end when there is none. */
  function BlockCommentBody(src: string, c: Cursor): (r: Cursor)
    requires c.pos <= |src|
    ensures BlockBodyEnds(src, c.pos, r.pos)
    ensures WellPositioned(src, c) ==> WellPositioned(src, r)
    decreases |src| - c.pos
  {
    if CurrentChar(src, c) == '\0' then c
    else if CurrentChar(src, c) == '*' && PeekChar(src, c) == '/' then
      Advance(src, Advance(src, c))
    else BlockCommentBody(src, Advance(src, c))
  }

  /** `skipBlockComment`: steps over the opening slash-star, then over the
      body, ending just past the first star-slash after the opening or at
      the first NUL or the end. */
  function SkipBlockComment(src: string, c: Cursor): (r: Cursor)
    requires c.pos < |src|
    ensures c.pos < r.pos <= |src|
    ensures BlockBodyEnds(src, if c.pos + 2 <= |src| then c.pos + 2 else |src|, r.pos)
    ensures WellPositioned(src, c) ==> WellPositioned(src, r)
  {
    BlockCommentBody(src, Advance(src, Advance(src, c)))
  }

  // ---------------------------------------------------------------------
  // Numbers

  /** Taking one character and then the rest of a slice takes the slice. */
  lemma SliceCons(src: string, p: nat, e: nat, acc: string)
    requires p < e <= |src|
    ensures acc + [src[p]] + src[p + 1..e] == acc + src[p..e]
  {
    assert [src[p]] + src[p + 1..e] == src[p..e];
  }

  /** Every character is a digit or a `.`. */
  predicate NumberChars(s: string) {
    forall i :: 0 <= i < |s| ==> IsDigit(s[i]) || s[i] == '.'
  }

  /** No two `.` in `s`. */
  predicate AtMostOneDot(s: string) {
    forall i, j :: 0 <= i < j < |s| && s[i] == '.' ==> s[j] != '.'
  }

  /** Appending a digit, or a first `.`, keeps a number's text well formed. */
  lemma NumberTextSnoc(acc: string, ch: char)
    requires NumberChars(acc) && AtMostOneDot(acc)
    requires IsDigit(ch) || (ch == '.' && '.' !in acc)
    ensures NumberChars(acc + [ch]) && AtMostOneDot(acc + [ch])
  {
    var s := acc + [ch];
    forall i, j | 0 <= i < j < |s| && s[i] == '.' ensures s[j] != '.' {
      if j == |acc| {
        assert acc[i] == '.';
      }
    }
  }

  /** The loop of `readNumber`: digits, plus the first `.` met; `hasDecimal`
      records whether a `.` was taken already. */
  function NumberLoop(src: string, c: Cursor, hasDecimal: bool, acc: string): (r: (string, Cursor))
    requires c.pos <= |src|
    requires NumberChars(acc) && AtMostOneDot(acc) && (hasDecimal <==> '.' in acc)
    ensures c.pos <= r.1.pos <= |src|
    ensures r.0 == acc + src[c.pos..r.1.pos]
    ensures NumberChars(r.0) && AtMostOneDot(r.0)
    ensures !IsDigit(CurrentChar(src, r.1))
    ensures CurrentChar(src, r.1) == '.' ==> '.' in r.0
    ensures WellPositioned(src, c) ==> WellPositioned(src, r.1)
    decreases |src| - c.pos
  {
    var ch := CurrentChar(src, c);
    if IsDigit(ch) || (ch == '.' && !hasDecimal) then
      NumberTextSnoc(acc, ch);
      var r := NumberLoop(src, Advance(src, c), hasDecimal || ch == '.', acc + [ch]);
      SliceCons(src, c.pos, r.1.pos, acc);
      r
    else
      (acc, c)
  }

  /** `readNumber`: a maximal run of digits with at most one `.` among them;
      the text is kept as written. */
  function ReadNumber(src: string, c: Cursor): (r: Scan)
    requires c.pos <= |src|
    ensures r.tok.kind == NUMBER && r.start == c.pos
    ensures r.tok.line == c.line && r.tok.column == c.column
    ensures c.pos <= r.next.pos <= |src|
    ensures r.tok.value == src[c.pos..r.next.pos]
    ensures NumberChars(r.tok.value) && AtMostOneDot(r.tok.value)
    ensures IsDigit(CurrentChar(src, c)) ==> |r.tok.value| > 0 && r.tok.value[0] == src[c.pos]
    ensures !IsDigit(CurrentChar(src, r.next))
    ensures CurrentChar(src, r.next) == '.' ==> '.' in r.tok.value
    ensures WellPositioned(src, c) ==> WellPositioned(src, r.next)
  {
    var loop := NumberLoop(src, c, false, "");
    Scan(Token(NUMBER, loop.0, c.line, c.column), c.pos, loop.1)
  }

  // ---------------------------------------------------------------------
  // Strings

  /** The character an escape `\e` stands for: `n`, `t`, `r` give newline,
      tab and carriage return; `\\`, `\"` and every other character stand
      for themselves. */
  function EscapedChar(e: char): char {
    match e
    case 'n' => '\n'
    case 't' => '\t'
    case 'r' => '\r'
    case '\\' => '\\'
    case '"' => '"'
    case _ => e
  }

  /** The loop of `readString`: up to the closing quote, a NUL or the end. */
  function StringLoop(src: string, c: Cursor, acc: string): (r: (string, Cursor))
    requires c.pos <= |src|
    ensures c.pos <= r.1.pos <= |src|
    ensures CurrentChar(src, r.1) == '"' || CurrentChar(src, r.1) == '\0'
    ensures |acc| <= |r.0| && r.0[..|acc|] == acc
    ensures WellPositioned(src, c) ==> WellPositioned(src, r.1)
    decreases |src| - c.pos
  {
    var ch := CurrentChar(src, c);
    if ch == '"' || ch == '\0' then (acc, c)
    else if ch == '\\' then
      var c1 := Advance(src, c);
      var r := StringLoop(src, Advance(src, c1), acc + [EscapedChar(CurrentChar(src, c1))]);
      assert (acc + [EscapedChar(CurrentChar(src, c1))])[..|acc|] == acc;
      r
    else
      var r := StringLoop(src, Advance(src, c), acc + [ch]);
      assert (acc + [ch])[..|acc|] == acc;
      r
  }

  /** The value `readString` decodes from a literal's body: `\e` stands for
      `EscapedChar(e)`, so every escape other than the five named ones gives
      its character literally; a backslash that ends the input gives a NUL,
      the character `currentChar` reports there; every other character
      stands for itself. */
  function Unescape(body: string): string
    decreases |body|
  {
    if body == [] then ""
    else if body[0] == '\\' then
      if |body| == 1 then "\0" else [EscapedChar(body[1])] + Unescape(body[2..])
    else [body[0]] + Unescape(body[1..])
  }

  /** `body` is text the decoding loop reads without stopping: backslash
      pairs and characters other than quote, NUL and backslash. A lone final
      backslash is allowed only where the input ends (`atEnd`). */
  predicate LiteralBody(body: string, atEnd: bool)
    decreases |body|
  {
    if body == [] then true
    else if body[0] == '\\' then
      if |body| == 1 then atEnd else LiteralBody(body[2..], atEnd)
    else body[0] != '"' && body[0] != '\0' && LiteralBody(body[1..], atEnd)
  }

  /** A literal body starting at offset `b` ends at offset `e`: the text in
      between is a body, and at `e` the input ends or an unescaped quote or
      NUL stands. */
  predicate LiteralEndsAt(src: string, b: nat, e: nat) {
    && b <= e <= |src|
    && LiteralBody(src[b..e], e == |src|)
    && (e == |src| || src[e] == '"' || src[e] == '\0')
  }

  /** Reading a literal whose body starts at `b` and ends at `e` gives
      `value`, what the body stands for, and leaves the cursor at `next`, past
      the closing quote if one stands at `e`. */
  predicate LiteralReadEndingAt(src: string, b: nat, value: string, next: nat, e: nat) {
    && LiteralEndsAt(src, b, e)
    && value == Unescape(src[b..e])
    && next == (if e < |src| && src[e] == '"' then e + 1 else e)
  }

  /** Reading the literal whose body starts at `b` gives `value` and leaves
      the cursor at `next`. */
  ghost predicate LiteralRead(src: string, b: nat, value: string, next: nat) {
    exists e: nat :: LiteralReadEndingAt(src, b, value, next, e)
  }

  /** A literal body has only one end. */
  lemma {:induction false} LiteralEndsUnique(src: string, b: nat, e1: nat, e2: nat)
    requires LiteralEndsAt(src, b, e1) && LiteralEndsAt(src, b, e2)
    ensures e1 == e2
    decreases |src| - b
  {
    if b < e1 && b < e2 {
      assert src[b..e1][0] == src[b] && src[b..e2][0] == src[b];
      if src[b] == '\\' {
        if b + 1 < e1 && b + 1 < e2 {
          assert src[b..e1][2..] == src[b + 2..e1];
          assert src[b..e2][2..] == src[b + 2..e2];
          LiteralEndsUnique(src, b + 2, e1, e2);
        }
      } else {
        assert src[b..e1][1..] == src[b + 1..e1];
        assert src[b..e2][1..] == src[b + 1..e2];
        LiteralEndsUnique(src, b + 1, e1, e2);
      }
    }
  }

  /** The decoding loop reads a literal body up to its end and appends what
      that body stands for. */
  lemma {:induction false} StringLoopDecodes(src: string, c: Cursor, acc: string)
    requires c.pos <= |src|
    ensures LiteralEndsAt(src, c.pos, StringLoop(src, c, acc).1.pos)
    ensures StringLoop(src, c, acc).0 == acc + Unescape(src[c.pos..StringLoop(src, c, acc).1.pos])
    decreases |src| - c.pos
  {
    var ch := CurrentChar(src, c);
    var e := StringLoop(src, c, acc).1.pos;
    if ch == '"' || ch == '\0' {
      assert src[c.pos..c.pos] == [];
    } else if ch == '\\' {
      var c1 := Advance(src, c);
      var x := EscapedChar(CurrentChar(src, c1));
      var c2 := Advance(src, c1);
      StringLoopDecodes(src, c2, acc + [x]);
      var body := src[c.pos..e];
      assert body[0] == '\\';
      if c.pos + 1 == |src| {
        assert body == "\\";
      } else {
        assert body[1] == src[c.pos + 1];
        assert body[2..] == src[c2.pos..e];
      }
    } else {
      var c1 := Advance(src, c);
      StringLoopDecodes(src, c1, acc + [ch]);
      var body := src[c.pos..e];
      assert body[0] == ch;
      assert body[1..] == src[c1.pos..e];
    }
  }

  /** `readString`: skips the opening quote, decodes up to the closing quote
      and consumes that quote if there is one. A missing closing quote is not
      an error: the token simply ends where the input (or a NUL) does. */
  function ReadString(src: string, c: Cursor): (r: Scan)
    requires c.pos <= |src|
    ensures r.tok.kind == STRING && r.start == c.pos
    ensures r.tok.line == c.line && r.tok.column == c.column
    ensures c.pos <= r.next.pos <= |src|
    ensures c.pos < |src| ==> c.pos < r.next.pos
    ensures c.pos < |src| ==> LiteralRead(src, c.pos + 1, r.tok.value, r.next.pos)
    ensures WellPositioned(src, c) ==> WellPositioned(src, r.next)
  {
    var c1 := Advance(src, c);
    var body := StringLoop(src, c1, "");
    var next := if CurrentChar(src, body.1) == '"' then Advance(src, body.1) else body.1;
    StringLoopDecodes(src, c1, "");
    assert c.pos < |src| ==> LiteralReadEndingAt(src, c.pos + 1, body.0, next.pos, body.1.pos);
    Scan(Token(STRING, body.0, c.line, c.column), c.pos, next)
  }

  /** How a character is written inside a string literal so that `readString`
      gives it back: the five escapes, every other character as itself. */
  function EscapeChar(ch: char): (r: string)
    ensures |r| == 1 || |r| == 2
    ensures |r| == 2 ==> r[0] == '\\' && EscapedChar(r[1]) == ch
    ensures |r| == 1 ==> r == [ch] && ch != '"' && ch != '\\'
  {
    match ch
    case '\n' => "\\n"
    case '\t' => "\\t"
    case '\r' => "\\r"
    case '\\' => "\\\\"
    case '"' => "\\\""
    case _ => [ch]
  }

  /** A string's body written with `EscapeChar` throughout. */
  function Escape(v: string): (r: string)
    ensures |r| >= |v|
    ensures v == [] <==> r == []
  {
    if v == [] then "" else EscapeChar(v[0]) + Escape(v[1..])
  }

  /** `w` occurs in `src` starting at offset `p`. */
  predicate OccursAt(src: string, p: nat, w: string) {
    p + |w| <= |src| && src[p..p + |w|] == w
  }

  /** An occurrence of `a + b` is an occurrence of `a` followed by one of `b`. */
  lemma OccursAtSplit(src: string, p: nat, a: string, b: string)
    requires OccursAt(src, p, a + b)
    ensures OccursAt(src, p, a) && OccursAt(src, p + |a|, b)
  {
    assert src[p..p + |a|] == (a + b)[..|a|];
    assert src[p + |a|..p + |a| + |b|] == (a + b)[|a|..];
  }

  /** The first character of an occurrence. */
  lemma OccursAtHead(src: string, p: nat, w: string)
    requires OccursAt(src, p, w) && w != []
    ensures src[p] == w[0]
  {
    assert src[p..p + |w|][0] == w[0];
  }

  /** Wherever the literal starting at `c` ends, `readString` gives what
      the body up to there stands for and stops there, or just past the
      quote that stands there. */
  lemma ReadStringEndsAt(src: string, c: Cursor, e: nat)
    requires c.pos < |src| && LiteralEndsAt(src, c.pos + 1, e)
    ensures ReadString(src, c).tok.value == Unescape(src[c.pos + 1..e])
    ensures ReadString(src, c).next.pos == (if e < |src| && src[e] == '"' then e + 1 else e)
  {
    var r := ReadString(src, c);
    var e': nat :| LiteralReadEndingAt(src, c.pos + 1, r.tok.value, r.next.pos, e');
    LiteralEndsUnique(src, c.pos + 1, e, e');
  }

  /** Round trip: a literal written as `"` + `Escape(v)` + `"` scans to a
      `STRING` token whose value is `v`, and the scan ends right after the
      closing quote. */
  lemma ReadStringOfEscape(src: string, c: Cursor, v: string)
    requires OccursAt(src, c.pos, "\"" + Escape(v) + "\"")
    requires '\0' !in v
    ensures ReadString(src, c).tok.value == v
    ensures ReadString(src, c).next.pos == c.pos + |Escape(v)| + 2
  {
    var w := Escape(v);
    var e := c.pos + 1 + |w|;
    QuotedText(src, c.pos, w);
    EscapeIsLiteralBody(v, e == |src|);
    UnescapeEscape(v);
    assert LiteralEndsAt(src, c.pos + 1, e);
    ReadStringEndsAt(src, c, e);
  }

  /** The text between the quotes of an occurrence of `"` + `w` + `"`. */
  lemma QuotedText(src: string, p: nat, w: string)
    requires OccursAt(src, p, "\"" + w + "\"")
    ensures p + |w| + 1 < |src| && src[p + 1..p + 1 + |w|] == w && src[p + 1 + |w|] == '"'
  {
    assert "\"" + w + "\"" == "\"" + (w + "\"");
    OccursAtSplit(src, p, "\"", w + "\"");
    OccursAtSplit(src, p + 1, w, "\"");
    OccursAtHead(src, p + 1 + |w|, "\"");
  }

  /** An unterminated literal is accepted silently: when the rest of the
      input is a body with no closing quote or NUL, the token's value is
      what that rest stands for and the cursor ends at the end. */
  lemma UnterminatedStringRunsToEnd(src: string, c: Cursor)
    requires c.pos < |src| && src[c.pos] == '"'
    requires LiteralBody(src[c.pos + 1..], true)
    ensures ReadString(src, c).tok.value == Unescape(src[c.pos + 1..])
    ensures ReadString(src, c).next.pos == |src|
  {
    assert src[c.pos + 1..] == src[c.pos + 1..|src|];
    ReadStringEndsAt(src, c, |src|);
  }

  /** Decoding undoes escaping: `Escape` writes every value as a body that
      `Unescape` reads back. */
  lemma {:induction false} UnescapeEscape(v: string)
    ensures Unescape(Escape(v)) == v
    decreases |v|
  {
    if v != [] {
      var e := EscapeChar(v[0]);
      UnescapeEscape(v[1..]);
      var w := e + Escape(v[1..]);
      if |e| == 2 {
        assert w[0] == '\\' && w[1] == e[1] && w[2..] == Escape(v[1..]);
      } else {
        assert w[0] == v[0] && w[1..] == Escape(v[1..]);
      }
    }
  }

  /** Written without NUL, an escaped value is a body the loop reads in one go. */
  lemma {:induction false} EscapeIsLiteralBody(v: string, atEnd: bool)
    requires '\0' !in v
    ensures LiteralBody(Escape(v), atEnd)
    decreases |v|
  {
    if v != [] {
      var e := EscapeChar(v[0]);
      assert v[0] in v;
      assert '\0' !in v[1..] by {
        forall i | 0 <= i < |v[1..]| ensures v[1..][i] != '\0' {
          assert v[1..][i] in v;
        }
      }
      EscapeIsLiteralBody(v[1..], atEnd);
      var w := e + Escape(v[1..]);
      if |e| == 2 {
        assert w[0] == '\\' && w[2..] == Escape(v[1..]);
      } else {
        assert w[0] == v[0] && w[1..] == Escape(v[1..]);
      }
    }
  }

  // ---------------------------------------------------------------------
  // Identifiers and keywords

  /** The loop of `readIdentifier`. */
  function IdentLoop(src: string, c: Cursor, acc: string): (r: (string, Cursor))
    requires c.pos <= |src|
    ensures c.pos <= r.1.pos <= |src|
    ensures r.0 == acc + src[c.pos..r.1.pos]
    ensures forall i :: c.pos <= i < r.1.pos ==> IsIdentChar(src[i])
    ensures !IsIdentChar(CurrentChar(src, r.1))
    ensures WellPositioned(src, c) ==> WellPositioned(src, r.1)
    decreases |src| - c.pos
  {
    var ch := CurrentChar(src, c);
    if IsIdentChar(ch) then
      var r := IdentLoop(src, Advance(src, c), acc + [ch]);
      SliceCons(src, c.pos, r.1.pos, acc);
      r
    else (acc, c)
  }

  /** `readIdentifier`: a maximal run of letters, digits and underscores; its
      kind is the keyword's when the text is in the table, else `IDENTIFIER`. */
  function ReadIdentifier(src: string, c: Cursor): (r: Scan)
    requires c.pos <= |src|
    ensures r.start == c.pos && r.tok.line == c.line && r.tok.column == c.column
    ensures c.pos <= r.next.pos <= |src|
    ensures r.tok.value == src[c.pos..r.next.pos]
    ensures forall i :: 0 <= i < |r.tok.value| ==> IsIdentChar(r.tok.value[i])
    ensures !IsIdentChar(CurrentChar(src, r.next))
    ensures IsIdentStart(CurrentChar(src, c)) ==> |r.tok.value| > 0 && r.tok.value[0] == src[c.pos]
    ensures IsKeyword(r.tok.value) ==> r.tok.kind == Keywords[r.tok.value]
    ensures !IsKeyword(r.tok.value) ==> r.tok.kind == IDENTIFIER
    ensures r.tok.kind == IDENTIFIER || IsKeywordKind(r.tok.kind)
    ensures WellPositioned(src, c) ==> WellPositioned(src, r.next)
  {
    var loop := IdentLoop(src, c, "");
    var kind := if IsKeyword(loop.0) then GetKeywordType(loop.0) else IDENTIFIER;
    Scan(Token(kind, loop.0, c.line, c.column), c.pos, loop.1)
  }

  // ---------------------------------------------------------------------
  // Operators and punctuation

  /** The outcome of the `readOperator` switch: kind, text and width. */
  datatype OpScan = OpScan(kind: TokenType, text: string, width: nat)

  /** The `readOperator` switch on the current character `ch` and the one
      after it, `nx`: the doubled or `=`-suffixed form wins when present, a
      lone `&` or `|` and any unlisted character is `INVALID`. */
  function ScanOperator(ch: char, nx: char): (r: OpScan)
    ensures r.width == 1 || r.width == 2
    ensures r.kind == INVALID ==> r.width == 1
    ensures r.width == 1 ==> r.text == [ch]
    ensures r.width == 2 ==> r.text == [ch, nx] && nx != '\0'
    ensures (ch == '&' || ch == '|') && nx != ch ==> r.kind == INVALID
  {
    match ch
    case '+' => OpScan(PLUS, "+", 1)
    case '-' => OpScan(MINUS, "-", 1)
    case '*' => OpScan(MULTIPLY, "*", 1)
    case '/' => OpScan(DIVIDE, "/", 1)
    case '%' => OpScan(MODULO, "%", 1)
    case '(' => OpScan(LEFT_PAREN, "(", 1)
    case ')' => OpScan(RIGHT_PAREN, ")", 1)
    case '{' => OpScan(LEFT_BRACE, "{", 1)
    case '}' => OpScan(RIGHT_BRACE, "}", 1)
    case '[' => OpScan(LEFT_BRACKET, "[", 1)
    case ']' => OpScan(RIGHT_BRACKET, "]", 1)
    case ';' => OpScan(SEMICOLON, ";", 1)
    case ',' => OpScan(COMMA, ",", 1)
    case '.' => OpScan(DOT, ".", 1)
    case '=' => if nx == '=' then OpScan(EQUAL, "==", 2) else OpScan(ASSIGN, "=", 1)
    case '!' => if nx == '=' then OpScan(NOT_EQUAL, "!=", 2) else OpScan(NOT, "!", 1)
    case '<' => if nx == '=' then OpScan(LESS_EQUAL, "<=", 2) else OpScan(LESS, "<", 1)
    case '>' => if nx == '=' then OpScan(GREATER_EQUAL, ">=", 2) else OpScan(GREATER, ">", 1)
    case '&' => if nx == '&' then OpScan(AND, "&&", 2) else OpScan(INVALID, [ch], 1)
    case '|' => if nx == '|' then OpScan(OR, "||", 2) else OpScan(INVALID, [ch], 1)
    case ':' => if nx == ':' then OpScan(NAMESPACE_SEP, "::", 2) else OpScan(COLON, ":", 1)
    case _ => OpScan(INVALID, [ch], 1)
  }

  /** Every kind the switch recognises is an operator or punctuation kind,
      and its text is what `TokenInfo::toString` renders for it. */
  lemma ScanOperatorRendersKind(ch: char, nx: char)
    ensures var r := ScanOperator(ch, nx);
      r.kind != INVALID ==> IsOperatorKind(r.kind) && r.text == TokenName(r.kind)
  {
    if ch == '+' || ch == '-' {
      AdditiveRendersKind(ch, nx);
    } else if ch == '*' || ch == '/' || ch == '%' {
      MultiplicativeRendersKind(ch, nx);
    } else if ch == '(' || ch == ')' || ch == '{' {
      ParenRendersKind(ch, nx);
    } else if ch == '}' || ch == '[' || ch == ']' {
      BracketRendersKind(ch, nx);
    } else if ch == ';' || ch == ',' || ch == '.' {
      SeparatorRendersKind(ch, nx);
    } else if ch == '=' || ch == '!' {
      EqualityRendersKind(ch, nx);
    } else if ch == '<' || ch == '>' {
      OrderRendersKind(ch, nx);
    } else if ch == '&' || ch == '|' || ch == ':' {
      LogicalRendersKind(ch, nx);
    }
  }

  /** `ScanOperatorRendersKind` for `+` `-`. */
  lemma AdditiveRendersKind(ch: char, nx: char)
    requires ch == '+' || ch == '-'
    ensures var r := ScanOperator(ch, nx);
      r.kind != INVALID ==> IsOperatorKind(r.kind) && r.text == TokenName(r.kind)
  {
  }

  /** `ScanOperatorRendersKind` for `*` `/` `%`. */
  lemma MultiplicativeRendersKind(ch: char, nx: char)
    requires ch == '*' || ch == '/' || ch == '%'
    ensures var r := ScanOperator(ch, nx);
      r.kind != INVALID ==> IsOperatorKind(r.kind) && r.text == TokenName(r.kind)
  {
  }

  /** `ScanOperatorRendersKind` for `(` `)` `{`. */
  lemma ParenRendersKind(ch: char, nx: char)
    requires ch == '(' || ch == ')' || ch == '{'
    ensures var r := ScanOperator(ch, nx);
      r.kind != INVALID ==> IsOperatorKind(r.kind) && r.text == TokenName(r.kind)
  {
  }

  /** `ScanOperatorRendersKind` for `}` `[` `]`. */
  lemma BracketRendersKind(ch: char, nx: char)
    requires ch == '}' || ch == '[' || ch == ']'
    ensures var r := ScanOperator(ch, nx);
      r.kind != INVALID ==> IsOperatorKind(r.kind) && r.text == TokenName(r.kind)
  {
  }

  /** `ScanOperatorRendersKind` for `;` `,` `.`. */
  lemma SeparatorRendersKind(ch: char, nx: char)
    requires ch == ';' || ch == ',' || ch == '.'
    ensures var r := ScanOperator(ch, nx);
      r.kind != INVALID ==> IsOperatorKind(r.kind) && r.text == TokenName(r.kind)
  {
  }

  /** `ScanOperatorRendersKind` for `=` `!`. */
  lemma EqualityRendersKind(ch: char, nx: char)
    requires ch == '=' || ch == '!'
    ensures var r := ScanOperator(ch, nx);
      r.kind != INVALID ==> IsOperatorKind(r.kind) && r.text == TokenName(r.kind)
  {
  }

  /** `ScanOperatorRendersKind` for `<` `>`. */
  lemma OrderRendersKind(ch: char, nx: char)
    requires ch == '<' || ch == '>'
    ensures var r := ScanOperator(ch, nx);
      r.kind != INVALID ==> IsOperatorKind(r.kind) && r.text == TokenName(r.kind)
  {
  }

  /** `ScanOperatorRendersKind` for `&` `|` `:`. */
  lemma LogicalRendersKind(ch: char, nx: char)
    requires ch == '&' || ch == '|' || ch == ':'
    ensures var r := ScanOperator(ch, nx);
      r.kind != INVALID ==> IsOperatorKind(r.kind) && r.text == TokenName(r.kind)
  {
  }

  /** `readOperator`. Every token it makes consumes exactly its own text; a
      recognised one's text is what `TokenInfo::toString` renders for its
      kind, and anything else (a lone `&` or `|` included) is `INVALID`
      with the one character as text. */
  function ReadOperator(src: string, c: Cursor): (r: Scan)
    requires c.pos <= |src|
    ensures r.start == c.pos && r.tok.line == c.line && r.tok.column == c.column
    ensures r.tok.kind != INVALID ==> IsOperatorKind(r.tok.kind) && r.tok.value == TokenName(r.tok.kind)
    ensures r.tok.kind == INVALID ==> r.tok.value == [CurrentChar(src, c)]
    ensures |r.tok.value| > 0 && r.tok.value[0] == CurrentChar(src, c)
    ensures c.pos <= r.next.pos <= |src|
    ensures c.pos < |src| ==> r.next.pos == c.pos + |r.tok.value| && src[c.pos..r.next.pos] == r.tok.value
    ensures c.pos + 1 < |src| && (src[c.pos] == '&' || src[c.pos] == '|') && src[c.pos + 1] != src[c.pos]
            ==> r.tok.kind == INVALID
    ensures WellPositioned(src, c) ==> WellPositioned(src, r.next)
  {
    var ch := CurrentChar(src, c);
    var c1 := Advance(src, c);
    var op := ScanOperator(ch, CurrentChar(src, c1));
    ScanOperatorRendersKind(ch, CurrentChar(src, c1));
    var next := if op.width == 2 then Advance(src, c1) else c1;
    assert c.pos < |src| ==> src[c.pos..next.pos] == op.text by {
      if c.pos < |src| {
        if op.width == 2 {
          assert c1.pos < |src|;
          assert src[c.pos..next.pos] == [src[c.pos], src[c.pos + 1]];
        } else {
          assert src[c.pos..next.pos] == [src[c.pos]];
        }
      }
    }
    Scan(Token(op.kind, op.text, c.line, c.column), c.pos, next)
  }

  /** Each operator and punctuation spelling, scanned on its own, gives back
      its kind and nothing is left over; so the two-character operators win
      over their one-character prefixes. */
  lemma OperatorSpellingRoundTrip(t: TokenType)
    requires IsOperatorKind(t)
    ensures ReadOperator(TokenName(t), Start).tok.kind == t
    ensures ReadOperator(TokenName(t), Start).next.pos == |TokenName(t)|
  {
    var s := TokenName(t);
    var nx := if |s| > 1 then s[1] else '\0';
    ScanOperatorOfSpelling(t);
    assert CurrentChar(s, Advance(s, Start)) == nx;
  }

  /** Maximal munch, in place: where a two-character operator is spelled
      out at the cursor, `readOperator` takes both characters as that
      operator, whatever follows. */
  lemma TwoCharOperatorWins(src: string, c: Cursor, t: TokenType)
    requires c.pos <= |src| && IsOperatorKind(t) && |TokenName(t)| == 2
    requires OccursAt(src, c.pos, TokenName(t))
    ensures ReadOperator(src, c).tok.kind == t
    ensures ReadOperator(src, c).next.pos == c.pos + 2
  {
    var w := TokenName(t);
    ScanOperatorOfSpelling(t);
    assert w == [w[0], w[1]];
    TwoCharsAt(src, c.pos, w[0], w[1]);
    assert CurrentChar(src, Advance(src, c)) == w[1];
  }

  /** And where no two-character operator is spelled out at the cursor, a
      one-character operator there is taken alone. */
  lemma OneCharOperatorUnlessLonger(src: string, c: Cursor, t: TokenType)
    requires c.pos <= |src| && IsOperatorKind(t) && |TokenName(t)| == 1
    requires OccursAt(src, c.pos, TokenName(t))
    requires forall u :: IsOperatorKind(u) && |TokenName(u)| == 2 ==> !OccursAt(src, c.pos, TokenName(u))
    ensures ReadOperator(src, c).tok.kind == t
    ensures ReadOperator(src, c).next.pos == c.pos + 1
  {
    var w := TokenName(t);
    OccursAtHead(src, c.pos, w);
    var ch := src[c.pos];
    var nx := CurrentChar(src, Advance(src, c));
    var op := ScanOperator(ch, nx);
    ScanOperatorRendersKind(ch, nx);
    if op.width == 2 {
      TwoCharsAt(src, c.pos, ch, nx);
    }
    ShortScanIgnoresNext(ch, nx);
    ScanOperatorOfSpelling(t);
  }

  /** A one-character result of the switch does not depend on the character
      after it. */
  lemma ShortScanIgnoresNext(ch: char, nx: char)
    requires ScanOperator(ch, nx).width == 1
    ensures ScanOperator(ch, nx) == ScanOperator(ch, '\0')
  {
  }

  /** The switch itself on each spelling (its first character and the one
      after it, NUL for a one-character spelling). */
  lemma ScanOperatorOfSpelling(t: TokenType)
    requires IsOperatorKind(t)
    ensures var s := TokenName(t);
      ScanOperator(s[0], if |s| > 1 then s[1] else '\0') == OpScan(t, s, |s|)
  {
    if t.PLUS? || t.MINUS? || t.MULTIPLY? || t.DIVIDE? || t.MODULO? {
      ArithmeticSpelling(t);
    } else if t.ASSIGN? || t.EQUAL? || t.NOT_EQUAL? || t.NOT? {
      EqualitySpelling(t);
    } else if t.LESS? || t.LESS_EQUAL? || t.GREATER? || t.GREATER_EQUAL? {
      ComparisonSpelling(t);
    } else if t.AND? || t.OR? {
      LogicalSpelling(t);
    } else if t.LEFT_PAREN? || t.RIGHT_PAREN? || t.LEFT_BRACE? || t.RIGHT_BRACE? {
      ParenSpelling(t);
    } else if t.LEFT_BRACKET? || t.RIGHT_BRACKET? || t.SEMICOLON? {
      BracketSpelling(t);
    } else if t.COMMA? || t.DOT? {
      SeparatorSpelling(t);
    } else {
      ScopeSpelling(t);
    }
  }

  /** `ScanOperatorOfSpelling` for the arithmetic operators. */
  lemma ArithmeticSpelling(t: TokenType)
    requires t.PLUS? || t.MINUS? || t.MULTIPLY? || t.DIVIDE? || t.MODULO?
    ensures var s := TokenName(t);
      ScanOperator(s[0], if |s| > 1 then s[1] else '\0') == OpScan(t, s, |s|)
  {
  }

  /** `ScanOperatorOfSpelling` for assignment, equality and negation. */
  lemma EqualitySpelling(t: TokenType)
    requires t.ASSIGN? || t.EQUAL? || t.NOT_EQUAL? || t.NOT?
    ensures var s := TokenName(t);
      ScanOperator(s[0], if |s| > 1 then s[1] else '\0') == OpScan(t, s, |s|)
  {
  }

  /** `ScanOperatorOfSpelling` for the comparison operators. */
  lemma ComparisonSpelling(t: TokenType)
    requires t.LESS? || t.LESS_EQUAL? || t.GREATER? || t.GREATER_EQUAL?
    ensures var s := TokenName(t);
      ScanOperator(s[0], if |s| > 1 then s[1] else '\0') == OpScan(t, s, |s|)
  {
  }

  /** `ScanOperatorOfSpelling` for the logical operators. */
  lemma LogicalSpelling(t: TokenType)
    requires t.AND? || t.OR?
    ensures var s := TokenName(t);
      ScanOperator(s[0], if |s| > 1 then s[1] else '\0') == OpScan(t, s, |s|)
  {
  }

  /** `ScanOperatorOfSpelling` for parentheses and braces. */
  lemma ParenSpelling(t: TokenType)
    requires t.LEFT_PAREN? || t.RIGHT_PAREN? || t.LEFT_BRACE? || t.RIGHT_BRACE?
    ensures var s := TokenName(t);
      ScanOperator(s[0], if |s| > 1 then s[1] else '\0') == OpScan(t, s, |s|)
  {
  }

  /** `ScanOperatorOfSpelling` for brackets and the semicolon. */
  lemma BracketSpelling(t: TokenType)
    requires t.LEFT_BRACKET? || t.RIGHT_BRACKET? || t.SEMICOLON?
    ensures var s := TokenName(t);
      ScanOperator(s[0], if |s| > 1 then s[1] else '\0') == OpScan(t, s, |s|)
  {
  }

  /** `ScanOperatorOfSpelling` for the separators. */
  lemma SeparatorSpelling(t: TokenType)
    requires t.COMMA? || t.DOT?
    ensures var s := TokenName(t);
      ScanOperator(s[0], if |s| > 1 then s[1] else '\0') == OpScan(t, s, |s|)
  {
  }

  /** `ScanOperatorOfSpelling` for the colon and the scope separator. */
  lemma ScopeSpelling(t: TokenType)
    requires t.COLON? || t.NAMESPACE_SEP?
    ensures var s := TokenName(t);
      ScanOperator(s[0], if |s| > 1 then s[1] else '\0') == OpScan(t, s, |s|)
  {
  }

  // ---------------------------------------------------------------------
  // Tokens

  /** The dispatch at the end of `nextToken`, on a character that starts
      neither a comment nor the end of the input: a number, a string, an
      identifier or keyword, or an operator. */
  function ReadToken(src: string, c: Cursor): (r: Scan)
    requires c.pos < |src|
    ensures r.start == c.pos < r.next.pos <= |src|
    ensures r.tok.line == c.line && r.tok.column == c.column
    ensures r.tok.kind != EOF_TOKEN
    ensures r.tok.kind != STRING ==> |r.tok.value| > 0 && r.tok.value[0] == src[c.pos]
    ensures r.tok.kind == STRING ==> src[c.pos] == '"'
    ensures WellPositioned(src, c) ==> WellPositioned(src, r.next)
  {
    var ch := CurrentChar(src, c);
    if IsDigit(ch) then ReadNumber(src, c)
    else if ch == '"' then ReadString(src, c)
    else if IsIdentStart(ch) then ReadIdentifier(src, c)
    else ReadOperator(src, c)
  }

  // ---------------------------------------------------------------------
  // What `nextToken` skips: blanks and comments

  /** `s` is the two characters `a` then `b`, starting at offset `i`. */
  lemma TwoCharsAt(src: string, i: nat, a: char, b: char)
    ensures OccursAt(src, i, [a, b]) <==> i + 2 <= |src| && src[i] == a && src[i + 1] == b
  {
    if i + 2 <= |src| && src[i] == a && src[i + 1] == b {
      assert src[i..i + 2] == [a, b];
    }
    if OccursAt(src, i, [a, b]) {
      assert src[i..i + 2][0] == a && src[i..i + 2][1] == b;
    }
  }

  /** A line comment that begins at offset `i` runs up to `k`: to the first
      newline, NUL or the end of the input, which it does not include. */
  predicate LineCommentEnds(src: string, i: nat, k: nat) {
    && OccursAt(src, i, "//")
    && i <= k <= |src|
    && (k == |src| || src[k] == '\n' || src[k] == '\0')
    && forall m :: i <= m < k ==> src[m] != '\n' && src[m] != '\0'
  }

  /** A block comment that begins at offset `i` runs up to `k`: just past the
      first star-slash after its opening, or to the first NUL or the end. */
  predicate BlockCommentEnds(src: string, i: nat, k: nat) {
    OccursAt(src, i, "/*") && BlockBodyEnds(src, i + 2, k)
  }

  /** A comment of either kind begins at `i` and runs up to `k`. */
  predicate CommentEnds(src: string, i: nat, k: nat) {
    LineCommentEnds(src, i, k) || BlockCommentEnds(src, i, k)
  }

  /** A blank or a comment begins at offset `i`. */
  predicate TriviaBegins(src: string, i: nat) {
    i < |src| && (IsSpace(src[i]) || OccursAt(src, i, "//") || OccursAt(src, i, "/*"))
  }

  /** `src[i..j]` consists of blanks and whole comments only, each comment
      running as far as `CommentEnds` says. */
  ghost predicate Trivia(src: string, i: nat, j: nat)
    decreases j - i
  {
    && i <= j <= |src|
    && (|| i == j
        || (IsSpace(src[i]) && Trivia(src, i + 1, j))
        || exists k :: i < k <= j && CommentEnds(src, i, k) && Trivia(src, k, j))
  }

  /** A run of blanks is trivia. */
  lemma {:induction false} BlanksAreTrivia(src: string, i: nat, j: nat)
    requires i <= j <= |src|
    requires forall m :: i <= m < j ==> IsSpace(src[m])
    ensures Trivia(src, i, j)
    decreases j - i
  {
    if i < j {
      BlanksAreTrivia(src, i + 1, j);
    }
  }

  /** Blanks, then a comment, then trivia: trivia. */
  lemma {:induction false} BlanksThenComment(src: string, i: nat, b: nat, k: nat, j: nat)
    requires i <= b < k <= |src|
    requires forall m :: i <= m < b ==> IsSpace(src[m])
    requires CommentEnds(src, b, k) && Trivia(src, k, j)
    ensures Trivia(src, i, j)
    decreases b - i
  {
    if i < b {
      BlanksThenComment(src, i + 1, b, k, j);
    }
  }

  /** A comment has one end only. */
  lemma CommentEndsUnique(src: string, i: nat, k1: nat, k2: nat)
    requires CommentEnds(src, i, k1) && CommentEnds(src, i, k2)
    ensures k1 == k2
  {
    TwoCharsAt(src, i, '/', '/');
    TwoCharsAt(src, i, '/', '*');
    if BlockCommentEnds(src, i, k1) {
      BlockBodyEndsUnique(src, i + 2, k1, k2);
    }
  }

  /** Trivia is read in one way only: if `src[a..j1]` and the longer
      `src[a..j2]` are both trivia, another blank or comment begins at `j1`. */
  lemma {:induction false} TriviaContinues(src: string, a: nat, j1: nat, j2: nat)
    requires Trivia(src, a, j1) && Trivia(src, a, j2) && j1 < j2
    ensures TriviaBegins(src, j1)
    decreases j1 - a
  {
    TwoCharsAt(src, a, '/', '/');
    TwoCharsAt(src, a, '/', '*');
    if a == j1 {
      if !IsSpace(src[a]) {
        var k :| a < k <= j2 && CommentEnds(src, a, k) && Trivia(src, k, j2);
      }
    } else if IsSpace(src[a]) {
      assert Trivia(src, a + 1, j1) && Trivia(src, a + 1, j2);
      TriviaContinues(src, a + 1, j1, j2);
    } else {
      var k1 :| a < k1 <= j1 && CommentEnds(src, a, k1) && Trivia(src, k1, j1);
      var k2 :| a < k2 <= j2 && CommentEnds(src, a, k2) && Trivia(src, k2, j2);
      CommentEndsUnique(src, a, k1, k2);
      TriviaContinues(src, k1, j1, j2);
    }
  }

  /** `nextToken`: skips blanks and comments, then reads one token. The end
      of the input gives `EOF_TOKEN`; every other token starts after `c` and
      moves the cursor past at least one character. What is skipped is
      stated by `NextTokenSkipsTrivia`. */
  function NextToken(src: string, c: Cursor): (r: Scan)
    requires c.pos <= |src|
    ensures c.pos <= r.start <= r.next.pos <= |src|
    ensures r.tok.kind == EOF_TOKEN <==> r.start == |src|
    ensures r.tok.kind == EOF_TOKEN ==> r.tok.value == "" && r.next.pos == |src|
    ensures r.tok.kind != EOF_TOKEN ==> r.start < r.next.pos
    ensures r.tok.kind != EOF_TOKEN && r.tok.kind != STRING ==>
              |r.tok.value| > 0 && r.tok.value[0] == src[r.start]
    ensures r.tok.kind == STRING ==> src[r.start] == '"'
    ensures WellPositioned(src, c) ==>
              WellPositioned(src, r.next)
              && r.tok.line == LineAt(src, r.start) && r.tok.column == ColumnAt(src, r.start)
    decreases |src| - c.pos
  {
    var c1 := SkipWhitespace(src, c);
    if AtEnd(src, c1) then
      Scan(Token(EOF_TOKEN, "", c1.line, c1.column), c1.pos, c1)
    else if CurrentChar(src, c1) == '/' && PeekChar(src, c1) == '/' then
      NextToken(src, SkipLineComment(src, c1))
    else if CurrentChar(src, c1) == '/' && PeekChar(src, c1) == '*' then
      NextToken(src, SkipBlockComment(src, c1))
    else
      ReadToken(src, c1)
  }

  /** What `nextToken` skips before its token is exactly trivia, and it
      stops where no blank or comment begins. With `TriviaContinues`, this
      pins the token's start down: it is the one place after `c` up to
      which the text is trivia and where none continues. */
  lemma {:induction false} NextTokenSkipsTrivia(src: string, c: Cursor)
    requires c.pos <= |src|
    ensures Trivia(src, c.pos, NextToken(src, c).start)
    ensures !TriviaBegins(src, NextToken(src, c).start)
    decreases |src| - c.pos
  {
    var c1 := SkipWhitespace(src, c);
    TwoCharsAt(src, c1.pos, '/', '/');
    TwoCharsAt(src, c1.pos, '/', '*');
    if AtEnd(src, c1) {
      BlanksAreTrivia(src, c.pos, c1.pos);
    } else if CurrentChar(src, c1) == '/' && PeekChar(src, c1) == '/' {
      var c2 := SkipLineComment(src, c1);
      NextTokenSkipsTrivia(src, c2);
      BlanksThenComment(src, c.pos, c1.pos, c2.pos, NextToken(src, c2).start);
    } else if CurrentChar(src, c1) == '/' && PeekChar(src, c1) == '*' {
      var c2 := SkipBlockComment(src, c1);
      NextTokenSkipsTrivia(src, c2);
      BlanksThenComment(src, c.pos, c1.pos, c2.pos, NextToken(src, c2).start);
    } else {
      BlanksAreTrivia(src, c.pos, c1.pos);
    }
  }

  /** The loop of `tokenize`, from cursor `c`: `INVALID` tokens are dropped,
      and the loop stops at the end of the input or after an `EOF_TOKEN`. */
  function TokenizeFrom(src: string, c: Cursor): (r: seq<Token>)
    requires c.pos <= |src|
    ensures forall i :: 0 <= i < |r| ==> r[i].kind != INVALID
    ensures forall i :: 0 <= i < |r| && r[i].kind == EOF_TOKEN ==> i == |r| - 1
    ensures c.pos == |src| ==> r == []
    decreases |src| - c.pos
  {
    if AtEnd(src, c) then []
    else
      var s := NextToken(src, c);
      var kept := if s.tok.kind == INVALID then [] else [s.tok];
      if s.tok.kind == EOF_TOKEN then kept else kept + TokenizeFrom(src, s.next)
  }

  /** `tokenize`: no `INVALID` token, at most one `EOF_TOKEN` and only in last
      place, and nothing at all for empty input. */
  function Tokenize(src: string): (r: seq<Token>)
    ensures forall i :: 0 <= i < |r| ==> r[i].kind != INVALID
    ensures forall i :: 0 <= i < |r| && r[i].kind == EOF_TOKEN ==> i == |r| - 1
    ensures src == "" ==> r == []
  {
    TokenizeFrom(src, Start)
  }

  /** The token `t` begins at offset `p` of `src` and carries that offset's
      line and column. */
  ghost predicate StartsAt(src: string, t: Token, p: nat) {
    && p <= |src|
    && t.line == LineAt(src, p) && t.column == ColumnAt(src, p)
    && (t.kind == EOF_TOKEN ==> p == |src|)
    && (t.kind == STRING ==> p < |src| && src[p] == '"')
    && (t.kind != EOF_TOKEN && t.kind != STRING ==> p < |src| && |t.value| > 0 && t.value[0] == src[p])
  }

  /** The token `t` begins at some offset at or after `lo`. */
  ghost predicate PlacedFrom(src: string, t: Token, lo: nat) {
    exists p :: lo <= p && StartsAt(src, t, p)
  }

  /** Every token of `TokenizeFrom` carries the line and column of its first
      character (and the end-of-input position for `EOF_TOKEN`). */
  lemma {:induction false} TokensCarryTheirPositions(src: string, c: Cursor)
    requires WellPositioned(src, c)
    ensures forall t :: t in TokenizeFrom(src, c) ==> PlacedFrom(src, t, c.pos)
    decreases |src| - c.pos
  {
    if !AtEnd(src, c) {
      var s := NextToken(src, c);
      assert StartsAt(src, s.tok, s.start);
      assert PlacedFrom(src, s.tok, c.pos);
      if s.tok.kind != EOF_TOKEN {
        var rest := TokenizeFrom(src, s.next);
        TokensCarryTheirPositions(src, s.next);
        forall t | t in rest ensures PlacedFrom(src, t, c.pos) {
          var p :| s.next.pos <= p && StartsAt(src, t, p);
        }
      }
    }
  }

  /** When a token ends exactly at the end of the input, no `EOF_TOKEN`
      follows it. */
  lemma NoEofAfterFinalToken(src: string, c: Cursor)
    requires c.pos < |src|
    requires NextToken(src, c).tok.kind != EOF_TOKEN && NextToken(src, c).next.pos == |src|
    ensures forall i :: 0 <= i < |TokenizeFrom(src, c)| ==> TokenizeFrom(src, c)[i].kind != EOF_TOKEN
  {
  }

  /** When only blanks and comments remain, `nextToken` reports the end of
      the input, and the scan yields exactly that one `EOF_TOKEN`. */
  lemma EofAfterTrailingTrivia(src: string, c: Cursor)
    requires c.pos < |src| && Trivia(src, c.pos, |src|)
    ensures NextToken(src, c).tok.kind == EOF_TOKEN
    ensures TokenizeFrom(src, c) == [NextToken(src, c).tok]
  {
    var r := NextToken(src, c);
    NextTokenSkipsTrivia(src, c);
    if r.start < |src| {
      TriviaContinues(src, c.pos, r.start, |src|);
    }
  }

  /** `x` is not in the keyword table. */
  lemma XIsNotKeyword(text: string)
    requires text == "x"
    ensures !IsKeyword(text)
  {
  }

  /** Scanning the identifier `x` at the start of `x` or `x `. */
  lemma IdentifierXScan(src: string)
    requires src == "x" || src == "x "
    ensures NextToken(src, Start) == Scan(Token(IDENTIFIER, "x", 1, 1), 0, Cursor(1, 1, 2))
  {
    assert SkipWhitespace(src, Start) == Start;
    var loop := IdentLoop(src, Start, "");
    assert loop.0 == "x" && loop.1 == Cursor(1, 1, 2) by {
      assert IdentLoop(src, Cursor(1, 1, 2), "x") == ("x", Cursor(1, 1, 2));
    }
    XIsNotKeyword(loop.0);
  }

  /** `tokenize("x")`: the identifier runs to the end of the input, so no
      `EOF_TOKEN` follows it. */
  lemma NoEofExample(src: string)
    requires src == "x"
    ensures Tokenize(src) == [Token(IDENTIFIER, "x", 1, 1)]
  {
    IdentifierXScan(src);
    assert TokenizeFrom(src, Cursor(1, 1, 2)) == [];
  }

  /** `tokenize("x ")`: a trailing blank leaves something to skip, so the
      scan ends with an `EOF_TOKEN` at line 1, column 3. */
  lemma TrailingEofExample(src: string)
    requires src == "x "
    ensures Tokenize(src) == [Token(IDENTIFIER, "x", 1, 1), Token(EOF_TOKEN, "", 1, 3)]
  {
    IdentifierXScan(src);
    TrailingBlankScan(src);
    BlanksAreTrivia(src, 1, 2);
    EofAfterTrailingTrivia(src, Cursor(1, 1, 2));
  }

  /** After the `x` of `x `, only the blank remains: `nextToken` skips it and
      reports the end of the input. */
  lemma TrailingBlankScan(src: string)
    requires src == "x "
    ensures NextToken(src, Cursor(1, 1, 2)) == Scan(Token(EOF_TOKEN, "", 1, 3), 2, Cursor(2, 1, 3))
  {
    assert SkipWhitespace(src, Cursor(2, 1, 3)) == Cursor(2, 1, 3);
    assert SkipWhitespace(src, Cursor(1, 1, 2)) == Cursor(2, 1, 3);
  }

  /** A character that begins no blank, comment, number, string,
      identifier or operator becomes a one-character `INVALID` token. */
  lemma InvalidCharScan(src: string, c: Cursor)
    requires c.pos < |src|
    requires !IsSpace(src[c.pos]) && !IsDigit(src[c.pos]) && src[c.pos] != '"'
    requires !IsIdentStart(src[c.pos]) && src[c.pos] != '/'
    requires ScanOperator(src[c.pos], PeekChar(src, c)).kind == INVALID
    ensures NextToken(src, c) == Scan(Token(INVALID, [src[c.pos]], c.line, c.column), c.pos, Advance(src, c))
  {
    NoTriviaScansToken(src, c);
    OperatorCharScansOperator(src, c);
    InvalidOperatorScan(src, c);
  }

  /** Where no blank and no `/` stands, `nextToken` reads its token right there. */
  lemma NoTriviaScansToken(src: string, c: Cursor)
    requires c.pos < |src| && !IsSpace(src[c.pos]) && src[c.pos] != '/'
    ensures NextToken(src, c) == ReadToken(src, c)
  {
    var c1 := SkipWhitespace(src, c);
    assert c1 == c;
    assert !AtEnd(src, c1) && CurrentChar(src, c1) != '/';
  }

  /** A character that begins no number, string or identifier is read as an operator. */
  lemma OperatorCharScansOperator(src: string, c: Cursor)
    requires c.pos < |src| && !IsDigit(src[c.pos]) && src[c.pos] != '"' && !IsIdentStart(src[c.pos])
    ensures ReadToken(src, c) == ReadOperator(src, c)
  {
  }

  /** When the operator switch finds nothing, the one character is `INVALID`. */
  lemma InvalidOperatorScan(src: string, c: Cursor)
    requires c.pos < |src| && ScanOperator(src[c.pos], PeekChar(src, c)).kind == INVALID
    ensures ReadOperator(src, c) == Scan(Token(INVALID, [src[c.pos]], c.line, c.column), c.pos, Advance(src, c))
  {
    assert CurrentChar(src, Advance(src, c)) == PeekChar(src, c);
  }

  /** A byte of `é` in `é x` is no blank, digit, quote, letter or operator:
      `nextToken` makes it a one-byte `INVALID` token, one column wide. */
  lemma InvalidByteScan(src: string, c: Cursor)
    requires src == ['\U{C3}', '\U{A9}', ' ', 'x']
    requires c == Start || c == Cursor(1, 1, 2)
    ensures NextToken(src, c) == Scan(Token(INVALID, [src[c.pos]], 1, c.column), c.pos, Cursor(c.pos + 1, 1, c.column + 1))
  {
    assert ScanOperator(src[c.pos], PeekChar(src, c)).kind == INVALID;
    InvalidCharScan(src, c);
  }

  /** After the two bytes of `é` in `é x`, `nextToken` skips the blank and
      reads `x` at line 1, column 4. */
  lemma IdentifierAfterBytesScan(src: string)
    requires src == ['\U{C3}', '\U{A9}', ' ', 'x']
    ensures NextToken(src, Cursor(2, 1, 3)) == Scan(Token(IDENTIFIER, "x", 1, 4), 3, Cursor(4, 1, 5))
  {
    var c := Cursor(3, 1, 4);
    assert SkipWhitespace(src, c) == c;
    assert SkipWhitespace(src, Cursor(2, 1, 3)) == c;
    var loop := IdentLoop(src, c, "");
    assert loop.0 == "x" && loop.1 == Cursor(4, 1, 5) by {
      assert IsIdentChar(src[3]) && Advance(src, c) == Cursor(4, 1, 5);
      assert "" + [src[3]] == "x";
      assert IdentLoop(src, Cursor(4, 1, 5), "x") == ("x", Cursor(4, 1, 5));
    }
    XIsNotKeyword(loop.0);
  }

  /** The source `é x` as the file's bytes C3 A9 20 78: each byte of `é`
      is an `INVALID` token of its own and is dropped, and `x` stands at
      line 1, column 4, one column per byte. */
  lemma ByteColumnsExample(src: string)
    requires src == ['\U{C3}', '\U{A9}', ' ', 'x']
    ensures Tokenize(src) == [Token(IDENTIFIER, "x", 1, 4)]
  {
    InvalidByteScan(src, Start);
    InvalidByteScan(src, Cursor(1, 1, 2));
    IdentifierAfterBytesScan(src);
    TokenizeDropsInvalid(src, Start);
    TokenizeDropsInvalid(src, Cursor(1, 1, 2));
    TokenizeKeeps(src, Cursor(2, 1, 3));
    assert TokenizeFrom(src, Cursor(4, 1, 5)) == [];
  }

  /** An `INVALID` token leaves nothing in the list: the scan goes on after it. */
  lemma TokenizeDropsInvalid(src: string, c: Cursor)
    requires c.pos < |src| && NextToken(src, c).tok.kind == INVALID
    ensures TokenizeFrom(src, c) == TokenizeFrom(src, NextToken(src, c).next)
  {
  }

  /** Any other token before the end is listed, and the scan goes on after it. */
  lemma TokenizeKeeps(src: string, c: Cursor)
    requires c.pos < |src|
    requires NextToken(src, c).tok.kind != INVALID && NextToken(src, c).tok.kind != EOF_TOKEN
    ensures TokenizeFrom(src, c) == [NextToken(src, c).tok] + TokenizeFrom(src, NextToken(src, c).next)
  {
  }
}
