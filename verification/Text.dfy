/** Go's `strconv` and `strings` functions, as far as the models need them. */
module Text {
  import opened Wrappers

  const DIGITS := "0123456789"

  predicate AllDigits(s: string) {
    forall c | c in s :: c in DIGITS
  }

  function Digits(n: nat): (s: string)
    ensures s != "" && AllDigits(s)
  {
    if n < 10 then [DIGITS[n]] else Digits(n / 10) + [DIGITS[n % 10]]
  }

  /** `strconv.Itoa`. */
  function Itoa(n: int): string {
    if n < 0 then "-" + Digits(-n) else Digits(n)
  }

  function DigitValue(c: char): (v: int)
    requires c in DIGITS
    ensures 0 <= v < 10 && DIGITS[v] == c
  {
    (c as int) - ('0' as int)
  }

  function DigitsValue(s: string): nat
    requires AllDigits(s)
  {
    if s == "" then 0 else 10 * DigitsValue(s[..|s| - 1]) + DigitValue(s[|s| - 1])
  }

  /** `strconv.Atoi` over unbounded integers: an optional sign and at least one digit. */
  function Atoi(s: string): Option<int> {
    var unsigned := if s != "" && s[0] in "+-" then s[1..] else s;
    if unsigned == "" || !AllDigits(unsigned) then None
    else
      var value: int := DigitsValue(unsigned);
      Some(if s[0] == '-' then -value else value)
  }

  lemma DigitOf(k: nat)
    requires k < 10
    ensures DIGITS[k] in DIGITS && DigitValue(DIGITS[k]) == k
  {
  }

  lemma DigitsValueSnoc(s: string, k: nat)
    requires k < 10 && AllDigits(s)
    ensures DigitsValue(s + [DIGITS[k]]) == 10 * DigitsValue(s) + k
  {
    DigitOf(k);
    assert (s + [DIGITS[k]])[..|s|] == s;
  }

  lemma {:induction false} DigitsRoundTrip(n: nat)
    ensures DigitsValue(Digits(n)) == n
    decreases n
  {
    if n < 10 {
      assert Digits(n) == "" + [DIGITS[n]];
      DigitsValueSnoc("", n);
    } else {
      var q, r := n / 10, n % 10;
      DigitsRoundTrip(q);
      assert Digits(n) == Digits(q) + [DIGITS[r]];
      DigitsValueSnoc(Digits(q), r);
    }
  }

  lemma AtoiDigits(s: string)
    requires s != "" && AllDigits(s)
    ensures Atoi(s) == Some(DigitsValue(s))
    ensures Atoi("-" + s) == Some(-(DigitsValue(s) as int))
    ensures Atoi("+" + s) == Some(DigitsValue(s))
  {
    assert s[0] in s && s[0] !in "+-";
    assert ("-" + s)[1..] == s && ("+" + s)[1..] == s;
  }

  lemma AtoiItoa(n: int)
    ensures Atoi(Itoa(n)) == Some(n)
  {
    var size := if n < 0 then -n else n;
    DigitsRoundTrip(size);
    AtoiDigits(Digits(size));
  }

  lemma ItoaInjective(a: int, b: int)
    requires Itoa(a) == Itoa(b)
    ensures a == b
  {
    AtoiItoa(a);
    AtoiItoa(b);
  }

  /** `strings.Split` with a one-character separator: each separator starts a new piece. */
  function Split(s: string, separator: char): (pieces: seq<string>)
    ensures pieces != []
  {
    if s == "" then [""]
    else
      var pieces, c := Split(s[..|s| - 1], separator), s[|s| - 1];
      if c == separator then pieces + [""]
      else pieces[|pieces| - 1 := pieces[|pieces| - 1] + [c]]
  }

  function LastPiece(s: string, separator: char): string {
    var pieces := Split(s, separator);
    pieces[|pieces| - 1]
  }

  lemma LastPieceSnoc(s: string, separator: char, c: char)
    ensures LastPiece(s + [c], separator) == if c == separator then "" else LastPiece(s, separator) + [c]
  {
    assert (s + [c])[..|s|] == s;
  }

  /** The last piece is what follows the last separator. */
  lemma {:induction false} LastPieceAfter(prefix: string, separator: char, piece: string)
    requires separator !in piece
    ensures LastPiece(prefix + [separator] + piece, separator) == piece
    decreases |piece|
  {
    if piece == "" {
      LastPieceSnoc(prefix, separator, separator);
      assert prefix + [separator] + piece == prefix + [separator];
    } else {
      var n := |piece| - 1;
      LastPieceAfter(prefix, separator, piece[..n]);
      LastPieceSnoc(prefix + [separator] + piece[..n], separator, piece[n]);
      assert prefix + [separator] + piece == (prefix + [separator] + piece[..n]) + [piece[n]];
    }
  }

  /** Up to the second separator, a text is cut into what stands before the first and what stands after it. */
  lemma {:induction false} SplitTwo(head: string, separator: char, second: string, rest: string)
    requires separator !in head && separator !in second && (rest == "" || rest[0] == separator)
    ensures var pieces := Split(head + [separator] + second + rest, separator);
            |pieces| >= (if rest == "" then 2 else 3) && pieces[0] == head && pieces[1] == second
    decreases |rest|
  {
    var s := head + [separator] + second + rest;
    if rest != "" {
      assert s[..|s| - 1] == head + [separator] + second + rest[..|rest| - 1];
      SplitTwo(head, separator, second, rest[..|rest| - 1]);
    } else {
      SplitOfTwo(head, separator, second);
      assert head + [separator] + second + "" == head + [separator] + second;
    }
  }

  lemma {:induction false} SplitOfOne(s: string, separator: char)
    requires separator !in s
    ensures Split(s, separator) == [s]
  {
    if s != "" {
      SplitOfOne(s[..|s| - 1], separator);
      assert s[|s| - 1] in s;
      assert s[..|s| - 1] + [s[|s| - 1]] == s;
    }
  }

  lemma {:induction false} SplitOfTwo(head: string, separator: char, second: string)
    requires separator !in head && separator !in second
    ensures Split(head + [separator] + second, separator) == [head, second]
  {
    var s := head + [separator] + second;
    var n := |s| - 1;
    if second == "" {
      assert s[..n] == head;
      SplitOfOne(head, separator);
    } else {
      var k := |second| - 1;
      assert s[..n] == head + [separator] + second[..k] && s[n] == second[k];
      SplitOfTwo(head, separator, second[..k]);
      assert second[..k] + [second[k]] == second;
    }
  }

  /** There is a second piece exactly when there is a separator. */
  lemma {:induction false} SplitPieces(s: string, separator: char)
    ensures |Split(s, separator)| >= 2 <==> separator in s
  {
    if s != "" {
      SplitPieces(s[..|s| - 1], separator);
      assert s == s[..|s| - 1] + [s[|s| - 1]];
    }
  }

  predicate OccursAt(s: string, part: string, i: nat) {
    i + |part| <= |s| && s[i..i + |part|] == part
  }

  /** `strings.Contains`. */
  predicate Contains(s: string, part: string) {
    exists i | 0 <= i <= |s| :: OccursAt(s, part, i)
  }

  lemma ContainsPart(before: string, part: string, after: string)
    ensures Contains(before + part + after, part)
  {
    assert OccursAt(before + part + after, part, |before|);
  }

  lemma ContainsNeeds(s: string, part: string, c: char)
    requires c in part && c !in s
    ensures !Contains(s, part)
  {
    forall i | 0 <= i <= |s| ensures !OccursAt(s, part, i) {
      var piece := if i + |part| <= |s| then s[i..i + |part|] else part;
      assert piece == part ==> c in piece;
    }
  }

  // ----- trimming

  /** Where the white space that starts at `i` ends. */
  function SpaceEnd(s: string, i: nat, space: char -> bool): (end: nat)
    requires i <= |s|
    ensures i <= end <= |s| && (forall k | i <= k < end :: space(s[k])) && (end < |s| ==> !space(s[end]))
    decreases |s| - i
  {
    if i < |s| && space(s[i]) then SpaceEnd(s, i + 1, space) else i
  }

  /** Where the white space that ends the text starts, not before `low`. */
  function SpaceStart(s: string, low: nat, i: nat, space: char -> bool): (start: nat)
    requires low <= i <= |s|
    ensures low <= start <= i && (forall k | start <= k < i :: space(s[k]))
    ensures start > low ==> !space(s[start - 1])
  {
    if i > low && space(s[i - 1]) then SpaceStart(s, low, i - 1, space) else i
  }

  /** A text without the white space around it. */
  function TrimBy(s: string, space: char -> bool): (trimmed: string)
    ensures trimmed != "" ==> !space(trimmed[0]) && !space(trimmed[|trimmed| - 1])
  {
    var low := SpaceEnd(s, 0, space);
    s[low..SpaceStart(s, low, |s|, space)]
  }

  predicate AllSpace(s: string, space: char -> bool) {
    forall i | 0 <= i < |s| :: space(s[i])
  }

  /** White space at neither end. */
  predicate Tight(s: string, space: char -> bool) {
    s != "" ==> !space(s[0]) && !space(s[|s| - 1])
  }

  /** Trimming takes white space away, from both ends, and nothing else. */
  lemma TrimTakesSpace(s: string, space: char -> bool) returns (before: string, after: string)
    ensures s == before + TrimBy(s, space) + after
    ensures AllSpace(before, space) && AllSpace(after, space) && Tight(TrimBy(s, space), space)
  {
    var low := SpaceEnd(s, 0, space);
    var high := SpaceStart(s, low, |s|, space);
    before, after := s[..low], s[high..];
  }

  /** And so it gives back a text that has white space put around it. */
  lemma TrimKeeps(before: string, s: string, after: string, space: char -> bool)
    requires AllSpace(before, space) && AllSpace(after, space) && Tight(s, space)
    ensures TrimBy(before + s + after, space) == s
  {
    var padded := before + s + after;
    var low := SpaceEnd(padded, 0, space);
    var high := SpaceStart(padded, low, |padded|, space);
    if s == "" {
      assert forall i | 0 <= i < |padded| :: space(padded[i]);
      assert low == |padded|;
    } else {
      var last := |before| + |s| - 1;
      assert padded[|before|] == s[0] && padded[last] == s[|s| - 1];
      assert forall i | 0 <= i < |before| :: padded[i] == before[i];
      assert forall i | last < i < |padded| :: padded[i] == after[i - last - 1];
      assert low == |before| && high == last + 1;
    }
  }

  lemma TrimTight(s: string, space: char -> bool)
    requires Tight(s, space)
    ensures TrimBy(s, space) == s
  {
    TrimKeeps("", s, "", space);
    assert "" + s + "" == s;
  }

  /** The white space of both Go's `strings.TrimSpace` and JavaScript's `trim`. */
  predicate IsCommonSpace(c: char) {
    c in "\t\n \r" || c in "\U{000B}\U{000C}\U{00A0}\U{1680}\U{2028}\U{2029}\U{202F}\U{205F}\U{3000}"
    || '\U{2000}' <= c <= '\U{200A}'
  }

  predicate IsGoSpace(c: char) {
    IsCommonSpace(c) || c == '\U{0085}'
  }

  predicate IsJsSpace(c: char) {
    IsCommonSpace(c) || c == '\U{FEFF}'
  }

  /** The code points with the property White_Space, which Go goes by. */
  const WHITE_SPACE: set<int> :=
    {9, 10, 11, 12, 13, 32, 0x85, 0xA0, 0x1680, 0x2000, 0x2001, 0x2002, 0x2003, 0x2004, 0x2005, 0x2006, 0x2007, 0x2008,
     0x2009, 0x200A, 0x2028, 0x2029, 0x202F, 0x205F, 0x3000}

  /** JavaScript has the byte order mark for the next-line character. */
  lemma SpacesInFigures(c: char)
    ensures IsGoSpace(c) <==> c as int in WHITE_SPACE
    ensures IsJsSpace(c) <==> c as int in WHITE_SPACE - {0x85} + {0xFEFF}
  {
  }
}
