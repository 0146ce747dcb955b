/**
 * String helpers shared by the dashboard panels: JavaScript's `toLowerCase`,
 * `includes` and `split`, on strings modelled as sequences of characters.
 */
module Text {

  /** True of the ASCII capital letters, the only characters lower-casing changes here. */
  predicate IsUpper(c: char) {
    'A' <= c <= 'Z'
  }

  function LowerChar(c: char): (r: char)
    ensures !IsUpper(r)
    ensures IsUpper(c) ==> r as int == c as int + 32
    ensures !IsUpper(c) ==> r == c
  {
    if IsUpper(c) then (c as int + 32) as char else c
  }

  /** `s.toLowerCase()`: every character lowered, nothing added or dropped. */
  function ToLower(s: string): (r: string)
    ensures |r| == |s|
  {
    seq(|s|, i requires 0 <= i < |s| => LowerChar(s[i]))
  }

  /** `t` occurs in `s` starting at offset `i`. */
  predicate OccursAt(s: string, t: string, i: int) {
    0 <= i && i + |t| <= |s| && s[i..i + |t|] == t
  }

  /** `s.includes(t)`: `t` occurs in `s` at some offset. */
  predicate Includes(s: string, t: string) {
    exists i :: 0 <= i <= |s| - |t| && OccursAt(s, t, i)
  }

  /** A term holding a character the string lacks is not included in it. */
  lemma AbsentCharNotIncluded(s: string, t: string, k: int)
    requires 0 <= k < |t| && t[k] !in s
    ensures !Includes(s, t)
  {
  }

  lemma IncludesEmpty(s: string)
    ensures Includes(s, "")
  {
    assert OccursAt(s, "", 0);
  }

  /** A string includes every string it is built around. */
  lemma InfixIncluded(a: string, t: string, b: string)
    ensures Includes(a + t + b, t)
  {
    var s := a + t + b;
    assert s[|a|..|a| + |t|] == t;
    assert OccursAt(s, t, |a|);
  }

  /** A string includes each of its prefixes. */
  lemma PrefixIncluded(t: string, b: string)
    ensures Includes(t + b, t)
  {
    assert (t + b)[..|t|] == t;
    assert OccursAt(t + b, t, 0);
  }

  /** Whatever a string includes, the string with text put in front of it includes too. */
  lemma {:induction false} IncludedAfter(a: string, s: string, t: string)
    requires Includes(s, t)
    ensures Includes(a + s, t)
  {
    var i :| 0 <= i <= |s| - |t| && OccursAt(s, t, i);
    assert (a + s)[|a| + i..|a| + i + |t|] == s[i..i + |t|];
    assert OccursAt(a + s, t, |a| + i);
  }

  /** The case-insensitive substring test every search box uses: `field.toLowerCase().includes(term.toLowerCase())`. */
  predicate MatchesTerm(field: string, term: string) {
    Includes(ToLower(field), ToLower(term))
  }

  lemma EmptyTermMatches(field: string)
    ensures MatchesTerm(field, "")
  {
    IncludesEmpty(ToLower(field));
  }

  /** A field that starts with the term, up to case, matches it. */
  lemma PrefixMatches(field: string, term: string)
    requires |term| <= |field|
    requires forall j :: 0 <= j < |term| ==> LowerChar(field[j]) == LowerChar(term[j])
    ensures MatchesTerm(field, term)
  {
    var f, t := ToLower(field), ToLower(term);
    assert f[..|t|] == t;
    assert OccursAt(f, t, 0);
  }

  /** A term with a letter that occurs in `field` in neither case does not match `field`. */
  lemma MissingLetterNoMatch(field: string, term: string, k: int)
    requires 0 <= k < |term|
    requires forall j :: 0 <= j < |field| ==> LowerChar(field[j]) != LowerChar(term[k])
    ensures !MatchesTerm(field, term)
  {
    AbsentCharNotIncluded(ToLower(field), ToLower(term), k);
  }

  /** Joins at least one piece with `sep` between neighbours (JavaScript's `pieces.join(sep)`). */
  function Join(pieces: seq<string>, sep: char): string
    requires |pieces| >= 1
  {
    if |pieces| == 1 then pieces[0] else pieces[0] + [sep] + Join(pieces[1..], sep)
  }

  /**
   * `s.split(sep)` for a one-character separator: the maximal pieces between
   * separators, empty ones included, so `n` separators give `n + 1` pieces.
   */
  function Split(s: string, sep: char): (pieces: seq<string>)
    ensures 1 <= |pieces| <= |s| + 1
    ensures forall k :: 0 <= k < |pieces| ==> sep !in pieces[k]
    ensures forall k, j :: 0 <= k < |pieces| && 0 <= j < |pieces[k]| ==> pieces[k][j] in s
    ensures Join(pieces, sep) == s
  {
    if s == [] then [""]
    else if s[0] == sep then [""] + Split(s[1..], sep)
    else
      var rest := Split(s[1..], sep);
      [[s[0]] + rest[0]] + rest[1..]
  }

  /** Splitting a join of separator-free pieces gives the pieces back. */
  lemma {:induction false} SplitJoin(pieces: seq<string>, sep: char)
    requires |pieces| >= 1
    requires forall k :: 0 <= k < |pieces| ==> sep !in pieces[k]
    ensures Split(Join(pieces, sep), sep) == pieces
  {
    if |pieces| == 1 {
      SplitPiece(pieces[0], [], sep);
    } else {
      var others := pieces[1..];
      var rest := Join(others, sep);
      SplitJoin(others, sep);
      assert Join(pieces, sep) == pieces[0] + ([sep] + rest);
      SplitWordThenSeparator(pieces[0], rest, sep);
      assert [pieces[0]] + others == pieces;
    }
  }

  /** A separator-free word, a separator and more text split into the word and the pieces of the rest. */
  lemma SplitWordThenSeparator(word: string, rest: string, sep: char)
    requires sep !in word
    ensures Split(word + ([sep] + rest), sep) == [word] + Split(rest, sep)
  {
    var tail := [sep] + rest;
    SplitAfterSeparator(rest, sep);
    SplitPiece(word, tail, sep);
    assert word + "" == word;
  }

  /** A leading separator closes an empty first piece. */
  lemma SplitAfterSeparator(rest: string, sep: char)
    ensures Split([sep] + rest, sep) == [""] + Split(rest, sep)
  {
    assert ([sep] + rest)[1..] == rest;
  }

  /** A separator-free word in front of `tail` (which is empty or starts with `sep`) extends the first piece of `tail`. */
  lemma {:induction false} SplitPiece(word: string, tail: string, sep: char)
    requires sep !in word
    requires tail == [] || tail[0] == sep
    ensures Split(word + tail, sep) == [word + Split(tail, sep)[0]] + Split(tail, sep)[1..]
  {
    if word == [] {
      assert word + tail == tail;
      var t := Split(tail, sep);
      assert word + t[0] == t[0];
      assert t == [t[0]] + t[1..];
    } else {
      var t := Split(tail, sep);
      SplitPiece(word[1..], tail, sep);
      AppendAfterHead(word, tail);
      SplitAfterChar(word[0], word[1..] + tail, sep);
      AppendAfterHead(word, t[0]);
    }
  }

  /** Concatenation regrouped around the head of a non-empty left operand. */
  lemma AppendAfterHead(a: string, b: string)
    requires a != []
    ensures a + b == [a[0]] + (a[1..] + b)
  {
    assert a == [a[0]] + a[1..];
  }

  /** A character other than the separator joins the first piece of what follows it. */
  lemma SplitAfterChar(c: char, rest: string, sep: char)
    requires c != sep
    ensures Split([c] + rest, sep) == [[c] + Split(rest, sep)[0]] + Split(rest, sep)[1..]
  {
    assert ([c] + rest)[1..] == rest;
  }
}
