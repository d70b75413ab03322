/** The JavaScript string operations the screens use: `trim`, `toLowerCase`,
    `includes`, `split`, `join`, `slice`, and the avatar initials built from them. */
module Text {
  import opened Seqs

  /** The code points ECMAScript counts as WhiteSpace or LineTerminator,
      i.e. exactly the characters `String.prototype.trim` strips. */
  predicate IsWhitespace(c: char)
  {
    || c == '\t' || c == '\n' || c == '\U{0B}' || c == '\U{0C}' || c == '\r'
    || c == ' ' || c == '\U{A0}' || c == '\U{1680}'
    || ('\U{2000}' <= c <= '\U{200A}')
    || c == '\U{2028}' || c == '\U{2029}' || c == '\U{202F}' || c == '\U{205F}'
    || c == '\U{3000}' || c == '\U{FEFF}'
  }

  /** Every character is whitespace (the empty string included). */
  predicate IsBlank(s: string)
  {
    forall i :: 0 <= i < |s| ==> IsWhitespace(s[i])
  }

  /** Leading whitespace removed: the result is a suffix of `s` that does not start with whitespace. */
  function TrimStart(s: string): (r: string)
    ensures |r| <= |s| && r == s[|s| - |r|..]
    ensures forall i :: 0 <= i < |s| - |r| ==> IsWhitespace(s[i])
    ensures r != [] ==> !IsWhitespace(r[0])
  {
    if s == [] then []
    else if IsWhitespace(s[0]) then TrimStart(s[1..])
    else s
  }

  /** Trailing whitespace removed: the result is a prefix of `s` that does not end with whitespace. */
  function TrimEnd(s: string): (r: string)
    ensures |r| <= |s| && r == s[..|r|]
    ensures forall i :: |r| <= i < |s| ==> IsWhitespace(s[i])
    ensures r != [] ==> !IsWhitespace(r[|r| - 1])
  {
    if s == [] then []
    else if IsWhitespace(s[|s| - 1]) then TrimEnd(s[..|s| - 1])
    else s
  }

  /** `s.trim()`. */
  function Trim(s: string): string
  {
    TrimEnd(TrimStart(s))
  }

  /** `s.trim() === ''` holds exactly for the blank strings. */
  lemma TrimEmptyIffBlank(s: string)
    ensures Trim(s) == "" <==> IsBlank(s)
  {
    if IsBlank(s) {
      BlankTrimsAway(s);
    } else {
      var t := TrimStart(s);
      assert t != [];
      TrimEndKeepsFirst(t);
    }
  }

  lemma {:induction false} BlankTrimsAway(s: string)
    requires IsBlank(s)
    ensures TrimStart(s) == []
  {
    if s != [] {
      BlankTrimsAway(s[1..]);
    }
  }

  lemma {:induction false} TrimEndKeepsFirst(t: string)
    requires t != [] && !IsWhitespace(t[0])
    ensures TrimEnd(t) != []
  {
    if |t| > 1 && IsWhitespace(t[|t| - 1]) {
      TrimEndKeepsFirst(t[..|t| - 1]);
    }
  }

  /** `toLowerCase` on one character (ASCII letters only). */
  function LowerChar(c: char): char
  {
    if 'A' <= c <= 'Z' then (c as int + 32) as char else c
  }

  /** `s.toLowerCase()`. */
  function Lower(s: string): (r: string)
    ensures |r| == |s|
    ensures forall i :: 0 <= i < |s| ==> r[i] == LowerChar(s[i])
  {
    if s == [] then [] else [LowerChar(s[0])] + Lower(s[1..])
  }

  /** `hay.includes(needle)`: `needle` occurs in `hay` at some position. */
  predicate Contains(hay: string, needle: string)
  {
    exists i | 0 <= i <= |hay| - |needle| :: OccursAt(hay, needle, i)
  }

  /** `needle` is the slice of `hay` that starts at `i`. */
  predicate OccursAt(hay: string, needle: string, i: int)
  {
    0 <= i <= |hay| - |needle| && hay[i..i + |needle|] == needle
  }

  /** The search box: `field.toLowerCase().includes(term.toLowerCase())`. */
  predicate MatchesSearch(field: string, term: string)
  {
    Contains(Lower(field), Lower(term))
  }

  /** An empty search term matches every field. */
  lemma EmptySearchMatches(field: string)
    ensures MatchesSearch(field, "")
  {
    var h := Lower(field);
    assert OccursAt(h, Lower(""), 0);
  }

  /** `toUpperCase` on one character (ASCII letters only). */
  function UpperChar(c: char): char
  {
    if 'a' <= c <= 'z' then (c as int - 32) as char else c
  }

  /** `s.toUpperCase()`. */
  function Upper(s: string): (r: string)
    ensures |r| == |s|
    ensures forall i :: 0 <= i < |s| ==> r[i] == UpperChar(s[i])
  {
    if s == [] then [] else [UpperChar(s[0])] + Upper(s[1..])
  }

  /** Lower-casing forgets an upper-casing. */
  lemma LowerOfUpper(s: string)
    ensures Lower(Upper(s)) == Lower(s)
  {
    forall i | 0 <= i < |s| ensures Lower(Upper(s))[i] == Lower(s)[i] {
      assert Upper(s)[i] == UpperChar(s[i]);
    }
  }

  /** Case does not matter to the search: terms (or fields) that agree up to case match
      alike, so in particular an upper-cased term matches exactly where the term does, and
      a term matches an upper-cased field exactly where it matches the field. */
  lemma SearchIgnoresCase(field: string, term: string, other: string)
    ensures Lower(other) == Lower(term) ==> (MatchesSearch(field, other) <==> MatchesSearch(field, term))
    ensures MatchesSearch(field, Upper(term)) <==> MatchesSearch(field, term)
    ensures MatchesSearch(Upper(field), term) <==> MatchesSearch(field, term)
  {
    LowerOfUpper(term);
    LowerOfUpper(field);
  }

  /** `s.split(sep)` for a one-character separator: the pieces between separators. */
  function Split(s: string, sep: char): (r: seq<string>)
    ensures |r| >= 1
    ensures forall i :: 0 <= i < |r| ==> sep !in r[i]
  {
    if s == [] then [""]
    else
      var rest := Split(s[1..], sep);
      if s[0] == sep then [""] + rest
      else [[s[0]] + rest[0]] + rest[1..]
  }

  /** `parts.join(sep)`. */
  function Join(parts: seq<string>, sep: char): string
  {
    if parts == [] then ""
    else if |parts| == 1 then parts[0]
    else parts[0] + [sep] + Join(parts[1..], sep)
  }

  /** A piece without separators splits to itself. */
  lemma {:induction false} SplitPiece(w: string, sep: char)
    requires sep !in w
    ensures Split(w, sep) == [w]
  {
    if w != [] {
      SplitPiece(w[1..], sep);
      assert [w[0]] + w[1..] == w;
    }
  }

  /** Splitting consumes a leading piece and its separator. */
  lemma {:induction false} SplitCons(w: string, rest: string, sep: char)
    requires sep !in w
    ensures Split(w + [sep] + rest, sep) == [w] + Split(rest, sep)
  {
    var s := w + [sep] + rest;
    if w == [] {
      assert s[1..] == rest;
    } else {
      SplitCons(w[1..], rest, sep);
      assert s[1..] == w[1..] + [sep] + rest;
      assert [w[0]] + w[1..] == w;
    }
  }

  /** Round trip one way: joining pieces that contain no separator and splitting again gives the pieces back. */
  lemma {:induction false} SplitJoin(parts: seq<string>, sep: char)
    requires |parts| >= 1
    requires forall i :: 0 <= i < |parts| ==> sep !in parts[i]
    ensures Split(Join(parts, sep), sep) == parts
  {
    if |parts| == 1 {
      SplitPiece(parts[0], sep);
    } else {
      SplitJoin(parts[1..], sep);
      SplitCons(parts[0], Join(parts[1..], sep), sep);
      assert [parts[0]] + parts[1..] == parts;
    }
  }

  /** Round trip the other way: splitting and joining with the same separator is the identity. */
  lemma {:induction false} JoinSplit(s: string, sep: char)
    ensures Join(Split(s, sep), sep) == s
  {
    if s != [] {
      JoinSplit(s[1..], sep);
      var rest := Split(s[1..], sep);
      if s[0] == sep {
        assert ([""] + rest)[1..] == rest;
      } else {
        var r := [[s[0]] + rest[0]] + rest[1..];
        if |rest| == 1 {
          assert Join(r, sep) == [s[0]] + rest[0];
        } else {
          assert r[1..] == rest[1..];
          assert Join(r, sep) == [s[0]] + (rest[0] + [sep] + Join(rest[1..], sep));
        }
      }
    }
  }

  /** `word[0]`, where `undefined` (the empty word) joins as the empty string. */
  function FirstLetter(word: string): (r: string)
    ensures |r| <= 1
  {
    if word == [] then "" else [word[0]]
  }

  /** `words.map(w => w[0]).join('')`. */
  function InitialsOfWords(words: seq<string>): (r: string)
    ensures |r| <= |words|
  {
    if words == [] then "" else FirstLetter(words[0]) + InitialsOfWords(words[1..])
  }

  /** `name.split(' ').map(n => n[0]).join('')`. */
  function Initials(name: string): string
  {
    InitialsOfWords(Split(name, ' '))
  }

  /** Initials of space-free words: exactly the first letter of each word, in order. */
  lemma {:induction false} InitialsOfWordsFirstLetters(words: seq<string>)
    requires forall i :: 0 <= i < |words| ==> words[i] != []
    ensures |InitialsOfWords(words)| == |words|
    ensures forall i :: 0 <= i < |words| ==> InitialsOfWords(words)[i] == words[i][0]
  {
    if words != [] {
      InitialsOfWordsFirstLetters(words[1..]);
    }
  }

  /** The initials of a name made of non-empty words separated by single
      spaces are the words' first letters: nothing dropped, nothing upper-cased. */
  lemma InitialsOfName(words: seq<string>)
    requires forall i :: 0 <= i < |words| ==> words[i] != [] && ' ' !in words[i]
    ensures |Initials(Join(words, ' '))| == |words|
    ensures forall i :: 0 <= i < |words| ==> Initials(Join(words, ' '))[i] == words[i][0]
  {
    if words != [] {
      SplitJoin(words, ' ');
    }
    InitialsOfWordsFirstLetters(words);
  }

  /** Initials never contain a space: every initial starts a word of the split. */
  lemma {:induction false} InitialsOfWordsSpaceFree(words: seq<string>)
    requires forall i :: 0 <= i < |words| ==> ' ' !in words[i]
    ensures ' ' !in InitialsOfWords(words)
  {
    if words != [] {
      InitialsOfWordsSpaceFree(words[1..]);
      if words[0] != [] {
        assert words[0][0] in words[0];
      }
    }
  }

  lemma InitialsSpaceFree(name: string)
    ensures ' ' !in Initials(name)
  {
    InitialsOfWordsSpaceFree(Split(name, ' '));
  }

  /** `s.slice(0, n)`. */
  function Take(s: string, n: nat): (r: string)
    ensures |r| == if |s| < n then |s| else n
    ensures r == s[..|r|]
  {
    if |s| <= n then s else s[..n]
  }
}
