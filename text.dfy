/**
 * The JavaScript string built-ins the command palette relies on, as functions
 * over `seq<char>`: `split` and `join` on a one-character separator, `trim`,
 * `replace(/c/g, d)`, and the "upper-case the first character of every word"
 * idiom used for labels and tool names. Upper-casing is ASCII only and the
 * whitespace set is written out explicitly.
 */
module Text {

  /** The characters `String.prototype.trim` removes: ECMAScript WhiteSpace and LineTerminator. */
  predicate IsWhitespace(c: char) {
    || c == ' ' || c == '\t' || c == '\n' || c == '\r'
    || c == '\U{000B}' || c == '\U{000C}' || c == '\U{00A0}' || c == '\U{1680}'
    || ('\U{2000}' <= c <= '\U{200A}')
    || c == '\U{2028}' || c == '\U{2029}' || c == '\U{202F}' || c == '\U{205F}'
    || c == '\U{3000}' || c == '\U{FEFF}'
  }

  /** `toUpperCase` on one character, restricted to the ASCII letters. */
  function ToUpper(c: char): (u: char)
    ensures 'a' <= c <= 'z' ==> 'A' <= u <= 'Z' && u as int == c as int - 32
    ensures !('a' <= c <= 'z') ==> u == c
  {
    if 'a' <= c <= 'z' then (c as int - 32) as char else c
  }

  /** `parts.join(sep)`. */
  function Join(parts: seq<string>, sep: string): string
  {
    if |parts| == 0 then ""
    else if |parts| == 1 then parts[0]
    else parts[0] + sep + Join(parts[1..], sep)
  }

  /** `s.split(sep)` for a one-character separator: never empty. */
  function Split(s: string, sep: char): (parts: seq<string>)
    ensures |parts| >= 1
  {
    if s == [] then [[]]
    else
      var rest := Split(s[1..], sep);
      if s[0] == sep then [[]] + rest
      else [[s[0]] + rest[0]] + rest[1..]
  }

  /** No part of a split holds the separator. */
  lemma {:induction false} SplitPartsFree(s: string, sep: char)
    ensures forall i :: 0 <= i < |Split(s, sep)| ==> sep !in Split(s, sep)[i]
  {
    if s != [] {
      SplitPartsFree(s[1..], sep);
      var rest := Split(s[1..], sep);
      if s[0] != sep {
        assert sep !in [s[0]] + rest[0];
      }
    }
  }

  /** `s.replace(/from/g, to)` for single characters. */
  function ReplaceAll(s: string, from: char, to: char): (r: string)
    ensures |r| == |s|
  {
    if s == [] then [] else [if s[0] == from then to else s[0]] + ReplaceAll(s[1..], from, to)
  }

  /** Every occurrence of `from` becomes `to`; every other character is kept in place. */
  lemma {:induction false} ReplaceAllAt(s: string, from: char, to: char)
    ensures forall i :: 0 <= i < |s| ==> ReplaceAll(s, from, to)[i] == if s[i] == from then to else s[i]
  {
    if s != [] {
      ReplaceAllAt(s[1..], from, to);
    }
  }

  /** Leading whitespace removed: a suffix of `s`, everything cut was whitespace, and it starts with none. */
  function TrimStart(s: string): (r: string)
    ensures |r| <= |s|
  {
    if s != [] && IsWhitespace(s[0]) then TrimStart(s[1..]) else s
  }

  lemma {:induction false} TrimStartSpec(s: string)
    ensures TrimStart(s) == s[|s| - |TrimStart(s)|..]
    ensures forall i :: 0 <= i < |s| - |TrimStart(s)| ==> IsWhitespace(s[i])
    ensures TrimStart(s) == [] || !IsWhitespace(TrimStart(s)[0])
  {
    if s != [] && IsWhitespace(s[0]) {
      TrimStartSpec(s[1..]);
    }
  }

  /** Trailing whitespace removed: a prefix of `s`, everything cut was whitespace, and it ends with none. */
  function TrimEnd(s: string): (r: string)
    ensures |r| <= |s|
  {
    if s != [] && IsWhitespace(s[|s| - 1]) then TrimEnd(s[..|s| - 1]) else s
  }

  lemma {:induction false} TrimEndSpec(s: string)
    ensures TrimEnd(s) == s[..|TrimEnd(s)|]
    ensures forall i :: |TrimEnd(s)| <= i < |s| ==> IsWhitespace(s[i])
    ensures TrimEnd(s) == [] || !IsWhitespace(TrimEnd(s)[|TrimEnd(s)| - 1])
  {
    if s != [] && IsWhitespace(s[|s| - 1]) {
      TrimEndSpec(s[..|s| - 1]);
    }
  }

  /** `s.trim()`. */
  function Trim(s: string): string
  {
    TrimEnd(TrimStart(s))
  }

  /** Trim gives the empty string exactly for all-whitespace input; otherwise neither end of its result is whitespace. */
  lemma TrimBlank(s: string)
    ensures |Trim(s)| <= |s|
    ensures Trim(s) == [] <==> forall i :: 0 <= i < |s| ==> IsWhitespace(s[i])
    ensures Trim(s) != [] ==> !IsWhitespace(Trim(s)[0]) && !IsWhitespace(Trim(s)[|Trim(s)| - 1])
  {
    var t := TrimStart(s);
    TrimStartSpec(s);
    TrimEndSpec(t);
    assert Trim(s) == [] ==> t == [];
  }

  /** `w.charAt(0).toUpperCase() + w.slice(1)`; the empty word stays empty. */
  function CapitalizeWord(w: string): string
  {
    if w == [] then [] else [ToUpper(w[0])] + w[1..]
  }

  /** `words.map(CapitalizeWord)`. */
  function CapitalizeAll(words: seq<string>): (r: seq<string>)
    ensures |r| == |words|
  {
    if words == [] then [] else [CapitalizeWord(words[0])] + CapitalizeAll(words[1..])
  }

  /** `s.split(sep).map(CapitalizeWord).join(" ")`. */
  function TitleCase(s: string, sep: char): string
  {
    Join(CapitalizeAll(Split(s, sep)), " ")
  }

  /**
   * What TitleCase puts at position `i` of `s`: a separator becomes a space, a
   * character that starts a word is upper-cased, every other one is kept.
   * `atWordStart` says whether `s[0]` starts a word.
   */
  function TitleCharAt(s: string, sep: char, atWordStart: bool, i: nat): char
    requires i < |s|
  {
    if s[i] == sep then ' '
    else if (if i == 0 then atWordStart else s[i - 1] == sep) then ToUpper(s[i])
    else s[i]
  }

  /** Character-by-character reference for TitleCase, one character per step. */
  function TitleCaseFrom(s: string, sep: char, atWordStart: bool): (r: string)
    ensures |r| == |s|
    ensures forall i :: 0 <= i < |s| ==> r[i] == TitleCharAt(s, sep, atWordStart, i)
  {
    if s == [] then []
    else
      var tail := TitleCaseFrom(s[1..], sep, s[0] == sep);
      var r := [TitleCharAt(s, sep, atWordStart, 0)] + tail;
      assert forall i | 1 <= i < |s| :: r[i] == TitleCharAt(s, sep, atWordStart, i) by {
        forall i | 1 <= i < |s| ensures r[i] == TitleCharAt(s, sep, atWordStart, i) {
          assert r[i] == tail[i - 1] == TitleCharAt(s[1..], sep, s[0] == sep, i - 1);
          assert s[1..][i - 1] == s[i];
          if i >= 2 {
            assert s[1..][i - 2] == s[i - 1];
          }
        }
      }
      r
  }

  // ---------------------------------------------------------------------------
  // Split and Join are inverse to each other.

  lemma JoinUnfold(first: string, rest: seq<string>, sep: string)
    requires rest != []
    ensures Join([first] + rest, sep) == first + sep + Join(rest, sep)
  {
    assert ([first] + rest)[1..] == rest;
  }

  /** Putting a character in front of the first part puts it in front of the join. */
  lemma JoinConsFirst(c: char, parts: seq<string>, sep: string)
    requires parts != []
    ensures Join([[c] + parts[0]] + parts[1..], sep) == [c] + Join(parts, sep)
  {
    if |parts| > 1 {
      JoinUnfold([c] + parts[0], parts[1..], sep);
      JoinUnfold(parts[0], parts[1..], sep);
      assert parts == [parts[0]] + parts[1..];
    }
  }

  /** Joining the parts of a split with the same separator gives back the string. */
  lemma {:induction false} JoinSplit(s: string, sep: char)
    ensures Join(Split(s, sep), [sep]) == s
  {
    if s != [] {
      var rest := Split(s[1..], sep);
      JoinSplit(s[1..], sep);
      assert s == [s[0]] + s[1..];
      if s[0] == sep {
        assert Split(s, sep) == [[]] + rest;
        JoinUnfold([], rest, [sep]);
      } else {
        assert Split(s, sep) == [[s[0]] + rest[0]] + rest[1..];
        JoinConsFirst(s[0], rest, [sep]);
      }
    }
  }

  lemma {:induction false} SplitPrepend(w: string, t: string, sep: char)
    requires sep !in w
    ensures Split(w + t, sep) == [w + Split(t, sep)[0]] + Split(t, sep)[1..]
  {
    if w == [] {
      var parts := Split(t, sep);
      assert w + t == t;
      assert w + parts[0] == parts[0];
      assert [parts[0]] + parts[1..] == parts;
    } else {
      SplitPrepend(w[1..], t, sep);
      assert (w + t)[1..] == w[1..] + t;
      assert [w[0]] + (w[1..] + Split(t, sep)[0]) == w + Split(t, sep)[0];
    }
  }

  /** Splitting a join of separator-free parts gives back the parts. */
  lemma {:induction false} SplitJoin(parts: seq<string>, sep: char)
    requires |parts| >= 1
    requires forall i :: 0 <= i < |parts| ==> sep !in parts[i]
    ensures Split(Join(parts, [sep]), sep) == parts
  {
    if |parts| == 1 {
      SplitPrepend(parts[0], [], sep);
      assert parts[0] + [] == parts[0];
    } else {
      SplitJoin(parts[1..], sep);
      var t := [sep] + Join(parts[1..], [sep]);
      assert Join(parts, [sep]) == parts[0] + t;
      SplitPrepend(parts[0], t, sep);
      assert t[1..] == Join(parts[1..], [sep]);
      assert Split(t, sep) == [[]] + parts[1..];
      assert parts[0] + [] == parts[0];
      assert parts == [parts[0]] + parts[1..];
    }
  }

  /** Joining two non-empty lists is joining their joins. */
  lemma {:induction false} JoinAppend(a: seq<string>, b: seq<string>, sep: string)
    requires a != [] && b != []
    ensures Join(a + b, sep) == Join(a, sep) + sep + Join(b, sep)
  {
    if |a| == 1 {
      JoinUnfold(a[0], b, sep);
      assert a + b == [a[0]] + b;
    } else {
      JoinAppend(a[1..], b, sep);
      assert a + b == [a[0]] + (a[1..] + b);
      JoinUnfold(a[0], a[1..] + b, sep);
      JoinUnfold(a[0], a[1..], sep);
      assert a == [a[0]] + a[1..];
    }
  }

  // ---------------------------------------------------------------------------
  // TitleCase agrees with its character-by-character reference.

  /** Join of the split words, capitalising the first word only when `capFirst`. */
  function JoinWords(words: seq<string>, capFirst: bool): string
    requires words != []
  {
    Join([if capFirst then CapitalizeWord(words[0]) else words[0]] + CapitalizeAll(words[1..]), " ")
  }

  lemma {:induction false} JoinWordsSplit(s: string, sep: char, atWordStart: bool)
    ensures JoinWords(Split(s, sep), atWordStart) == TitleCaseFrom(s, sep, atWordStart)
  {
    if s != [] {
      JoinWordsSplit(s[1..], sep, s[0] == sep);
      JoinWordsSplitStep(s, sep, atWordStart);
    }
  }

  /** One step of JoinWordsSplit: the first character of `s` is handled alike on both sides. */
  lemma JoinWordsSplitStep(s: string, sep: char, atWordStart: bool)
    requires s != []
    requires JoinWords(Split(s[1..], sep), s[0] == sep) == TitleCaseFrom(s[1..], sep, s[0] == sep)
    ensures JoinWords(Split(s, sep), atWordStart) == TitleCaseFrom(s, sep, atWordStart)
  {
    var rest := Split(s[1..], sep);
    var tail := CapitalizeAll(rest[1..]);
    assert TitleCaseFrom(s, sep, atWordStart) == [TitleCharAt(s, sep, atWordStart, 0)] + TitleCaseFrom(s[1..], sep, s[0] == sep);
    if s[0] == sep {
      assert JoinWords(Split(s, sep), atWordStart) == Join([[]] + CapitalizeAll(rest), " ") by {
        assert Split(s, sep) == [[]] + rest;
        assert CapitalizeAll(rest) == [CapitalizeWord(rest[0])] + tail;
      }
      JoinUnfold([], CapitalizeAll(rest), " ");
    } else {
      var w := rest[0];
      var head := if atWordStart then ToUpper(s[0]) else s[0];
      assert JoinWords(Split(s, sep), atWordStart) == Join([[head] + w] + tail, " ") by {
        assert Split(s, sep) == [[s[0]] + w] + rest[1..];
      }
      assert ([w] + tail)[0] == w && ([w] + tail)[1..] == tail;
      JoinConsFirst(head, [w] + tail, " ");
    }
  }

  /** TitleCase keeps the length, turns separators into spaces and upper-cases exactly the word-initial characters. */
  lemma TitleCaseAt(s: string, sep: char)
    ensures |TitleCase(s, sep)| == |s|
    ensures forall i {:trigger TitleCase(s, sep)[i]} :: 0 <= i < |s| ==>
      TitleCase(s, sep)[i] == if s[i] == sep then ' '
                              else if i == 0 || s[i - 1] == sep then ToUpper(s[i])
                              else s[i]
  {
    var words := Split(s, sep);
    JoinWordsSplit(s, sep, true);
    assert CapitalizeAll(words) == [CapitalizeWord(words[0])] + CapitalizeAll(words[1..]);
  }
}
