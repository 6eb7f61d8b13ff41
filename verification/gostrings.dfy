/**
 * The Go standard-library string functions the eSpeak adapter relies on:
 * strings.Split on "\n", strings.Fields, strings.Join and strconv.Itoa.
 * A string is a sequence of Unicode code points.
 */
module GoStrings {

  /** unicode.IsSpace: the characters strings.Fields splits on. */
  predicate IsSpace(c: char)
  {
    var n := c as int;
    || (9 <= n <= 13)          // \t \n \v \f \r
    || n == 0x20 || n == 0x85 || n == 0xA0
    || n == 0x1680
    || (0x2000 <= n <= 0x200A)
    || n == 0x2028 || n == 0x2029 || n == 0x202F || n == 0x205F
    || n == 0x3000
  }

  /** A field: a non-empty run of non-space characters. */
  predicate IsWord(w: string)
  {
    |w| > 0 && forall i :: 0 <= i < |w| ==> !IsSpace(w[i])
  }

  // ---------------------------------------------------------------------
  // strings.Split(s, "\n")

  /** The pieces of s between newlines; there is always at least one. */
  function SplitLines(s: string): (lines: seq<string>)
    ensures |lines| >= 1
    ensures forall i :: 0 <= i < |lines| ==> '\n' !in lines[i]
    decreases |s|
  {
    if s == [] then [""]
    else if s[0] == '\n' then [""] + SplitLines(s[1..])
    else
      var rest := SplitLines(s[1..]);
      [[s[0]] + rest[0]] + rest[1..]
  }

  /** strings.Join: the parts with sep between each two. */
  function Join(parts: seq<string>, sep: string): string
    decreases |parts|
  {
    if |parts| == 0 then ""
    else if |parts| == 1 then parts[0]
    else parts[0] + sep + Join(parts[1..], sep)
  }

  /** Joining the lines of s with newlines gives s back. */
  lemma {:induction false} JoinSplitLines(s: string)
    ensures Join(SplitLines(s), "\n") == s
    decreases |s|
  {
    if s != [] {
      var rest := SplitLines(s[1..]);
      JoinSplitLines(s[1..]);
      if s[0] == '\n' {
        assert ([""] + rest)[1..] == rest;
        assert s == "\n" + s[1..];
      } else {
        var lines := [[s[0]] + rest[0]] + rest[1..];
        assert lines[1..] == rest[1..];
        if |rest| > 1 {
          assert Join(rest, "\n") == rest[0] + "\n" + Join(rest[1..], "\n");
          assert s == [s[0]] + s[1..];
        } else {
          assert s == [s[0]] + s[1..];
        }
      }
    }
  }

  /** A line without newlines, a newline, then the rest: the line comes first, then the rest's lines. */
  lemma {:induction false} SplitLinesAfterHeader(head: string, rest: string)
    requires '\n' !in head
    ensures SplitLines(head + "\n" + rest) == [head] + SplitLines(rest)
    decreases |head|
  {
    var s := head + "\n" + rest;
    if head == [] {
      assert s == "\n" + rest;
      assert s[1..] == rest;
    } else {
      assert s[1..] == head[1..] + "\n" + rest;
      SplitLinesAfterHeader(head[1..], rest);
      assert [head[0]] + head[1..] == head;
    }
  }

  // ---------------------------------------------------------------------
  // strings.Fields

  /** The length of the run of non-space characters s starts with. */
  function WordLength(s: string): (n: nat)
    ensures n <= |s|
    ensures forall i :: 0 <= i < n ==> !IsSpace(s[i])
    ensures n < |s| ==> IsSpace(s[n])
    decreases |s|
  {
    if s == [] || IsSpace(s[0]) then 0 else 1 + WordLength(s[1..])
  }

  /** strings.Fields: the maximal runs of non-space characters, in order. */
  function Fields(s: string): (fields: seq<string>)
    ensures forall i :: 0 <= i < |fields| ==> IsWord(fields[i])
    decreases |s|
  {
    if s == [] then []
    else if IsSpace(s[0]) then Fields(s[1..])
    else
      var n := WordLength(s);
      [s[..n]] + Fields(s[n..])
  }

  /** A word followed by nothing or by a space is read as one whole run. */
  lemma {:induction false} WordLengthOfWord(w: string, rest: string)
    requires forall i :: 0 <= i < |w| ==> !IsSpace(w[i])
    requires rest == [] || IsSpace(rest[0])
    ensures WordLength(w + rest) == |w|
    decreases |w|
  {
    if w != [] {
      assert (w + rest)[1..] == w[1..] + rest;
      WordLengthOfWord(w[1..], rest);
    } else {
      assert w + rest == rest;
    }
  }

  /** A run of white space, possibly empty. */
  predicate AllSpace(s: string)
  {
    forall i :: 0 <= i < |s| ==> IsSpace(s[i])
  }

  /** Leading white space is skipped. */
  lemma {:induction false} FieldsAfterSpaces(sp: string, s: string)
    requires AllSpace(sp)
    ensures Fields(sp + s) == Fields(s)
    decreases |sp|
  {
    if sp == [] {
      assert sp + s == s;
    } else {
      assert (sp + s)[1..] == sp[1..] + s;
      FieldsAfterSpaces(sp[1..], s);
    }
  }

  /**
   * A word, a run of white space and more text: the word, then the fields
   * of the text. The run may be empty only at the end of the string.
   */
  lemma FieldsOfWordThenSpaces(w: string, sp: string, rest: string)
    requires IsWord(w) && AllSpace(sp) && (sp == [] ==> rest == [])
    ensures Fields(w + sp + rest) == [w] + Fields(rest)
  {
    var t := sp + rest;
    var s := w + sp + rest;
    assert s == w + t;
    WordLengthOfWord(w, t);
    assert s[..|w|] == w;
    assert s[|w|..] == t;
    FieldsAfterSpaces(sp, rest);
  }

  /** Words, each followed by its own run of white space: w0 g0 w1 g1 ... */
  function Padded(words: seq<string>, gaps: seq<string>): string
    requires |gaps| == |words|
    decreases |words|
  {
    if words == [] then [] else words[0] + gaps[0] + Padded(words[1..], gaps[1..])
  }

  /**
   * A column-padded line: optional leading white space, then words separated
   * by runs of white space of any length, with optional trailing white
   * space. Its fields are exactly the words.
   */
  lemma {:induction false} FieldsOfPadded(lead: string, words: seq<string>, gaps: seq<string>)
    requires AllSpace(lead) && |gaps| == |words|
    requires forall i :: 0 <= i < |words| ==> IsWord(words[i]) && AllSpace(gaps[i])
    requires forall i :: 0 <= i < |words| - 1 ==> gaps[i] != []
    ensures Fields(lead + Padded(words, gaps)) == words
    decreases |words|
  {
    FieldsAfterSpaces(lead, Padded(words, gaps));
    if words != [] {
      var tail := Padded(words[1..], gaps[1..]);
      if |words| == 1 {
        assert tail == [];
      }
      FieldsOfWordThenSpaces(words[0], gaps[0], tail);
      FieldsOfPadded([], words[1..], gaps[1..]);
      assert [] + tail == tail;
      assert [words[0]] + words[1..] == words;
    }
  }

  /** Splitting space-joined words into fields gives the words back. */
  lemma {:induction false} FieldsOfJoin(words: seq<string>)
    requires forall i :: 0 <= i < |words| ==> IsWord(words[i])
    ensures Fields(Join(words, " ")) == words
    decreases |words|
  {
    if |words| == 1 {
      var w := words[0];
      WordLengthOfWord(w, []);
      assert w + [] == w;
      assert w[|w|..] == [];
    } else if |words| > 1 {
      FieldsOfJoin(words[1..]);
      assert IsSpace(' ');
      FieldsOfWordThenSpaces(words[0], " ", Join(words[1..], " "));
      assert [words[0]] + words[1..] == words;
    }
  }

  /** Space-joined words are empty exactly when there are no words. */
  lemma JoinWordsEmpty(words: seq<string>)
    requires forall i :: 0 <= i < |words| ==> IsWord(words[i])
    ensures Join(words, " ") == "" <==> |words| == 0
  {
    if |words| > 1 {
      assert |Join(words, " ")| >= |words[0]|;
    }
  }

  // ---------------------------------------------------------------------
  // strconv.Itoa

  /** The character of one decimal digit. */
  function DigitChar(d: int): (c: char)
    requires 0 <= d < 10
    ensures '0' <= c <= '9' && c as int - '0' as int == d
  {
    ('0' as int + d) as char
  }

  /** The decimal digits of a natural number, most significant first. */
  function Digits(n: nat): (s: string)
    ensures |s| >= 1
    ensures forall i :: 0 <= i < |s| ==> '0' <= s[i] <= '9'
    decreases n
  {
    if n < 10 then [DigitChar(n)] else Digits(n / 10) + [DigitChar(n % 10)]
  }

  /** strconv.Itoa: a minus sign for negative numbers, then the digits of the magnitude. */
  function Itoa(n: int): (s: string)
    ensures |s| >= 1
    ensures s[0] == '-' <==> n < 0
  {
    if n < 0 then "-" + Digits(-n) else Digits(n)
  }

  /** The value of a string of decimal digits. */
  function DigitsValue(s: string): nat
    requires forall i :: 0 <= i < |s| ==> '0' <= s[i] <= '9'
    decreases |s|
  {
    if s == [] then 0 else DigitsValue(s[..|s| - 1]) * 10 + (s[|s| - 1] as int - '0' as int)
  }

  /** The digits Itoa writes read back as the number. */
  lemma {:induction false} DigitsRoundTrip(n: nat)
    ensures DigitsValue(Digits(n)) == n
    decreases n
  {
    var s := Digits(n);
    if n >= 10 {
      var high := Digits(n / 10);
      assert s == high + [DigitChar(n % 10)];
      assert s[..|s| - 1] == high;
      DigitsRoundTrip(n / 10);
    }
  }
}
