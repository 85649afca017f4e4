/** Turning a line into tokens: `remove_extra_spaces` followed by `str.split`.

    `remove_extra_spaces` strips the line, then lets `re.sub` replace every
    operator character together with the whitespace around it by the
    operator between two single spaces.
    Here `Strip`, `Substitute` and `Split` follow `str.strip`, that regular
    expression substitution and `str.split` character by character, and
    `Lex` is an independent description of the result: a scan that keeps
    every operator character as a token of its own and every maximal run of
    other non-space characters as one token.  `TokenizeIsLex` proves the two
    agree. */
module Tokenizer {
  import opened Values

  /** Whitespace as `str.isspace` and `\s` see it among ASCII characters:
      tab, line feed, vertical tab, form feed, carriage return, the four
      information separators 0x1C..0x1F and the space. */
  predicate IsSpace(c: char) {
    ('\t' <= c <= '\r') || ('\U{1C}' <= c <= ' ')
  }

  /** The eight operator characters `- + / * ^ ( ) =` of `supported_operators`. */
  predicate IsOperatorChar(c: char) {
    c == '-' || c == '+' || c == '/' || c == '*' || c == '^' || c == '(' || c == ')' || c == '='
  }

  /** A character that is part of a word: neither whitespace nor an operator. */
  predicate IsWordChar(c: char) {
    !IsSpace(c) && !IsOperatorChar(c)
  }

  predicate NoSpace(s: string) {
    forall i | 0 <= i < |s| :: !IsSpace(s[i])
  }

  // ---------------------------------------------------------------------
  // str.strip
  // ---------------------------------------------------------------------

  function TrimStart(s: string): (r: string)
    ensures r == [] || !IsSpace(r[0])
    ensures |r| <= |s| && r == s[|s| - |r|..]
    ensures forall i | 0 <= i < |s| - |r| :: IsSpace(s[i])
  {
    if s != [] && IsSpace(s[0]) then TrimStart(s[1..]) else s
  }

  function TrimEnd(s: string): (r: string)
    ensures r == [] || !IsSpace(r[|r| - 1])
    ensures |r| <= |s| && r == s[..|r|]
    ensures forall i | |r| <= i < |s| :: IsSpace(s[i])
  {
    if s != [] && IsSpace(s[|s| - 1]) then TrimEnd(s[..|s| - 1]) else s
  }

  /** `str.strip()` with no argument. */
  function Strip(s: string): string {
    TrimEnd(TrimStart(s))
  }

  // ---------------------------------------------------------------------
  // re.sub(supported_operators, ' \\1 ', s)
  // ---------------------------------------------------------------------

  /** The length of the whitespace run at the front of `s`: what the greedy
      `\s*` matches there. */
  function SpaceRun(s: string): (n: nat)
    ensures n <= |s|
    ensures forall i | 0 <= i < n :: IsSpace(s[i])
    ensures n == |s| || !IsSpace(s[n])
  {
    if s != [] && IsSpace(s[0]) then 1 + SpaceRun(s[1..]) else 0
  }

  /** The substitution, scanning left to right as `re.sub` does.  At the
      current position the pattern matches exactly when the whitespace run
      there is followed by an operator character (backing off the greedy
      `\s*` only leaves a whitespace character where the operator must be);
      a match, with the whitespace run after the operator, is replaced by
      the operator between two spaces.  Without a match one character is
      copied and the search resumes at the next position. */
  function Substitute(s: string): string
    decreases |s|
  {
    if s == [] then []
    else
      var k := SpaceRun(s);
      if k < |s| && IsOperatorChar(s[k]) then
        var rest := s[k + 1..];
        [' ', s[k], ' '] + Substitute(rest[SpaceRun(rest)..])
      else
        [s[0]] + Substitute(s[1..])
  }

  /** `Calculator.remove_extra_spaces` */
  function RemoveExtraSpaces(line: string): string {
    Substitute(Strip(line))
  }

  // ---------------------------------------------------------------------
  // str.split()
  // ---------------------------------------------------------------------

  /** The length of the run of non-space characters at the front of `s`. */
  function NonSpaceRun(s: string): (n: nat)
    ensures n <= |s|
    ensures forall i | 0 <= i < n :: !IsSpace(s[i])
    ensures n == |s| || IsSpace(s[n])
  {
    if s != [] && !IsSpace(s[0]) then 1 + NonSpaceRun(s[1..]) else 0
  }

  /** `str.split()` with no argument: the maximal runs of non-space characters. */
  function Split(s: string): seq<string>
    decreases |s|
  {
    if s == [] then []
    else if IsSpace(s[0]) then Split(s[1..])
    else
      var n := NonSpaceRun(s);
      [s[..n]] + Split(s[n..])
  }

  /** The tokens of a line, as `process_expression` computes them. */
  function Tokenize(line: string): seq<string> {
    Split(RemoveExtraSpaces(line))
  }

  // ---------------------------------------------------------------------
  // The reference scan
  // ---------------------------------------------------------------------

  /** The length of the run of word characters at the front of `s`. */
  function WordRun(s: string): (n: nat)
    ensures n <= |s|
    ensures forall i | 0 <= i < n :: IsWordChar(s[i])
    ensures n == |s| || !IsWordChar(s[n])
  {
    if s != [] && IsWordChar(s[0]) then 1 + WordRun(s[1..]) else 0
  }

  /** Tokens read directly off the characters: whitespace separates, every
      operator character is a token by itself, and every maximal run of other
      characters is one token. */
  function Lex(s: string): seq<string>
    decreases |s|
  {
    if s == [] then []
    else if IsSpace(s[0]) then Lex(s[1..])
    else if IsOperatorChar(s[0]) then [[s[0]]] + Lex(s[1..])
    else
      var n := WordRun(s);
      [s[..n]] + Lex(s[n..])
  }

  /** The characters of `s` other than whitespace, in order. */
  function RemoveSpaces(s: string): (r: string)
    ensures NoSpace(r)
  {
    if s == [] then []
    else if IsSpace(s[0]) then RemoveSpaces(s[1..])
    else [s[0]] + RemoveSpaces(s[1..])
  }

  /** The tokens written one after the other. */
  function Concat(ts: seq<string>): string {
    if ts == [] then [] else ts[0] + Concat(ts[1..])
  }

  /** What every token of the tokenizer looks like: not empty, no whitespace,
      and an operator character only as a one-character token. */
  predicate WellFormedToken(t: string) {
    && t != []
    && NoSpace(t)
    && (|t| == 1 || forall i | 0 <= i < |t| :: !IsOperatorChar(t[i]))
  }

  // ---------------------------------------------------------------------
  // Properties of the reference scan
  // ---------------------------------------------------------------------

  lemma {:induction false} RemoveSpacesAppend(a: string, b: string)
    ensures RemoveSpaces(a + b) == RemoveSpaces(a) + RemoveSpaces(b)
    decreases |a|
  {
    if a != [] {
      assert (a + b)[0] == a[0];
      assert (a + b)[1..] == a[1..] + b;
      RemoveSpacesAppend(a[1..], b);
      if !IsSpace(a[0]) {
        calc {
          RemoveSpaces(a + b);
          [a[0]] + RemoveSpaces(a[1..] + b);
          [a[0]] + (RemoveSpaces(a[1..]) + RemoveSpaces(b));
          ([a[0]] + RemoveSpaces(a[1..])) + RemoveSpaces(b);
        }
      }
    } else {
      assert a + b == b;
    }
  }

  lemma {:induction false} RemoveSpacesOfNoSpace(a: string)
    requires NoSpace(a)
    ensures RemoveSpaces(a) == a
    decreases |a|
  {
    if a != [] {
      RemoveSpacesOfNoSpace(a[1..]);
    }
  }

  lemma ConcatCons(t: string, ts: seq<string>)
    ensures Concat([t] + ts) == t + Concat(ts)
  {
    assert ([t] + ts)[1..] == ts;
  }

  /** Joining the tokens of the scan gives the line with its whitespace removed. */
  lemma {:induction false} LexConcat(s: string)
    ensures Concat(Lex(s)) == RemoveSpaces(s)
    decreases |s|
  {
    if s == [] {
    } else if IsSpace(s[0]) {
      LexConcat(s[1..]);
    } else if IsOperatorChar(s[0]) {
      LexConcat(s[1..]);
      ConcatCons([s[0]], Lex(s[1..]));
    } else {
      var n := WordRun(s);
      var word, rest := s[..n], s[n..];
      assert Lex(s) == [word] + Lex(rest);
      LexConcat(rest);
      ConcatCons(word, Lex(rest));
      assert s == word + rest;
      RemoveSpacesAppend(word, rest);
      RemoveSpacesOfNoSpace(word);
    }
  }

  /** Every token of the scan is well formed. */
  lemma {:induction false} LexTokens(s: string)
    ensures forall t <- Lex(s) :: WellFormedToken(t)
    decreases |s|
  {
    if s == [] {
    } else if IsSpace(s[0]) {
      LexTokens(s[1..]);
    } else if IsOperatorChar(s[0]) {
      LexTokens(s[1..]);
    } else {
      var n := WordRun(s);
      LexTokens(s[n..]);
      assert WellFormedToken(s[..n]);
    }
  }

  // ---------------------------------------------------------------------
  // The regular-expression pipeline agrees with the scan
  // ---------------------------------------------------------------------

  /** Leading whitespace does not change the scan. */
  lemma {:induction false} LexSkipsSpaces(s: string, k: nat)
    requires k <= |s|
    requires forall i | 0 <= i < k :: IsSpace(s[i])
    ensures Lex(s) == Lex(s[k..])
    decreases k
  {
    if k > 0 {
      LexSkipsSpaces(s[1..], k - 1);
      assert s[1..][k - 1..] == s[k..];
    }
  }

  lemma {:induction false} WordRunAppendSpace(s: string, c: char)
    requires IsSpace(c)
    ensures WordRun(s + [c]) == WordRun(s)
    decreases |s|
  {
    if s != [] && IsWordChar(s[0]) {
      assert (s + [c])[1..] == s[1..] + [c];
      WordRunAppendSpace(s[1..], c);
    }
  }

  /** Trailing whitespace does not change the scan. */
  lemma {:induction false} LexAppendSpace(s: string, c: char)
    requires IsSpace(c)
    ensures Lex(s + [c]) == Lex(s)
    decreases |s|
  {
    if s == [] {
      assert Lex([c]) == Lex([]);
    } else {
      var sc := s + [c];
      if IsSpace(s[0]) || IsOperatorChar(s[0]) {
        assert sc[1..] == s[1..] + [c];
        LexAppendSpace(s[1..], c);
      } else {
        var n := WordRun(s);
        WordRunAppendSpace(s, c);
        assert sc[..n] == s[..n];
        assert sc[n..] == s[n..] + [c];
        LexAppendSpace(s[n..], c);
      }
    }
  }

  /** No word of `s` is longer than one character. */
  predicate ShortWords(s: string)
    decreases |s|
  {
    |s| < 2 || ((IsWordChar(s[0]) ==> !IsWordChar(s[1])) && ShortWords(s[1..]))
  }

  /** Every character other than whitespace as a token of its own: the scan
      of a line whose words are single characters. */
  function Singles(s: string): seq<string>
    decreases |s|
  {
    if s == [] then []
    else if IsSpace(s[0]) then Singles(s[1..])
    else [[s[0]]] + Singles(s[1..])
  }

  lemma {:induction false} LexSingles(s: string)
    requires ShortWords(s)
    ensures Lex(s) == Singles(s)
    decreases |s|
  {
    if s != [] {
      LexSingles(s[1..]);
      if IsWordChar(s[0]) {
        assert WordRun(s) == 1 by {
          assert |s| == 1 || !IsWordChar(s[1]);
          assert WordRun(s[1..]) == 0;
        }
        assert s[..1] == [s[0]];
      }
    }
  }

  lemma {:induction false} SinglesAppend(a: string, b: string)
    ensures Singles(a + b) == Singles(a) + Singles(b)
    decreases |a|
  {
    if a == [] {
      assert a + b == b;
    } else {
      assert (a + b)[1..] == a[1..] + b;
      SinglesAppend(a[1..], b);
    }
  }

  /** A word cannot run on across a cut before whitespace or an operator. */
  lemma {:induction false} ShortWordsAppend(a: string, b: string)
    requires ShortWords(a) && ShortWords(b) && (b == [] || !IsWordChar(b[0]))
    ensures ShortWords(a + b)
    decreases |a|
  {
    if a == [] {
      assert a + b == b;
    } else {
      assert (a + b)[1..] == a[1..] + b;
      ShortWordsAppend(a[1..], b);
    }
  }

  lemma {:induction false} LexTrimEnd(s: string)
    ensures Lex(TrimEnd(s)) == Lex(s)
    decreases |s|
  {
    if s != [] && IsSpace(s[|s| - 1]) {
      LexTrimEnd(s[..|s| - 1]);
      assert s == s[..|s| - 1] + [s[|s| - 1]];
      LexAppendSpace(s[..|s| - 1], s[|s| - 1]);
    }
  }

  /** Stripping the line does not change the scan. */
  lemma LexStrip(s: string)
    ensures Lex(Strip(s)) == Lex(s)
  {
    var t := TrimStart(s);
    LexSkipsSpaces(s, |s| - |t|);
    LexTrimEnd(t);
  }

  /** The first character of the substitution is whitespace exactly when the
      first character of the input is not a word character. */
  lemma SubstituteHead(s: string)
    requires s != []
    ensures Substitute(s) != []
    ensures IsSpace(Substitute(s)[0]) <==> !IsWordChar(s[0])
    ensures IsWordChar(s[0]) ==> Substitute(s)[0] == s[0]
  {
  }

  lemma SplitSpaceFirst(c: char, y: string)
    requires IsSpace(c)
    ensures Split([c] + y) == Split(y)
  {
    assert ([c] + y)[1..] == y;
  }

  /** A non-space character in front of a string that starts with a space is
      a token of its own. */
  lemma {:induction false} SplitAlone(c: char, y: string)
    requires !IsSpace(c)
    requires y == [] || IsSpace(y[0])
    ensures Split([c] + y) == [[c]] + Split(y)
  {
    var s := [c] + y;
    assert NonSpaceRun(s) == 1 by {
      assert s[1..] == y;
    }
    assert s[..1] == [c] && s[1..] == y;
  }

  /** A non-space character in front of a string that starts with a non-space
      character joins the first token. */
  lemma {:induction false} SplitJoin(c: char, y: string)
    requires !IsSpace(c)
    requires y != [] && !IsSpace(y[0])
    ensures Split(y) != []
    ensures Split([c] + y) == [[c] + Split(y)[0]] + Split(y)[1..]
  {
    var s := [c] + y;
    assert s[1..] == y;
    var n := NonSpaceRun(y);
    assert Split(y) == [y[..n]] + Split(y[n..]);
    assert NonSpaceRun(s) == n + 1;
    assert s[..n + 1] == [c] + y[..n];
    assert s[n + 1..] == y[n..];
  }

  lemma {:induction false} LexAlone(c: char, y: string)
    requires IsWordChar(c)
    requires y == [] || !IsWordChar(y[0])
    ensures Lex([c] + y) == [[c]] + Lex(y)
  {
    var s := [c] + y;
    assert WordRun(s) == 1 by {
      assert s[1..] == y;
    }
    assert s[..1] == [c] && s[1..] == y;
  }

  lemma {:induction false} LexJoin(c: char, y: string)
    requires IsWordChar(c)
    requires y != [] && IsWordChar(y[0])
    ensures Lex(y) != []
    ensures Lex([c] + y) == [[c] + Lex(y)[0]] + Lex(y)[1..]
  {
    var s := [c] + y;
    assert s[1..] == y;
    var n := WordRun(y);
    assert WordRun(s) == n + 1;
    assert s[..n + 1] == [c] + y[..n];
    assert s[n + 1..] == y[n..];
    assert Lex(y) == [y[..n]] + Lex(y[n..]);
    assert Lex(s) == [s[..n + 1]] + Lex(s[n + 1..]);
  }

  /** An operator between two spaces is a token of its own. */
  lemma SplitOperator(c: char, tail: string)
    requires !IsSpace(c)
    ensures Split([' ', c, ' '] + tail) == [[c]] + Split(tail)
  {
    assert [' ', c, ' '] + tail == [' '] + ([c] + ([' '] + tail));
    SplitSpaceFirst(' ', [c] + ([' '] + tail));
    SplitAlone(c, [' '] + tail);
    SplitSpaceFirst(' ', tail);
  }

  /** An operator character after a run of whitespace is a token of its own. */
  lemma LexOperator(s: string, k: nat)
    requires k < |s| && IsOperatorChar(s[k])
    requires forall i | 0 <= i < k :: IsSpace(s[i])
    ensures Lex(s) == [[s[k]]] + Lex(s[k + 1..])
  {
    LexSkipsSpaces(s, k);
    assert s[k..][1..] == s[k + 1..];
  }

  /** The substitution when the pattern matches at the front of `s`. */
  lemma {:induction false} SplitSubstituteMatch(s: string, k: nat)
    requires k == SpaceRun(s) && k < |s| && IsOperatorChar(s[k])
    requires Split(Substitute(s[k + 1..][SpaceRun(s[k + 1..])..])) == Lex(s[k + 1..][SpaceRun(s[k + 1..])..])
    ensures Split(Substitute(s)) == Lex(s)
  {
    var rest := s[k + 1..];
    var m := SpaceRun(rest);
    var tail := Substitute(rest[m..]);
    assert Substitute(s) == [' ', s[k], ' '] + tail;
    SplitOperator(s[k], tail);
    LexSkipsSpaces(rest, m);
    LexOperator(s, k);
  }

  /** Without a match at the front, the substitution copies one character. */
  lemma SubstituteCopy(s: string)
    requires s != []
    requires !(SpaceRun(s) < |s| && IsOperatorChar(s[SpaceRun(s)]))
    ensures Substitute(s) == [s[0]] + Substitute(s[1..])
  {
  }

  /** The substitution when the front word character is copied. */
  lemma SplitSubstituteWord(s: string)
    requires s != [] && IsWordChar(s[0])
    requires Split(Substitute(s[1..])) == Lex(s[1..])
    ensures Split(Substitute(s)) == Lex(s)
  {
    var c, t := s[0], s[1..];
    SubstituteCopy(s);
    assert s == [c] + t;
    if t != [] && IsWordChar(t[0]) {
      SubstituteHead(t);
      SplitJoin(c, Substitute(t));
      LexJoin(c, t);
    } else {
      if t != [] {
        SubstituteHead(t);
      }
      SplitAlone(c, Substitute(t));
      LexAlone(c, t);
    }
  }

  /** Splitting the substituted text gives the reference scan. */
  lemma {:induction false} SplitSubstitute(s: string)
    ensures Split(Substitute(s)) == Lex(s)
    decreases |s|
  {
    if s == [] {
      return;
    }
    var k := SpaceRun(s);
    if k < |s| && IsOperatorChar(s[k]) {
      var rest := s[k + 1..];
      SplitSubstitute(rest[SpaceRun(rest)..]);
      SplitSubstituteMatch(s, k);
    } else {
      SplitSubstitute(s[1..]);
      if IsSpace(s[0]) {
        SubstituteCopy(s);
        SplitSpaceFirst(s[0], Substitute(s[1..]));
      } else {
        SplitSubstituteWord(s);
      }
    }
  }

  /** The tokenizer (strip, substitution, split) is the reference scan. */
  lemma TokenizeIsLex(line: string)
    ensures Tokenize(line) == Lex(line)
  {
    SplitSubstitute(Strip(line));
    LexStrip(line);
  }

  /** The tokenizer's promises: joining the tokens gives the line without its
      whitespace; no token is empty or holds whitespace; each of
      `- + / * ^ ( ) =` is a one-character token. */
  lemma TokenizeProperties(line: string)
    ensures Concat(Tokenize(line)) == RemoveSpaces(line)
    ensures forall t <- Tokenize(line) :: WellFormedToken(t)
  {
    TokenizeIsLex(line);
    LexConcat(line);
    LexTokens(line);
  }

  // ---------------------------------------------------------------------
  // string.split(' = ', 1) in process_assignment
  // ---------------------------------------------------------------------

  /** `s[j:j + 3] == ' = '` */
  predicate SeparatorAt(s: string, j: int) {
    0 <= j && j + 3 <= |s| && s[j] == ' ' && s[j + 1] == '=' && s[j + 2] == ' '
  }

  /** Where `s.split(' = ', 1)` cuts `s`: the first occurrence of ` = `. */
  function FindSeparator(s: string): (r: Option<nat>)
    ensures r.Some? ==> SeparatorAt(s, r.value)
    ensures r.Some? ==> forall j | 0 <= j < r.value :: !SeparatorAt(s, j)
    ensures r.None? ==> forall j :: !SeparatorAt(s, j)
    decreases |s|
  {
    if |s| < 3 then None
    else if SeparatorAt(s, 0) then Some(0)
    else
      match FindSeparator(s[1..])
      case None =>
        assert forall j | 1 <= j :: SeparatorAt(s, j) ==> SeparatorAt(s[1..], j - 1);
        None
      case Some(k) =>
        assert forall j | 1 <= j :: SeparatorAt(s, j) ==> SeparatorAt(s[1..], j - 1);
        Some(k + 1)
  }

  lemma SeparatorShift(p: string, s: string, j: int)
    requires SeparatorAt(s, j)
    ensures SeparatorAt(p + s, |p| + j)
  {
  }

  /** An `=` that is not the matched operator lies in the input `t` the
      substitution resumes on after the match, at position `i'`. */
  lemma EqualsAfterMatch(s: string, i: nat, k: nat) returns (t: string, i': nat)
    requires k == SpaceRun(s) && k < |s| && IsOperatorChar(s[k]) && s[k] != '='
    requires i < |s| && s[i] == '='
    ensures t == s[k + 1..][SpaceRun(s[k + 1..])..]
    ensures |t| < |s| && i' < |t| && t[i'] == '='
  {
    var rest := s[k + 1..];
    var m := SpaceRun(rest);
    assert !IsSpace(s[i]) && i != k;
    assert i > k;
    assert !IsSpace(rest[i - k - 1]);
    t := rest[m..];
    i' := i - (k + 1 + m);
  }

  /** The substitution when the pattern matches at the front of `s`. */
  lemma SubstituteMatch(s: string, k: nat)
    requires k == SpaceRun(s) && k < |s| && IsOperatorChar(s[k])
    ensures Substitute(s) == [' ', s[k], ' '] + Substitute(s[k + 1..][SpaceRun(s[k + 1..])..])
  {
  }

  lemma MarkAtMatch(s: string, k: nat)
    requires k == SpaceRun(s) && k < |s| && s[k] == '='
    ensures SeparatorAt(Substitute(s), 0)
  {
    SubstituteMatch(s, k);
  }

  lemma MarkAfterMatch(s: string, k: nat, j: nat)
    requires k == SpaceRun(s) && k < |s| && IsOperatorChar(s[k])
    requires SeparatorAt(Substitute(s[k + 1..][SpaceRun(s[k + 1..])..]), j)
    ensures SeparatorAt(Substitute(s), j + 3)
  {
    SubstituteMatch(s, k);
    var head: string := [' ', s[k], ' '];
    SeparatorShift(head, Substitute(s[k + 1..][SpaceRun(s[k + 1..])..]), j);
  }

  lemma MarkAfterCopy(s: string, j: nat)
    requires s != []
    requires !(SpaceRun(s) < |s| && IsOperatorChar(s[SpaceRun(s)]))
    requires SeparatorAt(Substitute(s[1..]), j)
    ensures SeparatorAt(Substitute(s), j + 1)
  {
    SubstituteCopy(s);
    SeparatorShift([s[0]], Substitute(s[1..]), j);
  }

  /** Every `=` of the input comes out of the substitution as ` = `. */
  lemma {:induction false} SubstituteMarksEquals(s: string, i: nat) returns (j: nat)
    requires i < |s| && s[i] == '='
    ensures SeparatorAt(Substitute(s), j)
    decreases |s|, 1
  {
    var k := SpaceRun(s);
    if k < |s| && IsOperatorChar(s[k]) {
      if s[k] == '=' {
        MarkAtMatch(s, k);
        j := 0;
      } else {
        j := MarksAfterOperator(s, i, k);
      }
    } else {
      j := MarksAfterCopy(s, i);
    }
  }

  /** The `=` lies after an operator the substitution rewrites first. */
  lemma {:induction false} MarksAfterOperator(s: string, i: nat, k: nat) returns (j: nat)
    requires k == SpaceRun(s) && k < |s| && IsOperatorChar(s[k]) && s[k] != '='
    requires i < |s| && s[i] == '='
    ensures SeparatorAt(Substitute(s), j)
    decreases |s|, 0
  {
    var t, i' := EqualsAfterMatch(s, i, k);
    var j' := SubstituteMarksEquals(t, i');
    MarkAfterMatch(s, k, j');
    j := j' + 3;
  }

  /** The `=` lies after a character the substitution copies. */
  lemma {:induction false} MarksAfterCopy(s: string, i: nat) returns (j: nat)
    requires !(SpaceRun(s) < |s| && IsOperatorChar(s[SpaceRun(s)]))
    requires i < |s| && s[i] == '='
    ensures SeparatorAt(Substitute(s), j)
    decreases |s|, 0
  {
    EqualsNotFirst(s, i);
    var j' := SubstituteMarksEquals(s[1..], i - 1);
    MarkAfterCopy(s, j');
    j := j' + 1;
  }

  /** Without a match at the front, an `=` is not the first character. */
  lemma EqualsNotFirst(s: string, i: nat)
    requires i < |s| && s[i] == '='
    requires !(SpaceRun(s) < |s| && IsOperatorChar(s[SpaceRun(s)]))
    ensures 0 < i
  {
    if s[0] == '=' {
      assert SpaceRun(s) == 0;
    }
  }

  /** Stripping keeps every `=` of the line. */
  lemma StripKeepsEquals(line: string, i: nat) returns (i': nat)
    requires i < |line| && line[i] == '='
    ensures i' < |Strip(line)| && Strip(line)[i'] == '='
  {
    var t := TrimStart(line);
    assert !IsSpace(line[i]);
    var k := i - (|line| - |t|);
    assert 0 <= k < |t| && t[k] == '=';
    assert !IsSpace(t[k]);
    i' := k;
  }

  /** A line holding `=` (the only lines given to `process_assignment`) has a
      ` = ` after `remove_extra_spaces`, so the two-way split succeeds. */
  lemma AssignmentSeparator(line: string)
    requires '=' in line
    ensures FindSeparator(RemoveExtraSpaces(line)).Some?
  {
    var i :| 0 <= i < |line| && line[i] == '=';
    var i' := StripKeepsEquals(line, i);
    var j := SubstituteMarksEquals(Strip(line), i');
  }
}
