/**
 * The pieces of the .NET string library that the service relies on, written
 * out over characters: nullable references, Char.IsWhiteSpace,
 * String.IsNullOrWhiteSpace, String.Trim, String.Join and
 * String.Split(' ', StringSplitOptions.RemoveEmptyEntries).
 */
module Text {

  /** A C# reference that may be null. */
  datatype Option<+T> = None | Some(value: T) {
    /** The `??` operator: the value, or `default` for null. */
    function GetOr(default: T): T {
      if Some? then value else default
    }
  }

  /** Char.IsWhiteSpace: the Unicode space, line and paragraph separators,
      the controls U+0009..U+000D and U+0085. */
  predicate IsWhiteSpace(c: char) {
    || c == ' ' || '\t' <= c <= '\r' || c == '\U{85}' || c == '\U{A0}'
    || c == '\U{1680}' || '\U{2000}' <= c <= '\U{200A}' || c == '\U{2028}'
    || c == '\U{2029}' || c == '\U{202F}' || c == '\U{205F}' || c == '\U{3000}'
  }

  /** Every character is white space (the empty string included). */
  predicate IsBlank(s: string) {
    forall i :: 0 <= i < |s| ==> IsWhiteSpace(s[i])
  }

  /** String.IsNullOrWhiteSpace. */
  predicate IsNullOrWhiteSpace(s: Option<string>) {
    s.None? || IsBlank(s.value)
  }

  lemma BlankConcat(a: string, b: string)
    ensures IsBlank(a + b) <==> IsBlank(a) && IsBlank(b)
  {
    forall i | 0 <= i < |a| ensures (a + b)[i] == a[i] {}
    forall i | 0 <= i < |b| ensures (a + b)[|a| + i] == b[i] {}
    if IsBlank(a) && IsBlank(b) {
      forall i | 0 <= i < |a + b| ensures IsWhiteSpace((a + b)[i]) {
        if i >= |a| { assert (a + b)[i] == b[i - |a|]; }
      }
    }
  }

  /** String.StartsWith(prefix), ordinal. */
  predicate StartsWith(s: string, prefix: string) {
    |prefix| <= |s| && s[..|prefix|] == prefix
  }

  /** String.TrimStart(): drops the leading white space. */
  function TrimStart(s: string): (r: string)
    ensures |r| <= |s| && r == s[|s| - |r|..]
    ensures r == [] || !IsWhiteSpace(r[0])
    ensures IsBlank(s[..|s| - |r|])
  {
    if s != [] && IsWhiteSpace(s[0]) then
      var r := TrimStart(s[1..]);
      assert s[..|s| - |r|] == [s[0]] + s[1..][..|s| - 1 - |r|];
      BlankConcat([s[0]], s[1..][..|s| - 1 - |r|]);
      r
    else
      s
  }

  /** String.TrimEnd(): drops the trailing white space. */
  function TrimEnd(s: string): (r: string)
    ensures |r| <= |s| && r == s[..|r|]
    ensures r == [] || !IsWhiteSpace(r[|r| - 1])
    ensures IsBlank(s[|r|..])
  {
    if s != [] && IsWhiteSpace(s[|s| - 1]) then
      var r := TrimEnd(s[..|s| - 1]);
      assert s[|r|..] == s[..|s| - 1][|r|..] + [s[|s| - 1]];
      BlankConcat(s[..|s| - 1][|r|..], [s[|s| - 1]]);
      r
    else
      s
  }

  /** `r` is the part of `s` that starts at `lead`, and only white space
      comes before and after it. */
  predicate TrimsTo(s: string, lead: int, r: string) {
    && 0 <= lead <= |s| - |r|
    && r == s[lead..lead + |r|]
    && IsBlank(s[..lead]) && IsBlank(s[lead + |r|..])
  }

  /** String.Trim(): the string with its leading and trailing white space
      removed; everything in between is kept as it is. */
  function Trim(s: string): (r: string)
    ensures r == [] || (!IsWhiteSpace(r[0]) && !IsWhiteSpace(r[|r| - 1]))
    ensures exists lead :: TrimsTo(s, lead, r)
    ensures IsBlank(r) <==> r == []
    ensures IsBlank(s) <==> r == []
  {
    TrimParts(s, |s| - |TrimStart(s)|, TrimEnd(TrimStart(s)));
    TrimEnd(TrimStart(s))
  }

  /** Trim's contract, for the string left once `lead` blank characters are
      dropped from the front and the trailing white space from the back. */
  lemma TrimParts(s: string, lead: nat, r: string)
    requires lead <= |s| && IsBlank(s[..lead]) && r == TrimEnd(s[lead..])
    requires lead == |s| || !IsWhiteSpace(s[lead])
    ensures r == [] || (!IsWhiteSpace(r[0]) && !IsWhiteSpace(r[|r| - 1]))
    ensures exists lead :: TrimsTo(s, lead, r)
    ensures IsBlank(r) <==> r == []
    ensures IsBlank(s) <==> r == []
  {
    var t := s[lead..];
    assert r == s[lead..lead + |r|];
    assert s[lead + |r|..] == t[|r|..];
    assert s == s[..lead] + r + s[lead + |r|..];
    if r != [] {
      assert r[0] == s[lead];
    }
    BlankConcat(s[..lead], r);
    BlankConcat(s[..lead] + r, s[lead + |r|..]);
    assert TrimsTo(s, lead, r);
  }

  /** String.Join(separator, parts). */
  function Join(separator: string, parts: seq<string>): string {
    if |parts| == 0 then ""
    else if |parts| == 1 then parts[0]
    else parts[0] + separator + Join(separator, parts[1..])
  }

  /** Joining with a blank separator gives a blank string exactly when
      every part is blank. */
  lemma {:induction false} JoinBlank(separator: string, parts: seq<string>)
    requires IsBlank(separator)
    ensures IsBlank(Join(separator, parts)) <==> forall k :: 0 <= k < |parts| ==> IsBlank(parts[k])
  {
    if |parts| > 1 {
      var rest := parts[1..];
      JoinBlank(separator, rest);
      BlankConcat(parts[0], separator);
      BlankConcat(parts[0] + separator, Join(separator, rest));
      forall k | 0 < k < |parts| ensures parts[k] == rest[k - 1] {}
    }
  }

  /** A non-empty entry of String.Split(' ', RemoveEmptyEntries). */
  predicate IsWord(w: string) {
    w != [] && ' ' !in w
  }

  /** Length of the run of non-space characters that starts `s`. */
  function WordLength(s: string): (n: nat)
    ensures n <= |s|
    ensures ' ' !in s[..n]
    ensures n < |s| ==> s[n] == ' '
  {
    if s == [] || s[0] == ' ' then 0
    else
      var n := 1 + WordLength(s[1..]);
      assert s[..n] == [s[0]] + s[1..][..n - 1];
      n
  }

  /** String.Split(' ', StringSplitOptions.RemoveEmptyEntries): the maximal
      runs of characters other than ' ', in order. Only the space character
      separates; tabs, line breaks and other white space stay in the words. */
  function Words(s: string): (ws: seq<string>)
    ensures forall k :: 0 <= k < |ws| ==> IsWord(ws[k])
    decreases |s|
  {
    if s == [] then []
    else if s[0] == ' ' then Words(s[1..])
    else
      var n := WordLength(s);
      [s[..n]] + Words(s[n..])
  }

  /** The characters of `s` other than ' ', in order. */
  function RemoveSpaces(s: string): string {
    if s == [] then []
    else if s[0] == ' ' then RemoveSpaces(s[1..])
    else [s[0]] + RemoveSpaces(s[1..])
  }

  lemma {:induction false} RemoveSpacesConcat(a: string, b: string)
    ensures RemoveSpaces(a + b) == RemoveSpaces(a) + RemoveSpaces(b)
  {
    if a != [] {
      assert (a + b)[1..] == a[1..] + b;
      RemoveSpacesConcat(a[1..], b);
    } else {
      assert a + b == b;
    }
  }

  lemma {:induction false} RemoveSpacesOfWord(w: string)
    requires ' ' !in w
    ensures RemoveSpaces(w) == w
  {
    if w != [] {
      assert w[0] in w;
      assert forall c :: c in w[1..] ==> c in w;
      RemoveSpacesOfWord(w[1..]);
    }
  }

  /** Splitting drops the spaces and nothing else: the words, put back
      together without separators, are the input without its spaces. */
  lemma {:induction false} WordsKeepCharacters(s: string)
    ensures Join("", Words(s)) == RemoveSpaces(s)
    decreases |s|
  {
    if s == [] {
    } else if s[0] == ' ' {
      WordsKeepCharacters(s[1..]);
    } else {
      var n := WordLength(s);
      var rest := Words(s[n..]);
      WordsKeepCharacters(s[n..]);
      assert Words(s) == [s[..n]] + rest;
      JoinEmptySeparator(s[..n], rest);
      assert s == s[..n] + s[n..];
      RemoveSpacesConcat(s[..n], s[n..]);
      RemoveSpacesOfWord(s[..n]);
    }
  }

  lemma JoinEmptySeparator(w: string, rest: seq<string>)
    ensures Join("", [w] + rest) == w + Join("", rest)
  {
    if rest != [] {
      assert ([w] + rest)[1..] == rest;
    }
  }

  /** An input yields no words exactly when it is made of spaces only. */
  lemma {:induction false} NoWords(s: string)
    ensures Words(s) == [] <==> forall i :: 0 <= i < |s| ==> s[i] == ' '
    decreases |s|
  {
    if s != [] {
      NoWords(s[1..]);
      if s[0] == ' ' {
        if forall i :: 0 <= i < |s[1..]| ==> s[1..][i] == ' ' {
          forall i | 0 <= i < |s| ensures s[i] == ' ' {
            if i > 0 { assert s[i] == s[1..][i - 1]; }
          }
        }
      }
    }
  }

  /** WordLength is the position of the first space, or the whole length. */
  lemma {:induction false} WordLengthIs(s: string, m: nat)
    requires m <= |s| && ' ' !in s[..m] && (m < |s| ==> s[m] == ' ')
    ensures WordLength(s) == m
  {
    if m > 0 {
      assert s[0] in s[..m];
      assert s[1..][..m - 1] == s[..m][1..];
      WordLengthIs(s[1..], m - 1);
    }
  }

  lemma WordLengthOfJoin(w: string, rest: string)
    requires IsWord(w)
    ensures WordLength(w + " " + rest) == |w|
    ensures WordLength(w) == |w|
  {
    var s := w + " " + rest;
    assert s[..|w|] == w;
    WordLengthIs(s, |w|);
    assert w[..|w|] == w;
    WordLengthIs(w, |w|);
  }

  /** Round trip: splitting the space-joined words gives the words back. */
  lemma {:induction false} WordsOfJoin(ws: seq<string>)
    requires forall k :: 0 <= k < |ws| ==> IsWord(ws[k])
    ensures Words(Join(" ", ws)) == ws
  {
    if |ws| == 1 {
      var w := ws[0];
      WordLengthOfJoin(w, "");
      assert w[..|w|] == w && w[|w|..] == [];
      assert Words(w) == [w] + Words([]);
    } else if |ws| > 1 {
      var w := ws[0];
      var rest := Join(" ", ws[1..]);
      var s := w + " " + rest;
      WordsOfJoin(ws[1..]);
      WordLengthOfJoin(w, rest);
      assert s[..|w|] == w;
      assert s[|w|..] == " " + rest;
      assert (" " + rest)[1..] == rest;
    }
  }

  /** Only the space character separates: a run without it is one word,
      whatever tabs, line breaks or other white space it holds. */
  lemma OneWordWithoutSpaces(w: string)
    requires IsWord(w)
    ensures Words(w) == [w]
  {
    WordsOfJoin([w]);
  }

  /** Every space separates: the words on either side of a space are split
      apart and never merged, however many spaces surround it. */
  lemma {:induction false} WordsSplitAtSpace(a: string, b: string)
    ensures Words(a + " " + b) == Words(a) + Words(b)
    decreases |a|
  {
    var s := a + " " + b;
    if a == [] {
      assert s[1..] == b;
    } else if a[0] == ' ' {
      assert s[1..] == a[1..] + " " + b;
      WordsSplitAtSpace(a[1..], b);
    } else {
      var n := WordLength(a);
      assert s[..n] == a[..n];
      assert s[n] == ' ';
      WordLengthIs(s, n);
      assert s[n..] == a[n..] + " " + b;
      WordsSplitAtSpace(a[n..], b);
    }
  }

  /** A string with no leading, trailing or doubled space. */
  predicate WellSpaced(s: string) {
    && s != []
    && s[0] != ' '
    && s[|s| - 1] != ' '
    && forall i :: 0 <= i < |s| - 1 && s[i] == ' ' ==> s[i + 1] != ' '
  }

  /** Joining one or more words with single spaces gives a well-spaced string. */
  lemma {:induction false} JoinWellSpaced(ws: seq<string>)
    requires ws != []
    requires forall k :: 0 <= k < |ws| ==> IsWord(ws[k])
    ensures WellSpaced(Join(" ", ws))
  {
    var w := ws[0];
    assert w[0] in w;
    assert w[|w| - 1] in w;
    if |ws| > 1 {
      var rest := Join(" ", ws[1..]);
      JoinWellSpaced(ws[1..]);
      var s := w + " " + rest;
      forall i | 0 <= i < |w| ensures s[i] != ' ' {
        assert s[i] == w[i] && w[i] in w;
      }
      forall i | 0 <= i < |s| - 1 && s[i] == ' ' ensures s[i + 1] != ' ' {
        if i == |w| {
          assert s[i + 1] == rest[0];
        } else if i > |w| {
          assert s[i] == rest[i - |w| - 1] && s[i + 1] == rest[i - |w|];
        }
      }
    }
  }
}
