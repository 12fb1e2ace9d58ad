/**
 * shellSplitLine: cut a line into the maximal runs of characters other
 * than the space character. Only ' ' delimits; tabs and every other
 * character belong to tokens. There is no quoting and no escaping.
 */
module Tokenizer {
  import opened Wrappers

  const Delim: char := ' '

  /** A token: non-empty and free of the delimiter. */
  predicate IsWord(t: string) {
    t != [] && Delim !in t
  }

  predicate AllWords(ts: seq<string>) {
    forall i :: 0 <= i < |ts| ==> IsWord(ts[i])
  }

  /** The length of the longest prefix of s that holds no delimiter. */
  function WordLength(s: string): (k: nat)
    ensures k <= |s|
    ensures forall i :: 0 <= i < k ==> s[i] != Delim
    ensures k < |s| ==> s[k] == Delim
  {
    if s == [] || s[0] == Delim then 0 else 1 + WordLength(s[1..])
  }

  /** The specification of the tokenizer: drop a leading delimiter, or take
      the word that starts the line, and carry on with the rest. */
  function Split(s: string): seq<string>
    decreases |s|
  {
    if s == [] then []
    else if s[0] == Delim then Split(s[1..])
    else
      var k := WordLength(s);
      [s[..k]] + Split(s[k..])
  }

  /** std::string::find_first_not_of(c, from). */
  function FindFirstNotOf(s: string, c: char, from: nat): (r: Option<nat>)
    decreases |s| - from
    ensures r.Some? ==> from <= r.value < |s| && s[r.value] != c
    ensures forall i :: from <= i < |s| && (r.None? || i < r.value) ==> s[i] == c
  {
    if from >= |s| then None
    else if s[from] != c then Some(from)
    else FindFirstNotOf(s, c, from + 1)
  }

  /** std::string::find(c, from). */
  function Find(s: string, c: char, from: nat): (r: Option<nat>)
    decreases |s| - from
    ensures r.Some? ==> from <= r.value < |s| && s[r.value] == c
    ensures forall i :: from <= i < |s| && (r.None? || i < r.value) ==> s[i] != c
  {
    if from >= |s| then None
    else if s[from] == c then Some(from)
    else Find(s, c, from + 1)
  }

  /** Delimiters in front of a word do not change the tokens. */
  lemma {:induction false} SkipDelims(s: string, i: nat, j: nat)
    requires i <= j <= |s|
    requires forall k :: i <= k < j ==> s[k] == Delim
    ensures Split(s[i..]) == Split(s[j..])
    decreases j - i
  {
    if i < j {
      assert s[i..][1..] == s[i + 1..];
      SkipDelims(s, i + 1, j);
    }
  }

  /** A run s[i..j] of non-delimiters ending at a delimiter or at the end
      of s is the first token of s[i..]. */
  lemma TakeWord(s: string, i: nat, j: nat)
    requires i < j <= |s|
    requires forall k :: i <= k < j ==> s[k] != Delim
    requires j < |s| ==> s[j] == Delim
    ensures Split(s[i..]) == [s[i..j]] + Split(s[j..])
  {
    var t := s[i..];
    var k := WordLength(t);
    assert forall m :: 0 <= m < |t| ==> t[m] == s[i + m];
    assert k == j - i;
    assert t[..k] == s[i..j];
    assert t[k..] == s[j..];
  }

  /** The index loop of shellSplitLine: find the next non-delimiter, find
      the delimiter after it (or the end), cut the token out. */
  method SplitLine(line: string) returns (args: seq<string>)
    ensures args == Split(line)
  {
    args := [];
    var end: nat := 0;
    assert line[0..] == line;
    var start := FindFirstNotOf(line, Delim, end);
    while start.Some?
      invariant end <= |line|
      invariant start == FindFirstNotOf(line, Delim, end)
      invariant args + Split(line[end..]) == Split(line)
      decreases |line| - end
    {
      var s := start.value;
      var e := match Find(line, Delim, s) case Some(p) => p case None => |line|;
      SkipDelims(line, end, s);
      TakeWord(line, s, e);
      assert args + [line[s..e]] + Split(line[e..]) == args + Split(line[end..]);
      args := args + [line[s..e]];
      end := e;
      start := FindFirstNotOf(line, Delim, end);
    }
    SkipDelims(line, end, |line|);
    assert args + [] == args;
  }

  /** Every token is non-empty and holds no delimiter. */
  lemma {:induction false} SplitYieldsWords(s: string)
    ensures AllWords(Split(s))
    decreases |s|
  {
    if s != [] {
      if s[0] == Delim {
        SplitYieldsWords(s[1..]);
      } else {
        var k := WordLength(s);
        SplitYieldsWords(s[k..]);
        assert Delim !in s[..k];
      }
    }
  }

  /** A line yields no token exactly when it is empty or all delimiters. */
  lemma {:induction false} SplitEmptyIff(s: string)
    ensures Split(s) == [] <==> forall i :: 0 <= i < |s| ==> s[i] == Delim
    decreases |s|
  {
    if s != [] && s[0] == Delim {
      SplitEmptyIff(s[1..]);
      assert forall i :: 1 <= i < |s| ==> s[i] == s[1..][i - 1];
    }
  }

  /** A single word is its own only token: characters such as tabs do not
      split it. */
  lemma SplitWord(t: string)
    requires IsWord(t)
    ensures Split(t) == [t]
  {
    assert forall i :: 0 <= i < |t| ==> t[i] in t;
    TakeWord(t, 0, |t|);
    assert t[0..] == t && t[..|t|] == t && t[|t|..] == [];
  }

  /** A delimiter always separates: the tokens of a + " " + b are the
      tokens of a followed by the tokens of b. */
  lemma {:induction false} SplitAtDelim(a: string, b: string)
    ensures Split(a + [Delim] + b) == Split(a) + Split(b)
    decreases |a|
  {
    var s := a + [Delim] + b;
    if a == [] {
      assert s[1..] == b;
    } else if a[0] == Delim {
      assert s[1..] == a[1..] + [Delim] + b;
      SplitAtDelim(a[1..], b);
    } else {
      var k := WordLength(a);
      assert forall i :: 0 <= i < |a| ==> s[i] == a[i];
      assert s[|a|] == Delim;
      assert WordLength(s) == k;
      assert s[..k] == a[..k];
      assert s[k..] == a[k..] + [Delim] + b;
      SplitAtDelim(a[k..], b);
    }
  }

  /** " " + w for every word w: the argument part of a reconstructed
      command line. */
  function Spaced(ws: seq<string>): string {
    if ws == [] then [] else [Delim] + ws[0] + Spaced(ws[1..])
  }

  /** The words of a non-empty list joined by single delimiters. */
  function Join(ws: seq<string>): string
    requires ws != []
  {
    ws[0] + Spaced(ws[1..])
  }

  /** Appending a word to the list appends " " + word to its spaced form:
      the string built by a loop of `s += " " + w`. */
  lemma {:induction false} SpacedSnoc(ws: seq<string>, w: string)
    ensures Spaced(ws + [w]) == Spaced(ws) + [Delim] + w
    decreases |ws|
  {
    if ws == [] {
      assert Spaced([w][1..]) == [];
    } else {
      assert (ws + [w])[1..] == ws[1..] + [w];
      SpacedSnoc(ws[1..], w);
    }
  }

  /** Round trip: tokenizing words joined by single delimiters gives the
      words back. */
  lemma {:induction false} SplitJoin(ws: seq<string>)
    requires ws != [] && AllWords(ws)
    ensures Split(Join(ws)) == ws
    decreases |ws|
  {
    SplitWord(ws[0]);
    if |ws| > 1 {
      var rest := ws[1..];
      assert Join(ws) == ws[0] + [Delim] + Join(rest);
      SplitAtDelim(ws[0], Join(rest));
      SplitJoin(rest);
    } else {
      assert Join(ws) == ws[0];
    }
  }

  /** Tokenizing is idempotent through a join: re-joining the tokens of a
      line and tokenizing again gives the same tokens. */
  lemma SplitJoinSplit(s: string)
    requires Split(s) != []
    ensures Split(Join(Split(s))) == Split(s)
  {
    SplitYieldsWords(s);
    SplitJoin(Split(s));
  }

  /** The characters of s other than the delimiter, in order. */
  function NonDelims(s: string): string {
    if s == [] then []
    else if s[0] == Delim then NonDelims(s[1..])
    else [s[0]] + NonDelims(s[1..])
  }

  function Concat(ts: seq<string>): string {
    if ts == [] then [] else ts[0] + Concat(ts[1..])
  }

  lemma {:induction false} NonDelimsOfPrefix(s: string, k: nat)
    requires k <= |s|
    requires forall i :: 0 <= i < k ==> s[i] != Delim
    ensures NonDelims(s) == s[..k] + NonDelims(s[k..])
    decreases k
  {
    if k > 0 {
      assert s[1..][..k - 1] == s[1..k];
      assert s[1..][k - 1..] == s[k..];
      NonDelimsOfPrefix(s[1..], k - 1);
      assert [s[0]] + s[1..k] == s[..k];
    }
  }

  /** Nothing but delimiters is lost: the tokens put back together are the
      line with its delimiters removed. */
  lemma {:induction false} SplitKeepsNonDelims(s: string)
    ensures Concat(Split(s)) == NonDelims(s)
    decreases |s|
  {
    if s != [] {
      if s[0] == Delim {
        SplitKeepsNonDelims(s[1..]);
      } else {
        var k := WordLength(s);
        SplitKeepsNonDelims(s[k..]);
        NonDelimsOfPrefix(s, k);
        assert ([s[..k]] + Split(s[k..]))[1..] == Split(s[k..]);
      }
    }
  }

  /** Worked example: runs of delimiters collapse and the edges produce no
      empty token ("  a   b c  " gives a, b and c). */
  lemma SplitCollapsesRuns(s: string, a: char, b: char, c: char)
    requires a != Delim && b != Delim && c != Delim
    requires s == [Delim, Delim, a] + [Delim, Delim, Delim, b, Delim, c, Delim, Delim]
    ensures Split(s) == [[a], [b], [c]]
  {
    assert Split(s) == Split(s[2..]) by { SkipDelims(s, 0, 2); assert s[0..] == s; }
    assert Split(s[2..]) == [[a]] + Split(s[3..]) by { TakeWord(s, 2, 3); assert s[2..3] == [a]; }
    SplitCollapsesTail(s[3..], b, c);
  }

  /** The rest of the worked example: "   b c  " gives b and c. */
  lemma SplitCollapsesTail(s: string, b: char, c: char)
    requires b != Delim && c != Delim
    requires s == [Delim, Delim, Delim, b] + [Delim, c, Delim, Delim]
    ensures Split(s) == [[b], [c]]
  {
    assert Split(s) == Split(s[3..]) by { SkipDelims(s, 0, 3); assert s[0..] == s; }
    assert Split(s[3..]) == [[b]] + Split(s[4..]) by { TakeWord(s, 3, 4); assert s[3..4] == [b]; }
    SplitCollapsesLast(s[4..], c);
  }

  /** The end of the worked example: " c  " gives c alone. */
  lemma SplitCollapsesLast(s: string, c: char)
    requires c != Delim
    requires s == [Delim, c, Delim, Delim]
    ensures Split(s) == [[c]]
  {
    assert Split(s) == Split(s[1..]) by { SkipDelims(s, 0, 1); assert s[0..] == s; }
    assert Split(s[1..]) == [[c]] + Split(s[2..]) by { TakeWord(s, 1, 2); assert s[1..2] == [c]; }
    assert Split(s[2..]) == [] by { SkipDelims(s, 2, 4); assert s[4..] == []; }
  }

  /** Worked example: a tab is not a delimiter. */
  lemma SplitKeepsTabs(s: string)
    requires s == "a\tb"
    ensures Split(s) == [s]
  {
    SplitWord(s);
  }
}
