/**
 * shellReadLine: read characters until a newline or the end of input.
 * Standard input is modelled as the sequence of characters still unread.
 */
module LineReader {

  /** The text before the first newline, and what follows that newline.
      Without a newline the whole input is the line and nothing remains. */
  function NextLine(input: seq<char>): (r: (string, seq<char>))
    ensures '\n' !in r.0
    ensures '\n' in input ==> input == r.0 + "\n" + r.1
    ensures '\n' !in input ==> r.0 == input && r.1 == []
  {
    if input == [] then ([], [])
    else if input[0] == '\n' then ([], input[1..])
    else
      var (line, rest) := NextLine(input[1..]);
      ([input[0]] + line, rest)
  }

  /** The line ends at the first newline at or after position k, or at the
      end of input: whatever precedes position k is line text. */
  lemma {:induction false} NextLineAt(input: seq<char>, k: nat)
    requires k <= |input| && '\n' !in input[..k]
    requires k < |input| ==> input[k] == '\n'
    ensures NextLine(input) == (input[..k], if k < |input| then input[k + 1..] else [])
  {
    if k > 0 {
      assert input[0] == input[..k][0];
      assert input[1..][..k - 1] == input[1..k];
      if k < |input| {
        assert input[1..][k..] == input[k + 1..];
      }
      NextLineAt(input[1..], k - 1);
      assert [input[0]] + input[1..k] == input[..k];
    }
  }

  /** The character loop of shellReadLine: append each character until a
      newline is consumed or the input runs out. */
  method ReadLine(input: seq<char>) returns (line: string, rest: seq<char>)
    ensures (line, rest) == NextLine(input)
  {
    line := [];
    var i := 0;
    while i < |input|
      invariant 0 <= i <= |input|
      invariant line == input[..i] && '\n' !in line
    {
      var c := input[i];
      i := i + 1;
      if c == '\n' {
        rest := input[i..];
        NextLineAt(input, i - 1);
        return;
      }
      line := line + [c];
    }
    rest := [];
    NextLineAt(input, i);
  }

  /** The lines std::getline yields from a text, one after another: a final
      line without its newline still counts; nothing follows a final newline. */
  function Lines(text: seq<char>): (ls: seq<string>)
    ensures forall i :: 0 <= i < |ls| ==> '\n' !in ls[i]
    decreases |text|
  {
    if text == [] then []
    else
      var (line, rest) := NextLine(text);
      assert |rest| < |text|;
      [line] + Lines(rest)
  }

  /** Each line followed by a newline, as `out << line << std::endl` prints it. */
  function Unlines(ls: seq<string>): string {
    if ls == [] then [] else ls[0] + "\n" + Unlines(ls[1..])
  }

  /** Printing lines and reading them back gives the same lines. */
  lemma {:induction false} LinesUnlines(ls: seq<string>)
    requires forall i :: 0 <= i < |ls| ==> '\n' !in ls[i]
    ensures Lines(Unlines(ls)) == ls
    decreases |ls|
  {
    if ls != [] {
      var text := Unlines(ls);
      assert text == ls[0] + "\n" + Unlines(ls[1..]);
      NextLineAt(text, |ls[0]|);
      assert text[..|ls[0]|] == ls[0];
      assert text[|ls[0]| + 1..] == Unlines(ls[1..]);
      LinesUnlines(ls[1..]);
    }
  }

  /** Reading a text line by line and printing each line with a newline
      reproduces the text, with a newline added when its last line lacked one. */
  lemma {:induction false} UnlinesLines(text: seq<char>)
    ensures Unlines(Lines(text)) == if text == [] || text[|text| - 1] == '\n' then text else text + "\n"
    decreases |text|
  {
    if text != [] {
      var (line, rest) := NextLine(text);
      UnlinesLines(rest);
      assert Lines(text) == [line] + Lines(rest);
      assert Unlines(Lines(text)) == line + "\n" + Unlines(Lines(rest));
      if '\n' in text {
        assert text == line + "\n" + rest;
        if rest != [] {
          assert text[|text| - 1] == rest[|rest| - 1];
        }
      } else {
        assert rest == [] && line == text;
        assert text[|text| - 1] in text;
      }
    }
  }
}
