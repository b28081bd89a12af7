/** The console session: each input line is one turn, until a reserved quit word. */
module Session {

  /** The lines that end the session, compared after lower-casing. */
  const QuitWords: seq<string> := ["quit", "exit", "q"]

  /** `str.lower` on one character (ASCII letters). */
  function LowerChar(c: char): char {
    if 'A' <= c <= 'Z' then (c as int - 'A' as int + 'a' as int) as char else c
  }

  function UpperChar(c: char): char {
    if 'a' <= c <= 'z' then (c as int - 'a' as int + 'A' as int) as char else c
  }

  function Lower(s: string): (r: string)
    ensures |r| == |s|
    ensures forall i :: 0 <= i < |s| ==> r[i] == LowerChar(s[i])
  {
    if s == [] then [] else [LowerChar(s[0])] + Lower(s[1..])
  }

  /** `user_input.lower() in ["quit", "exit", "q"]`. */
  predicate IsQuit(input: string) {
    Lower(input) in QuitWords
  }

  /** A word of lower-case ASCII letters. */
  predicate LowerWord(w: string) {
    forall i :: 0 <= i < |w| ==> 'a' <= w[i] <= 'z'
  }

  /** `s` spells `w` with any mix of upper- and lower-case letters. */
  predicate CaseVariant(s: string, w: string) {
    |s| == |w| && forall i :: 0 <= i < |s| ==> s[i] == w[i] || s[i] == UpperChar(w[i])
  }

  /** Lower-casing gives `w` exactly when the input spells `w` in some mix of cases. */
  lemma LowerIsWordIff(s: string, w: string)
    requires LowerWord(w)
    ensures Lower(s) == w <==> CaseVariant(s, w)
  {
  }

  /** The quit check is case-insensitive: a line quits exactly when it is a case variant of one of
      the three reserved words. */
  lemma QuitIff(input: string)
    ensures IsQuit(input) <==> CaseVariant(input, "quit") || CaseVariant(input, "exit") || CaseVariant(input, "q")
  {
    LowerIsWordIff(input, "quit");
    LowerIsWordIff(input, "exit");
    LowerIsWordIff(input, "q");
  }

  /** The input loop of `main`: the lines before the first quit word become turns. If the input ends
      first, `quit` is false (reading past the end raises EOFError, not modelled). */
  method ReadTurns(lines: seq<string>) returns (turns: seq<string>, quit: bool)
    ensures turns <= lines
    ensures forall i :: 0 <= i < |turns| ==> !IsQuit(turns[i])
    ensures quit <==> |turns| < |lines|
    ensures quit ==> IsQuit(lines[|turns|])
  {
    var i := 0;
    turns := [];
    quit := false;
    while i < |lines|
      invariant i <= |lines|
      invariant turns == lines[..i]
      invariant forall j :: 0 <= j < i ==> !IsQuit(lines[j])
    {
      var userInput := lines[i];
      if IsQuit(userInput) {
        quit := true;
        return;
      }
      turns := turns + [userInput];
      i := i + 1;
    }
  }
}
