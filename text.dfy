/**
 * Newline-terminated lines: joining a list of lines, each followed by `\n`,
 * and splitting a text back into its lines.
 */
module Text {

  /** Every line followed by a newline, in order. */
  function Unlines(ls: seq<string>): string {
    if ls == [] then [] else ls[0] + "\n" + Unlines(ls[1..])
  }

  /** Index of the first newline in `s`, or `|s|` when there is none. */
  function LineEnd(s: string): (k: nat)
    ensures k <= |s|
    ensures forall i :: 0 <= i < k ==> s[i] != '\n'
    ensures k < |s| ==> s[k] == '\n'
  {
    if s == [] || s[0] == '\n' then 0 else 1 + LineEnd(s[1..])
  }

  /** The lines of `s`; an unterminated last fragment is a line of its own. */
  function Lines(s: string): seq<string>
    decreases |s|
  {
    if s == [] then []
    else
      var k := LineEnd(s);
      if k < |s| then [s[..k]] + Lines(s[k + 1..]) else [s]
  }

  /** Splitting joined lines gives them back, when none holds a newline. */
  lemma {:induction false} LinesOfUnlines(ls: seq<string>)
    requires forall j :: 0 <= j < |ls| ==> '\n' !in ls[j]
    ensures Lines(Unlines(ls)) == ls
  {
    if ls != [] {
      var l, rest := ls[0], Unlines(ls[1..]);
      var s := Unlines(ls);
      assert s == l + "\n" + rest;
      var k := LineEnd(s);
      assert s[|l|] == '\n';
      if k < |l| {
        assert false;
      }
      assert k == |l|;
      assert s[..k] == l;
      assert s[k + 1..] == rest;
      LinesOfUnlines(ls[1..]);
    }
  }
}
