/** Cutting blanks off both ends of a string. */
module Trimming {

  /** `s` without the stretches of `blank` characters at its ends. */
  function Stripped(blank: char -> bool, s: string): string {
    if s != "" && blank(s[0]) then Stripped(blank, s[1..])
    else if s != "" && blank(s[|s| - 1]) then Stripped(blank, s[..|s| - 1])
    else s
  }

  ghost predicate AllBlank(blank: char -> bool, s: string) {
    forall i :: 0 <= i < |s| ==> blank(s[i])
  }

  /** Stripping cuts a blank stretch off either end and nothing else. */
  lemma {:induction false} StripCutsBlanks(blank: char -> bool, s: string) returns (i: nat, j: nat)
    ensures i <= j <= |s| && Stripped(blank, s) == s[i..j]
    ensures AllBlank(blank, s[..i]) && AllBlank(blank, s[j..])
    decreases |s|
  {
    if s != "" && blank(s[0]) {
      i, j := StripCutsBlanks(blank, s[1..]);
      i, j := i + 1, j + 1;
      assert s[1..][i - 1..j - 1] == s[i..j];
      assert s[..i] == [s[0]] + s[1..][..i - 1];
      assert s[j..] == s[1..][j - 1..];
    } else if s != "" && blank(s[|s| - 1]) {
      var n := |s| - 1;
      i, j := StripCutsBlanks(blank, s[..n]);
      assert s[..n][i..j] == s[i..j];
      assert s[..n][..i] == s[..i];
      assert s[j..] == s[..n][j..] + [s[n]];
    } else {
      i, j := 0, |s|;
      assert s[0..|s|] == s;
    }
  }

  lemma {:induction false} StripLeavesNoBlank(blank: char -> bool, s: string)
    ensures var r := Stripped(blank, s); r != "" ==> !blank(r[0]) && !blank(r[|r| - 1])
    decreases |s|
  {
    if s != "" && blank(s[0]) {
      StripLeavesNoBlank(blank, s[1..]);
    } else if s != "" && blank(s[|s| - 1]) {
      StripLeavesNoBlank(blank, s[..|s| - 1]);
    }
  }

  lemma StrippedTwice(blank: char -> bool, s: string)
    ensures Stripped(blank, Stripped(blank, s)) == Stripped(blank, s)
  {
    StripLeavesNoBlank(blank, s);
  }
}
