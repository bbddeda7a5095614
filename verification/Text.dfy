/** Searching a string for a character, as std::string::find does. */
module Text {

  // std::string::find: the first place of c at or after `from`, or |s|.
  function Find(s: string, c: char, from: nat): (i: nat)
    requires from <= |s|
    ensures from <= i <= |s| && c !in s[from..i] && (i < |s| ==> s[i] == c)
    decreases |s| - from
  {
    if from == |s| || s[from] == c then from
    else
      assert forall i :: from < i <= |s| ==> s[from..i] == [s[from]] + s[from + 1..i];
      Find(s, c, from + 1)
  }

  lemma {:induction false} FindIs(s: string, c: char, from: nat, i: nat)
    requires from <= i < |s| && s[i] == c && c !in s[from..i]
    ensures Find(s, c, from) == i
    decreases i - from
  {
    if from < i {
      assert s[from..i] == [s[from]] + s[from + 1..i];
      FindIs(s, c, from + 1, i);
    }
  }

  // The first c after a part without c, and the two sides of it.
  lemma FindBetween(prefix: string, a: string, c: char, b: string)
    requires c !in a
    ensures var s := prefix + a + [c] + b;
            var i := Find(s, c, |prefix|);
            i == |prefix| + |a| < |s| && s[|prefix|..i] == a && s[i + 1..] == b
  {
    var s := prefix + a + [c] + b;
    assert s[|prefix|..|prefix| + |a|] == a && s[|prefix| + |a|] == c && s[|prefix| + |a| + 1..] == b;
    FindIs(s, c, |prefix|, |prefix| + |a|);
  }
}
