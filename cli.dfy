/** The command-line flag search: findFlag and the substring test it is built
    on (`strstr(s, t) != NULL`). */
module Cli {

  /** `t` occurs in `s` starting at position `p`. */
  predicate OccursAt(s: string, t: string, p: nat) {
    p + |t| <= |s| && s[p..p + |t|] == t
  }

  /** Dropping the first character of `s` moves every occurrence one
      position to the left. */
  lemma OccursShift(s: string, t: string, p: nat)
    requires |s| > 0
    ensures OccursAt(s, t, p + 1) <==> OccursAt(s[1..], t, p)
  {
    if p + 1 + |t| <= |s| {
      assert s[p + 1..p + 1 + |t|] == s[1..][p..p + |t|];
    }
  }

  /** An occurrence in `s` is at position 0 or an occurrence in `s[1..]`. */
  lemma OccursStep(s: string, t: string)
    requires |s| > 0
    ensures (exists p: nat :: OccursAt(s, t, p)) <==> OccursAt(s, t, 0) || exists p: nat :: OccursAt(s[1..], t, p)
  {
    if exists p: nat :: OccursAt(s, t, p) {
      var p: nat :| OccursAt(s, t, p);
      if p > 0 {
        OccursShift(s, t, p - 1);
      }
    }
    if exists p: nat :: OccursAt(s[1..], t, p) {
      var p: nat :| OccursAt(s[1..], t, p);
      OccursShift(s, t, p);
    }
  }

  /** `strstr(s, t) != NULL`: `t` is a substring of `s`. */
  function Contains(s: string, t: string): (b: bool)
    ensures b <==> exists p: nat :: OccursAt(s, t, p)
    decreases |s|
  {
    if |t| > |s| then
      assert forall p: nat :: !OccursAt(s, t, p);
      false
    else if s[..|t|] == t then
      assert OccursAt(s, t, 0);
      true
    else
      OccursStep(s, t);
      Contains(s[1..], t)
  }

  /** The least index `i` in [lo, num) whose argument contains `flag`, or 0
      when there is none. */
  function FlagSearch(argv: seq<string>, lo: nat, num: int, flag: string): (r: nat)
    requires num <= |argv|
    ensures (exists i :: lo <= i < num && Contains(argv[i], flag)) ==>
      && lo <= r < num
      && Contains(argv[r], flag)
      && forall j :: lo <= j < r ==> !Contains(argv[j], flag)
    ensures (forall i :: lo <= i < num ==> !Contains(argv[i], flag)) ==> r == 0
    decreases num - lo
  {
    if lo >= num then 0
    else if Contains(argv[lo], flag) then lo
    else FlagSearch(argv, lo + 1, num, flag)
  }

  /** findFlag: scans argv[0..num) and returns the first index whose
      argument contains `flag`, or 0 when none does. */
  method FindFlag(argv: seq<string>, num: int, flag: string) returns (r: int)
    requires num <= |argv|
    ensures r == FlagSearch(argv, 0, num, flag)
  {
    var i := 0;
    while i < num
      invariant 0 <= i && (i == 0 || i <= num)
      invariant forall j :: 0 <= j < i ==> !Contains(argv[j], flag)
    {
      if Contains(argv[i], flag) {
        return i;
      }
      i := i + 1;
    }
    return 0;
  }

  /** As main uses it (`findFlag(...) > 0`), a flag counts as given exactly
      when some argument after the program name contains it and the program
      name does not: an occurrence in argv[0] hides every later one. */
  lemma FlagTestAsWritten(argv: seq<string>, num: int, flag: string)
    requires 0 < num <= |argv|
    ensures FlagSearch(argv, 0, num, flag) > 0 <==>
      !Contains(argv[0], flag) && exists i :: 1 <= i < num && Contains(argv[i], flag)
  {
  }

  /** A program installed as `./vulkan-demo` never sees its `-d` option. */
  lemma ProgramNameHidesFlag()
    ensures var argv := ["./vulkan-demo", "-d", "1"];
      && Contains(argv[1], "-d")
      && FlagSearch(argv, 0, |argv|, "-d") == 0
  {
    var argv := ["./vulkan-demo", "-d", "1"];
    assert OccursAt(argv[0], "-d", 8);
    assert OccursAt(argv[1], "-d", 0);
  }

  /** The intended flag test: search the arguments after the program name. */
  predicate FlagGiven(argv: seq<string>, num: int, flag: string)
    requires num <= |argv|
  {
    FlagSearch(argv, 1, num, flag) > 0
  }

  /** The intended test holds exactly when an argument after the program
      name contains the flag, whatever the program name is. */
  lemma FlagGivenMeansPresent(argv: seq<string>, num: int, flag: string)
    requires num <= |argv|
    ensures FlagGiven(argv, num, flag) <==> exists i :: 1 <= i < num && Contains(argv[i], flag)
  {
  }
}
