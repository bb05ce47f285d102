/**
 * The few pieces of Python's `str` behaviour the sentinel code relies on:
 * `startswith`, `endswith`, slicing with negative bounds, and reading a
 * message line by line (`"\n".join` and `split("\n")`).
 */
module Text {

  /** `s.startswith(prefix)` */
  predicate StartsWith(s: string, prefix: string) {
    prefix <= s
  }

  /** `s.endswith(suffix)` */
  predicate EndsWith(s: string, suffix: string) {
    |suffix| <= |s| && s[|s| - |suffix|..] == suffix
  }

  /** One bound of a Python slice: a negative bound counts from the end, then it is clamped to [0, n]. */
  function SliceBound(i: int, n: nat): (b: nat)
    ensures b <= n
  {
    if i < 0 then (if i + n < 0 then 0 else i + n)
    else if i > n then n
    else i
  }

  /** `s[start:stop]` with Python's rules for negative and out-of-range bounds. */
  function Slice(s: string, start: int, stop: int): (r: string)
    ensures |r| <= |s|
  {
    var a, b := SliceBound(start, |s|), SliceBound(stop, |s|);
    if a < b then s[a..b] else []
  }

  /** `s[8:-2]` drops the first 8 and the last 2 characters, and is empty once nothing is left between them. */
  lemma InnerSlice(s: string)
    ensures Slice(s, 8, -2) == if |s| <= 10 then [] else s[8..|s| - 2]
  {
  }

  /** `"\n".join(ls)` */
  function Join(ls: seq<string>): string
  {
    if |ls| == 0 then []
    else if |ls| == 1 then ls[0]
    else ls[0] + "\n" + Join(ls[1..])
  }

  /** `s.split("\n")`: the lines of `s`; never empty, no line holds a newline, and joining them gives `s` back. */
  function Lines(s: string): (ls: seq<string>)
    ensures |ls| >= 1
    ensures forall i :: 0 <= i < |ls| ==> '\n' !in ls[i]
    ensures Join(ls) == s
    decreases |s|
  {
    if s == [] then [[]]
    else
      var rest := Lines(s[1..]);
      if s[0] == '\n' then
        assert Join([[]] + rest) == "\n" + Join(rest);
        [[]] + rest
      else
        var first := [s[0]] + rest[0];
        assert |rest| > 1 ==> Join(rest) == rest[0] + "\n" + Join(rest[1..]);
        assert |rest| > 1 ==> Join([first] + rest[1..]) == first + "\n" + Join(rest[1..]) by {
          if |rest| > 1 { assert ([first] + rest[1..])[1..] == rest[1..]; }
        }
        assert s == [s[0]] + s[1..];
        [first] + rest[1..]
  }

  /** Text without a newline that is followed by more text only extends the first line. */
  lemma {:induction false} LinesPrefix(a: string, t: string)
    requires '\n' !in a
    ensures Lines(a + t) == [a + Lines(t)[0]] + Lines(t)[1..]
    decreases |a|
  {
    if a != [] {
      var ls := Lines(t);
      assert (a + t)[0] == a[0] && (a + t)[1..] == a[1..] + t;
      LinesPrefix(a[1..], t);
      var rest := Lines(a[1..] + t);
      assert rest[0] == a[1..] + ls[0] && rest[1..] == ls[1..];
      assert [a[0]] + rest[0] == a + ls[0] by { assert a == [a[0]] + a[1..]; }
    } else {
      var ls := Lines(t);
      assert a + t == t && a + ls[0] == ls[0];
      assert ls == [ls[0]] + ls[1..];
    }
  }

  /** Splitting undoes joining, for lines that hold no newline. */
  lemma {:induction false} LinesOfJoin(ls: seq<string>)
    requires |ls| >= 1
    requires forall i :: 0 <= i < |ls| ==> '\n' !in ls[i]
    ensures Lines(Join(ls)) == ls
    decreases |ls|
  {
    if |ls| == 1 {
      LinesPrefix(ls[0], []);
      assert ls[0] + [] == ls[0];
    } else {
      var tail := Join(ls[1..]);
      assert forall i :: 0 <= i < |ls[1..]| ==> '\n' !in ls[1..][i] by {
        forall i | 0 <= i < |ls[1..]| ensures '\n' !in ls[1..][i] { assert ls[1..][i] == ls[i + 1]; }
      }
      LinesOfJoin(ls[1..]);
      assert ("\n" + tail)[0] == '\n' && ("\n" + tail)[1..] == tail;
      assert Lines("\n" + tail) == [[]] + ls[1..];
      assert ls[0] + "\n" + tail == ls[0] + ("\n" + tail);
      LinesPrefix(ls[0], "\n" + tail);
      assert ls[0] + [] == ls[0];
      assert ls == [ls[0]] + ls[1..];
    }
  }
}
