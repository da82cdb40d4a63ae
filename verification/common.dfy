/** Small shared vocabulary: an optional value and a few string helpers that
    several stages of the compiler use. */
module Common {

  /** An optional value; stands for the nullable `unique_ptr` children of the
      syntax tree (a missing initializer, else-branch, return value or body). */
  datatype Option<+T> = None | Some(value: T)

  /** `n` copies of the blank character. */
  function Spaces(n: nat): (r: string)
    ensures |r| == n
    ensures forall i :: 0 <= i < n ==> r[i] == ' '
  {
    if n == 0 then "" else Spaces(n - 1) + " "
  }

  /** Number of occurrences of `ch` in `s`. */
  function CountChar(s: string, ch: char): (n: nat)
    ensures n <= |s|
  {
    if s == [] then 0
    else (if s[0] == ch then 1 else 0) + CountChar(s[1..], ch)
  }

  /** A character is counted zero times exactly when it does not occur. */
  lemma {:induction false} CountZeroIffAbsent(s: string, ch: char)
    ensures CountChar(s, ch) == 0 <==> ch !in s
  {
    if s != [] {
      CountZeroIffAbsent(s[1..], ch);
      assert s == [s[0]] + s[1..];
    }
  }

  /** Counting over a concatenation adds the counts of the two parts. */
  lemma {:induction false} CountCharAppend(a: string, b: string, ch: char)
    ensures CountChar(a + b, ch) == CountChar(a, ch) + CountChar(b, ch)
    decreases |a|
  {
    if a == [] {
      assert a + b == b;
    } else {
      assert (a + b)[1..] == a[1..] + b;
      CountCharAppend(a[1..], b, ch);
    }
  }

  /** The parts in order, with `sep` between neighbours. */
  function Join(parts: seq<string>, sep: string): (r: string)
    ensures parts == [] ==> r == ""
    ensures |parts| == 1 ==> r == parts[0]
  {
    if parts == [] then ""
    else if |parts| == 1 then parts[0]
    else parts[0] + sep + Join(parts[1..], sep)
  }

  /** The parts in order, each one followed by `term`. */
  function Terminated(parts: seq<string>, term: string): (r: string)
    ensures |r| >= |parts| * |term|
  {
    if parts == [] then "" else parts[0] + term + Terminated(parts[1..], term)
  }
}
