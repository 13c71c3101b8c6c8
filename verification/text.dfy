/** The two Python string operations the extensions build their output from. */
module Text {

  /** Python's `c * n`: n copies of c, and the empty string when n is zero or negative. */
  function Repeat(c: char, n: int): (r: string)
    ensures |r| == if n < 0 then 0 else n
    ensures forall i :: 0 <= i < |r| ==> r[i] == c
    decreases n
  {
    if n <= 0 then "" else Repeat(c, n - 1) + [c]
  }

  /** Python's `s.ljust(width)`: s right-padded with spaces up to width; never truncated. */
  function LJust(s: string, width: int): (r: string)
    ensures |r| == if |s| < width then width else |s|
    ensures r[..|s|] == s
    ensures forall i :: |s| <= i < |r| ==> r[i] == ' '
  {
    s + Repeat(' ', width - |s|)
  }
}
