/** The three functions of Go's `strings` package the engine relies on. */
module GoStrings {

  /** `strings.Repeat(s, n)`: `n` copies of `s` back to back (Go panics for `n < 0`). */
  function Repeat(s: string, n: nat): (r: string)
    ensures |r| == n * |s|
    ensures n > 0 ==> r[..|s|] == s
  {
    if n == 0 then [] else s + Repeat(s, n - 1)
  }

  /** Number of occurrences of `c` in `s`. */
  function Occurrences(s: string, c: char): nat {
    if s == [] then 0 else (if s[0] == c then 1 else 0) + Occurrences(s[1..], c)
  }

  /** `strings.ReplaceAll(s, "\"", "\"\"")`: every double quote written twice. */
  function DoubleQuotes(s: string): (r: string)
    ensures |r| == |s| + Occurrences(s, '"')
    ensures Occurrences(s, '"') == 0 ==> r == s
  {
    if s == [] then []
    else (if s[0] == '"' then "\"\"" else [s[0]]) + DoubleQuotes(s[1..])
  }

  /** Reads a quote-doubled body back: each `""` collapses to one `"`. */
  function CollapseQuotes(s: string): string {
    if |s| >= 2 && s[0] == '"' && s[1] == '"' then "\"" + CollapseQuotes(s[2..])
    else if s == [] then []
    else [s[0]] + CollapseQuotes(s[1..])
  }

  /** Collapsing the doubled quotes recovers the original text. */
  lemma {:induction false} CollapseDoubleQuotes(s: string)
    ensures CollapseQuotes(DoubleQuotes(s)) == s
  {
    if s != [] {
      CollapseDoubleQuotes(s[1..]);
      var head := if s[0] == '"' then "\"\"" else [s[0]];
      assert DoubleQuotes(s) == head + DoubleQuotes(s[1..]);
      if s[0] == '"' {
        assert (head + DoubleQuotes(s[1..]))[2..] == DoubleQuotes(s[1..]);
      } else {
        assert (head + DoubleQuotes(s[1..]))[1..] == DoubleQuotes(s[1..]);
      }
      assert s == [s[0]] + s[1..];
    }
  }

  /** Number of spaces `s` starts with. */
  function LeadingSpaces(s: string): (n: nat)
    ensures n <= |s|
    ensures forall k :: 0 <= k < n ==> s[k] == ' '
    ensures n < |s| ==> s[n] != ' '
  {
    if s != [] && s[0] == ' ' then
      var n := 1 + LeadingSpaces(s[1..]);
      assert forall k :: 1 <= k < n ==> s[k] == s[1..][k - 1];
      n
    else 0
  }

  /** Number of spaces `s` ends with. */
  function TrailingSpaces(s: string): (n: nat)
    ensures n <= |s|
    ensures forall k :: |s| - n <= k < |s| ==> s[k] == ' '
    ensures n < |s| ==> s[|s| - n - 1] != ' '
  {
    if s != [] && s[|s| - 1] == ' ' then
      var init := s[..|s| - 1];
      var n := 1 + TrailingSpaces(init);
      assert forall k :: |s| - n <= k < |s| - 1 ==> s[k] == init[k];
      n
    else 0
  }

  /**
   `strings.Trim(s, " ")`: `s` without its leading and trailing spaces. The
   result neither starts nor ends with a space, sits in `s` right after the
   leading spaces, and only spaces follow it.
   */
  function Trim(s: string): (r: string)
    ensures r == [] || (r[0] != ' ' && r[|r| - 1] != ' ')
    ensures LeadingSpaces(s) + |r| <= |s|
    ensures r == s[LeadingSpaces(s)..LeadingSpaces(s) + |r|]
    ensures forall k :: LeadingSpaces(s) + |r| <= k < |s| ==> s[k] == ' '
  {
    var i := LeadingSpaces(s);
    if i == |s| then []
    else
      var j := |s| - TrailingSpaces(s);
      assert i < j;
      s[i..j]
  }
}
