/** The pieces of Python the two scripts lean on: error-carrying results,
    the uninterpreted conversions (`int()`, `float()`, `str()`, the csv
    module's rendering of a float), substring search, `split(sep)[0]`,
    `lower()` and list indexing with negative indices. */
module PyText {

  datatype Option<+T> = None | Some(value: T)

  /** The outcome of a step that Python would abort with an exception or `exit()`. */
  datatype Result<+T, +E> = Ok(value: T) | Err(error: E)

  /** Conversions taken from Python itself and left uninterpreted:
      `intOf(s)` is `int(s)` (None where it raises), `floatOf(s)` is `float(s)`,
      `strInt` and `strFloat` are `str()`, and `csvFloat` is the text the csv
      writer puts in a cell for a float. */
  datatype Builtins = Builtins(
    intOf: string -> Option<int>,
    floatOf: string -> Option<real>,
    strInt: int -> string,
    strFloat: real -> string,
    csvFloat: real -> string)

  /** `sep` occurs in `s` starting at position `i`. */
  predicate OccursAt(s: string, sep: string, i: nat) {
    i + |sep| <= |s| && s[i..i + |sep|] == sep
  }

  /** Python's `sep in s`. */
  predicate Contains(s: string, sep: string) {
    exists i: nat | i <= |s| :: OccursAt(s, sep, i)
  }

  /** Python's `s.split(sep)[0]` for a non-empty separator: everything before
      the first occurrence of `sep`, or all of `s` when it does not occur. */
  function SplitHead(s: string, sep: string): string
    requires sep != []
    decreases |s|
  {
    if |s| < |sep| then s
    else if s[..|sep|] == sep then []
    else [s[0]] + SplitHead(s[1..], sep)
  }

  /** The head ends where `sep` first occurs: it is a prefix of `s` in which
      no occurrence starts, it is all of `s` exactly when `sep` does not
      occur, and otherwise an occurrence follows it. */
  lemma {:induction false} SplitHeadSpec(s: string, sep: string)
    requires sep != []
    ensures var r := SplitHead(s, sep);
      && r <= s
      && (forall j: nat :: j < |r| ==> !OccursAt(s, sep, j))
      && (r == s <==> !Contains(s, sep))
      && (r != s ==> OccursAt(s, sep, |r|))
    decreases |s|
  {
    var r := SplitHead(s, sep);
    if |s| < |sep| {
      assert forall j: nat :: !OccursAt(s, sep, j);
    } else if s[..|sep|] == sep {
      assert OccursAt(s, sep, 0);
    } else {
      var t := s[1..];
      SplitHeadSpec(t, sep);
      var rt := SplitHead(t, sep);
      assert r == [s[0]] + rt;
      forall j: nat | j + 1 <= |s|
        ensures OccursAt(s, sep, j + 1) <==> OccursAt(t, sep, j)
      {
        if j + 1 + |sep| <= |s| {
          assert s[j + 1..j + 1 + |sep|] == t[j..j + |sep|];
        }
      }
      assert !OccursAt(s, sep, 0);
      forall j: nat | j < |r|
        ensures !OccursAt(s, sep, j)
      {
        if j > 0 {
          assert !OccursAt(t, sep, j - 1);
        }
      }
      if Contains(s, sep) {
        var i: nat :| i <= |s| && OccursAt(s, sep, i);
        assert i > 0 && OccursAt(t, sep, i - 1);
        assert Contains(t, sep);
      }
      if Contains(t, sep) {
        var i: nat :| i <= |t| && OccursAt(t, sep, i);
        assert OccursAt(s, sep, i + 1);
      }
    }
  }

  function LowerChar(c: char): char {
    if 'A' <= c <= 'Z' then (c as int + 32) as char else c
  }

  /** Python's `s.lower()`, restricted to ASCII letters. */
  function Lower(s: string): (r: string)
    ensures |r| == |s|
    ensures forall i :: 0 <= i < |s| ==> !('A' <= r[i] <= 'Z')
    ensures forall i :: 0 <= i < |s| && !('A' <= s[i] <= 'Z') ==> r[i] == s[i]
    ensures forall i :: 0 <= i < |s| && 'A' <= s[i] <= 'Z' ==> r[i] as int == s[i] as int + 32
  {
    seq(|s|, i requires 0 <= i < |s| => LowerChar(s[i]))
  }

  /** The element position Python reads for `xs[i]` when `|xs| == n`:
      a negative `i` counts from the end; None where Python raises IndexError. */
  function PyIndex(i: int, n: nat): (r: Option<nat>)
    ensures r.Some? <==> -(n as int) <= i < n
    ensures r.Some? ==> r.value < n && (r.value == i || r.value == n + i)
  {
    if 0 <= i < n then Some(i)
    else if -(n as int) <= i < 0 then Some(n + i)
    else None
  }
}
