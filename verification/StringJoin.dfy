/** Swift's `join(separator, elements)` over strings: a join of two parts, and
    the length of any join. Beside it, the facts about a concatenation
    `x + [c] + y` from which the full-name lemmas derive the number of spaces
    and the split at the first space: counts add over concatenation, and
    splitting at the first `c` gives `x` and `y` back. */
module StringJoin {
  import opened Optional

  /** `join(sep, parts)`: the parts in order with `sep` between neighbours. */
  function Join(sep: string, parts: seq<string>): string
  {
    if |parts| == 0 then ""
    else if |parts| == 1 then parts[0]
    else parts[0] + sep + Join(sep, parts[1..])
  }

  /** Sum of the lengths of the parts. */
  function TotalLength(parts: seq<string>): nat
  {
    if |parts| == 0 then 0 else |parts[0]| + TotalLength(parts[1..])
  }

  /** Number of occurrences of `c` in `s`. */
  function Count(c: char, s: string): nat
  {
    if |s| == 0 then 0 else (if s[0] == c then 1 else 0) + Count(c, s[1..])
  }

  /** The text before and after the first `c` in `s`, or nil when `s` holds no `c`. */
  function SplitAtFirst(c: char, s: string): Option<(string, string)>
  {
    if |s| == 0 then None
    else if s[0] == c then Some(([], s[1..]))
    else match SplitAtFirst(c, s[1..])
      case None => None
      case Some((before, after)) => Some(([s[0]] + before, after))
  }

  /** Joining two parts puts the separator between them once. */
  lemma JoinPair(sep: string, a: string, b: string)
    ensures Join(sep, [a, b]) == a + sep + b
  {
  }

  /** A join of n parts is as long as the parts together plus n - 1 separators. */
  lemma {:induction false} JoinLength(sep: string, parts: seq<string>)
    requires |parts| > 0
    ensures |Join(sep, parts)| == TotalLength(parts) + (|parts| - 1) * |sep|
  {
    if |parts| > 1 {
      JoinLength(sep, parts[1..]);
    }
  }

  /** Counting distributes over concatenation. */
  lemma {:induction false} CountAppend(c: char, s: string, t: string)
    ensures Count(c, s + t) == Count(c, s) + Count(c, t)
  {
    if |s| == 0 {
      assert s + t == t;
    } else {
      assert (s + t)[1..] == s[1..] + t;
      CountAppend(c, s[1..], t);
    }
  }

  /** `c` is absent from `s` exactly when `s` counts no `c`. */
  lemma {:induction false} CountZero(c: char, s: string)
    ensures Count(c, s) == 0 <==> c !in s
  {
    if |s| > 0 {
      CountZero(c, s[1..]);
      assert s == [s[0]] + s[1..];
    }
  }

  /** Splitting `x + [c] + y` at the first `c` gives back `x` and `y`, provided `x`
      itself holds no `c`. */
  lemma {:induction false} SplitAtFirstJoined(c: char, x: string, y: string)
    requires c !in x
    ensures SplitAtFirst(c, x + [c] + y) == Some((x, y))
  {
    if |x| == 0 {
      assert x + [c] + y == [c] + y;
    } else {
      assert (x + [c] + y)[1..] == x[1..] + [c] + y;
      SplitAtFirstJoined(c, x[1..], y);
      assert [x[0]] + x[1..] == x;
    }
  }
}
