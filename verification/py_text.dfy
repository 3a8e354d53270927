/**
 * Python's `sep.join(parts)`, as used to lay out the column list of a
 * `CREATE TABLE` statement, and its inverse for the separator ", ".
 */
module PyText {

  /** Sum of the lengths of `parts`. */
  function TotalLength(parts: seq<string>): nat
  {
    if |parts| == 0 then 0 else |parts[0]| + TotalLength(parts[1..])
  }

  /**
   * `sep.join(parts)`: the parts in order with `sep` between neighbours and
   * nowhere else, so `n` parts carry `n - 1` separators.
   */
  function Join(parts: seq<string>, sep: string): (r: string)
    ensures |parts| == 0 ==> r == ""
    ensures |parts| > 0 ==> parts[0] <= r
  {
    if |parts| == 0 then ""
    else if |parts| == 1 then parts[0]
    else parts[0] + sep + Join(parts[1..], sep)
  }

  /** `n` parts joined take their own length plus `n - 1` separators. */
  lemma {:induction false} JoinLength(parts: seq<string>, sep: string)
    requires |parts| > 0
    ensures |Join(parts, sep)| == TotalLength(parts) + (|parts| - 1) * |sep|
  {
    if |parts| > 1 {
      JoinLength(parts[1..], sep);
    }
  }

  /**
   * Appending a part to a non-empty list appends one separator and the part:
   * the form in which the list is built up one entry at a time.
   */
  lemma {:induction false} JoinSnoc(parts: seq<string>, p: string, sep: string)
    requires |parts| > 0
    ensures Join(parts + [p], sep) == Join(parts, sep) + sep + p
  {
    if |parts| == 1 {
      assert parts + [p] == [parts[0], p];
    } else {
      assert (parts + [p])[1..] == parts[1..] + [p];
      JoinSnoc(parts[1..], p, sep);
    }
  }

  /** True when `s` has no comma, so that ", " can only occur as a separator. */
  predicate CommaFree(s: string)
  {
    ',' !in s
  }

  /** Splits `s` at every occurrence of ", " (Python's `s.split(", ")`). */
  function Split(s: string): (r: seq<string>)
    ensures |r| >= 1
    decreases |s|
  {
    if |s| < 2 then [s]
    else if s[..2] == ", " then [""] + Split(s[2..])
    else
      var rest := Split(s[1..]);
      [[s[0]] + rest[0]] + rest[1..]
  }

  /** A comma-free string splits into itself alone. */
  lemma {:induction false} SplitCommaFree(p: string)
    requires CommaFree(p)
    ensures Split(p) == [p]
    decreases |p|
  {
    if |p| >= 2 {
      assert p[0] != ',';
      SplitCommaFree(p[1..]);
      assert [p[0]] + p[1..] == p;
    }
  }

  /** A comma-free leading part is split off at the first separator. */
  lemma {:induction false} SplitLeading(p: string, t: string)
    requires CommaFree(p)
    ensures Split(p + ", " + t) == [p] + Split(t)
    decreases |p|
  {
    var s := p + ", " + t;
    if |p| == 0 {
      assert s[..2] == ", ";
      assert s[2..] == t;
    } else {
      assert s[0] == p[0] && p[0] != ',';
      assert s[1..] == p[1..] + ", " + t;
      SplitLeading(p[1..], t);
      assert [p[0]] + p[1..] == p;
    }
  }

  /** `Split` undoes `", ".join` for a non-empty list of comma-free parts. */
  lemma {:induction false} SplitJoin(parts: seq<string>)
    requires |parts| > 0
    requires forall i :: 0 <= i < |parts| ==> CommaFree(parts[i])
    ensures Split(Join(parts, ", ")) == parts
  {
    if |parts| == 1 {
      SplitCommaFree(parts[0]);
    } else {
      SplitLeading(parts[0], Join(parts[1..], ", "));
      SplitJoin(parts[1..]);
      assert [parts[0]] + parts[1..] == parts;
    }
  }
}
