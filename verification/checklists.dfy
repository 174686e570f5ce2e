/**
 * The checklist data model shared by both scripts: a checklist is an ordered
 * list of named sections, each holding an ordered list of task labels.
 * Indices are positional; there are no stable identifiers.
 *
 * The edit functions below are the value-level meaning of the JavaScript
 * array operations the admin handlers use: index assignment, `splice(i, 1)`
 * and `push`. The trimming functions model `String.prototype.trim`.
 */
module Checklists {

  datatype Option<T> = None | Some(value: T)

  datatype Section = Section(name: string, tasks: seq<string>)

  type Checklist = seq<Section>

  // ---------------------------------------------------------------------------
  // String.prototype.trim
  // ---------------------------------------------------------------------------

  /** The characters ECMAScript counts as WhiteSpace or LineTerminator. */
  predicate IsWhitespace(c: char) {
    || c == '\t' || c == '\n' || c == '\U{B}' || c == '\U{C}' || c == '\r'
    || c == ' ' || c == '\U{A0}' || c == '\U{1680}'
    || ('\U{2000}' <= c && c <= '\U{200A}')
    || c == '\U{2028}' || c == '\U{2029}' || c == '\U{202F}' || c == '\U{205F}'
    || c == '\U{3000}' || c == '\U{FEFF}'
  }

  predicate AllWhitespace(s: string) {
    forall i :: 0 <= i < |s| ==> IsWhitespace(s[i])
  }

  /** Drops leading whitespace. */
  function TrimStart(s: string): string {
    if s != [] && IsWhitespace(s[0]) then TrimStart(s[1..]) else s
  }

  /** Drops trailing whitespace. */
  function TrimEnd(s: string): string {
    if s != [] && IsWhitespace(s[|s| - 1]) then TrimEnd(s[..|s| - 1]) else s
  }

  /** `s.trim()`. */
  function Trim(s: string): string {
    TrimEnd(TrimStart(s))
  }

  /** TrimStart leaves the suffix of `s` after a run of whitespace, which does not start with whitespace. */
  lemma {:induction false} TrimStartSpec(s: string)
    ensures var r := TrimStart(s);
      && |r| <= |s| && r == s[|s| - |r|..]
      && AllWhitespace(s[..|s| - |r|])
      && (r == [] || !IsWhitespace(r[0]))
  {
    if s != [] && IsWhitespace(s[0]) {
      TrimStartSpec(s[1..]);
      var r := TrimStart(s);
      assert s[..|s| - |r|] == [s[0]] + s[1..][..|s| - 1 - |r|];
    }
  }

  /** TrimEnd leaves the prefix of `s` before a run of whitespace, which does not end with whitespace. */
  lemma {:induction false} TrimEndSpec(s: string)
    ensures var r := TrimEnd(s);
      && |r| <= |s| && r == s[..|r|]
      && AllWhitespace(s[|r|..])
      && (r == [] || !IsWhitespace(r[|r| - 1]))
  {
    if s != [] && IsWhitespace(s[|s| - 1]) {
      var s' := s[..|s| - 1];
      TrimEndSpec(s');
      var r := TrimEnd(s);
      assert s[|r|..] == s'[|r|..] + [s[|s| - 1]];
    }
  }

  /**
   * The trimmed text is blank exactly when the input was all whitespace, and
   * otherwise neither starts nor ends with whitespace.
   */
  lemma TrimSpec(s: string)
    ensures |Trim(s)| <= |s|
    ensures Trim(s) == [] <==> AllWhitespace(s)
    ensures Trim(s) != [] ==> !IsWhitespace(Trim(s)[0]) && !IsWhitespace(Trim(s)[|Trim(s)| - 1])
  {
    var t := TrimStart(s);
    var r := TrimEnd(t);
    TrimStartSpec(s);
    TrimEndSpec(t);
    if r == [] {
      assert t == t[|r|..] && s == s[..|s| - |t|] + t;
    } else {
      assert r[0] == t[0];
    }
  }

  lemma {:induction false} TrimStartSkips(p: string, x: string)
    requires AllWhitespace(p)
    ensures TrimStart(p + x) == TrimStart(x)
  {
    if p != [] {
      assert (p + x)[0] == p[0] && (p + x)[1..] == p[1..] + x;
      TrimStartSkips(p[1..], x);
    } else {
      assert p + x == x;
    }
  }

  lemma {:induction false} TrimEndSkips(x: string, q: string)
    requires AllWhitespace(q)
    ensures TrimEnd(x + q) == TrimEnd(x)
  {
    if q != [] {
      var q' := q[..|q| - 1];
      assert (x + q)[|x + q| - 1] == q[|q| - 1];
      assert (x + q)[..|x + q| - 1] == x + q';
      TrimEndSkips(x, q');
    } else {
      assert x + q == x;
    }
  }

  lemma WhitespaceJoin(p: string, q: string)
    requires AllWhitespace(p) && AllWhitespace(q)
    ensures AllWhitespace(p + q)
  {
    forall i | 0 <= i < |p + q| ensures IsWhitespace((p + q)[i]) {
      if i < |p| { assert (p + q)[i] == p[i]; } else { assert (p + q)[i] == q[i - |p|]; }
    }
  }

  /** The part of TrimExact where no core is left. */
  lemma TrimBlank(s: string)
    requires AllWhitespace(s)
    ensures Trim(s) == []
  {
    TrimSpec(s);
  }

  /** The part of TrimExact where a core is left. */
  lemma TrimCore(p: string, m: string, q: string)
    requires AllWhitespace(p) && AllWhitespace(q)
    requires m != [] && !IsWhitespace(m[0]) && !IsWhitespace(m[|m| - 1])
    ensures Trim(p + (m + q)) == m
  {
    TrimStartSkips(p, m + q);
    assert TrimStart(m + q) == m + q;
    TrimEndSkips(m, q);
  }

  /**
   * Trim is characterised by what it removes: whatever whitespace surrounds a
   * core that neither starts nor ends with whitespace, the core is returned.
   */
  lemma TrimExact(p: string, m: string, q: string)
    requires AllWhitespace(p) && AllWhitespace(q)
    requires m == [] || (!IsWhitespace(m[0]) && !IsWhitespace(m[|m| - 1]))
    ensures Trim(p + m + q) == m
  {
    if m == [] {
      assert p + m + q == p + q;
      WhitespaceJoin(p, q);
      TrimBlank(p + q);
    } else {
      assert p + m + q == p + (m + q);
      TrimCore(p, m, q);
    }
  }

  /** Trimming twice is trimming once. */
  lemma TrimIdempotent(s: string)
    ensures Trim(Trim(s)) == Trim(s)
  {
    var r, e: string := Trim(s), [];
    TrimSpec(s);
    assert e + r + e == r;
    TrimExact(e, r, e);
  }

  // ---------------------------------------------------------------------------
  // The array operations used by the admin handlers
  // ---------------------------------------------------------------------------

  /**
   * `a.splice(i, 1)` as a value: the element at `i` is removed and the later
   * ones move down by one; an index past the end leaves the array as it is.
   */
  function Splice<T>(s: seq<T>, i: nat): (r: seq<T>)
    ensures i < |s| ==> |r| == |s| - 1
    ensures i < |s| ==> forall k :: 0 <= k < i ==> r[k] == s[k]
    ensures i < |s| ==> forall k :: i <= k < |r| ==> r[k] == s[k + 1]
    ensures i >= |s| ==> r == s
  {
    if i < |s| then s[..i] + s[i + 1..] else s
  }

  /**
   * `c[s].tasks[t] = value`: only that one task label changes. Assigning
   * just past the end of an array extends it by one, so `t == |tasks|`
   * appends the label.
   */
  function RenameTask(c: Checklist, s: nat, t: nat, value: string): (r: Checklist)
    requires s < |c| && t <= |c[s].tasks|
    ensures |r| == |c| && forall i :: 0 <= i < |c| && i != s ==> r[i] == c[i]
    ensures r[s].name == c[s].name
    ensures |r[s].tasks| == if t < |c[s].tasks| then |c[s].tasks| else |c[s].tasks| + 1
    ensures r[s].tasks[t] == value
    ensures forall k :: 0 <= k < |c[s].tasks| && k != t ==> r[s].tasks[k] == c[s].tasks[k]
  {
    var tasks := c[s].tasks;
    c[s := c[s].(tasks := if t < |tasks| then tasks[t := value] else tasks + [value])]
  }

  /**
   * `c[s].tasks.splice(t, 1)`: task `t` of section `s` disappears, the later
   * tasks of that section move down by one, and no other section changes.
   */
  function DeleteTask(c: Checklist, s: nat, t: nat): (r: Checklist)
    requires s < |c|
    ensures |r| == |c| && forall i :: 0 <= i < |c| && i != s ==> r[i] == c[i]
    ensures r[s].name == c[s].name
    ensures t < |c[s].tasks| ==> |r[s].tasks| == |c[s].tasks| - 1
    ensures t < |c[s].tasks| ==> forall k :: 0 <= k < t ==> r[s].tasks[k] == c[s].tasks[k]
    ensures t < |c[s].tasks| ==> forall k :: t <= k < |r[s].tasks| ==> r[s].tasks[k] == c[s].tasks[k + 1]
    ensures t >= |c[s].tasks| ==> r == c
  {
    c[s := c[s].(tasks := Splice(c[s].tasks, t))]
  }

  /** `c[s].tasks.push(task)`: the label goes to the end of section `s` only. */
  function AppendTask(c: Checklist, s: nat, task: string): (r: Checklist)
    requires s < |c|
    ensures |r| == |c| && forall i :: 0 <= i < |c| && i != s ==> r[i] == c[i]
    ensures r[s].name == c[s].name
    ensures |r[s].tasks| == |c[s].tasks| + 1
    ensures r[s].tasks[..|c[s].tasks|] == c[s].tasks && r[s].tasks[|c[s].tasks|] == task
  {
    c[s := c[s].(tasks := c[s].tasks + [task])]
  }

  /** `c.push({name, tasks: []})`: one new, empty section after all the others. */
  function AppendSection(c: Checklist, name: string): (r: Checklist)
    ensures |r| == |c| + 1 && r[..|c|] == c
    ensures r[|c|].name == name && r[|c|].tasks == []
  {
    c + [Section(name, [])]
  }
}
