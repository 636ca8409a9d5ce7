/**
 * The bounded inline scanner of `parse_tool_call_from_content`: from the first
 * `{"name"` it walks at most 1000 characters, tracking brace depth, whether it is
 * inside a string and whether the next character is escaped, and stops where the
 * depth returns to 0.
 */
module ToolCallScanner {
  /** How many characters the walk may read. */
  const Window: nat := 1000

  /** Where the walk starts: the first `{"name"` in the text. */
  const Marker: string := "{\"name\""

  /** The walk's three variables: `level`, `in_string`, `escape_next`. */
  datatype ScanState = ScanState(level: int, inString: bool, escapeNext: bool)

  const Initial: ScanState := ScanState(0, false, false)

  /**
   * One character of the walk, without the stop test. A backslash escapes the next
   * character inside and outside strings; braces count only outside strings.
   */
  function Step(st: ScanState, c: char): ScanState {
    if st.escapeNext then st.(escapeNext := false)
    else if c == '\\' then st.(escapeNext := true)
    else if c == '"' then st.(inString := !st.inString)
    else if st.inString then st
    else if c == '{' then st.(level := st.level + 1)
    else if c == '}' then st.(level := st.level - 1)
    else st
  }

  /** One past the last index the walk may read: `min(start + 1000, len(content))`. */
  function Limit(content: string, start: nat): nat {
    if start + Window <= |content| then start + Window else |content|
  }

  /** The state after reading `content[start..i]`. */
  function Walk(content: string, start: nat, i: nat): ScanState
    requires start <= i <= |content|
    decreases i - start
  {
    if i == start then Initial else Step(Walk(content, start, i - 1), content[i - 1])
  }

  /** Reading `content[i - 1]` closes the object: an unescaped `}` outside strings taking the depth from 1 to 0. */
  predicate ClosesAt(content: string, start: nat, i: nat) {
    start < i <= |content| &&
    var st := Walk(content, start, i - 1);
    !st.escapeNext && !st.inString && content[i - 1] == '}' && st.level == 1
  }

  /** The first close at index `k` or later within the window, or `start` when there is none. */
  function FirstClose(content: string, start: nat, k: nat): (e: nat)
    requires start < k <= Limit(content, start) + 1
    decreases Limit(content, start) + 1 - k
    ensures e == start || (k <= e <= Limit(content, start) && ClosesAt(content, start, e))
    ensures forall j :: k <= j <= Limit(content, start) && (e == start || j < e) ==> !ClosesAt(content, start, j)
  {
    if k > Limit(content, start) then start
    else if ClosesAt(content, start, k) then k
    else FirstClose(content, start, k + 1)
  }

  /**
   * `end_pos` after the walk: one past the closing brace of the object starting at
   * `start`, or `start` itself when the braces do not close within the window.
   */
  function ObjectEnd(content: string, start: nat): (e: nat)
    requires start <= |content|
    ensures e == start || (start < e <= Limit(content, start) && ClosesAt(content, start, e))
    ensures forall j :: start < j <= Limit(content, start) && (e == start || j < e) ==> !ClosesAt(content, start, j)
  {
    FirstClose(content, start, start + 1)
  }

  /** The walk as the source writes it: a loop over the window that breaks at the close. */
  method ScanObjectEnd(content: string, start: nat) returns (endPos: nat)
    requires start <= |content|
    ensures endPos == ObjectEnd(content, start)
  {
    endPos := start;
    var level := 0;
    var inString := false;
    var escapeNext := false;
    var stop := if start + Window <= |content| then start + Window else |content|;
    var i := start;
    while i < stop
      invariant start <= i <= stop == Limit(content, start)
      invariant ScanState(level, inString, escapeNext) == Walk(content, start, i)
      invariant forall k :: start < k <= i ==> !ClosesAt(content, start, k)
      invariant endPos == start
    {
      var c := content[i];
      if escapeNext {
        escapeNext := false;
        i := i + 1;
        continue;
      }
      if c == '\\' {
        escapeNext := true;
      } else if c == '"' && !escapeNext {
        inString := !inString;
      } else if !inString {
        if c == '{' {
          level := level + 1;
        } else if c == '}' {
          level := level - 1;
          if level == 0 {
            assert ClosesAt(content, start, i + 1);
            endPos := i + 1;
            break;
          }
        }
      }
      i := i + 1;
    }
  }

  /** Before the object closes, the depth of a walk that starts at `{` stays positive. */
  lemma {:induction false} DepthPositiveBeforeClose(content: string, start: nat, i: nat)
    requires start < i <= |content| && content[start] == '{'
    requires forall k :: start < k <= i ==> !ClosesAt(content, start, k)
    ensures Walk(content, start, i).level >= 1
  {
    if i > start + 1 {
      DepthPositiveBeforeClose(content, start, i - 1);
      assert !ClosesAt(content, start, i);
    }
  }

  /**
   * What the walk promises about the object starting at `{`: the depth is positive
   * at every position before the end; at the end the last character read is `}` and
   * the depth is 0. With no close in the window the depth stays positive throughout.
   */
  lemma BalancedObject(content: string, start: nat)
    requires start < |content| && content[start] == '{'
    ensures var e := ObjectEnd(content, start);
      && (e != start ==>
            && start < e <= Limit(content, start)
            && content[e - 1] == '}'
            && Walk(content, start, e).level == 0
            && forall k :: start < k < e ==> Walk(content, start, k).level > 0)
      && (e == start ==> forall k :: start < k <= Limit(content, start) ==> Walk(content, start, k).level > 0)
  {
    var e := ObjectEnd(content, start);
    if e != start {
      forall k | start < k < e ensures Walk(content, start, k).level > 0 {
        DepthPositiveBeforeClose(content, start, k);
      }
    } else {
      forall k | start < k <= Limit(content, start) ensures Walk(content, start, k).level > 0 {
        DepthPositiveBeforeClose(content, start, k);
      }
    }
  }

  /** The walk depends only on the characters it has read: it can be replayed on any slice that holds them. */
  lemma {:induction false} WalkOnSlice(content: string, start: nat, e: nat, k: nat)
    requires start <= k <= e <= |content|
    ensures Walk(content, start, k) == Walk(content[start..e], 0, k - start)
  {
    if k > start {
      WalkOnSlice(content, start, e, k - 1);
      assert content[start..e][k - 1 - start] == content[k - 1];
    }
  }
}
