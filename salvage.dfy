/**
 * The string surgery the agents apply to a free-text model reply before and
 * after `json.loads` (src/agents/agents.py): removing Markdown code fences,
 * the Mentor's greedy `{...}` search, and flattening a dict-valued `thinking`
 * field into `key: value` lines.
 */
module Salvage {
  import opened Wrappers
  import opened Text
  import opened Json

  const OpenFence: string := "```json"
  const Fence: string := "```"

  /** `re.sub(r'```json\s*', '', s)`: every opening fence and the whitespace after it, scanning left to right. */
  function StripOpenFences(s: string): (r: string)
    ensures |r| <= |s|
    decreases |s|
  {
    if |s| >= 7 && s[..7] == OpenFence then
      var rest := s[7..];
      StripOpenFences(rest[SpaceRun(rest)..])
    else if s == [] then []
    else [s[0]] + StripOpenFences(s[1..])
  }

  /** `s[p:]` matches `` ```\s*$ ``: three backticks and nothing but whitespace after them. */
  predicate ClosesAt(s: string, p: int)
  {
    OccursAt(s, p, Fence) && AllSpace(s[p + 3..])
  }

  /** `re.sub(r'```\s*$', '', s)`: the leftmost closing fence that only whitespace follows, and that whitespace. */
  function StripCloseFence(s: string): (r: string)
    ensures r <= s
    ensures r != s ==> ClosesAt(s, |r|)
    ensures forall p :: 0 <= p < |r| ==> !ClosesAt(s, p)
    ensures r == s ==> forall p :: 0 <= p <= |s| ==> !ClosesAt(s, p)
  {
    if |s| >= 3 && s[..3] == Fence && AllSpace(s[3..]) then []
    else if s == [] then []
    else
      var r := [s[0]] + StripCloseFence(s[1..]);
      assert forall p :: 1 <= p <= |s| ==> (ClosesAt(s, p) <==> ClosesAt(s[1..], p - 1)) by {
        forall p | 1 <= p <= |s|
          ensures ClosesAt(s, p) <==> ClosesAt(s[1..], p - 1)
        {
          if p + 3 <= |s| {
            assert s[p..p + 3] == s[1..][p - 1..p + 2];
            assert s[p + 3..] == s[1..][p + 2..];
          }
        }
      }
      r
  }

  /** Both substitutions, in the order the agents apply them. */
  function StripFences(s: string): string
  {
    StripCloseFence(StripOpenFences(s))
  }

  /** Text with no opening fence in it passes the first substitution unchanged. */
  lemma {:induction false} NoOpenFenceUnchanged(s: string)
    requires !Contains(s, OpenFence)
    ensures StripOpenFences(s) == s
  {
    if s != [] {
      assert !OccursAt(s, 0, OpenFence);
      assert !Contains(s[1..], OpenFence) by {
        forall p | 0 <= p <= |s[1..]| - |OpenFence|
          ensures !OccursAt(s[1..], p, OpenFence)
        {
          assert !OccursAt(s, p + 1, OpenFence);
          assert s[1..][p..p + 7] == s[p + 1..p + 8];
        }
      }
      NoOpenFenceUnchanged(s[1..]);
    }
  }

  /** The reply shape a model typically produces: a JSON text in a fenced block. */
  function Fenced(body: string): string
  {
    OpenFence + "\n" + body + "\n" + Fence
  }

  /** The opening fence and the line break after it go; nothing else does. */
  lemma OpenFenceOfFenced(body: string)
    requires body != [] && !IsSpace(body[0])
    requires !Contains(body, OpenFence)
    ensures StripOpenFences(Fenced(body)) == body + "\n" + Fence
  {
    var s := Fenced(body);
    var t := body + "\n" + Fence;
    var rest := s[7..];
    assert s[..7] == OpenFence;
    assert rest == "\n" + body + "\n" + Fence;
    assert rest[1..] == t;
    assert SpaceRun(rest) == 1 by {
      assert IsSpace(rest[0]);
      assert !IsSpace(rest[1..][0]);
    }
    assert !Contains(t, OpenFence) by {
      forall p | 0 <= p <= |t| - 7
        ensures !OccursAt(t, p, OpenFence)
      {
        if p + 7 <= |body| {
          assert t[p..p + 7] == body[p..p + 7];
          assert !OccursAt(body, p, OpenFence);
        } else {
          var k := |body| - p;
          assert 0 <= k < 7 && t[p + k] == '\n';
          assert t[p..p + 7][k] == '\n';
          assert OpenFence[k] != '\n' by {
            assert forall j :: 0 <= j < 7 ==> OpenFence[j] != '\n';
          }
        }
      }
    }
    NoOpenFenceUnchanged(t);
  }

  /** The closing fence after the last line break goes, and only it. */
  lemma CloseFenceOfBody(body: string)
    ensures StripCloseFence(body + "\n" + Fence) == body + "\n"
  {
    var t := body + "\n" + Fence;
    var n := |body|;
    assert ClosesAt(t, n + 1) by {
      assert t[n + 1..n + 4] == Fence;
      assert t[n + 4..] == [];
    }
    assert forall p :: 0 <= p < n + 1 ==> !ClosesAt(t, p) by {
      forall p | 0 <= p < n + 1
        ensures !ClosesAt(t, p)
      {
        if p + 3 <= n + 1 {
          var k := n + 1 - (p + 3);
          assert t[p + 3 + k] == '`';
          assert t[p + 3..][k] == '`';
          assert !IsSpace('`');
        } else {
          var k := n - p;
          assert 0 <= k < 3 && t[p + k] == '\n';
          assert t[p..p + 3][k] == '\n';
          assert Fence[k] != '\n';
        }
      }
    }
    var r := StripCloseFence(t);
    assert |r| == n + 1;
    assert r == t[..n + 1];
    assert t[..n + 1] == body + "\n";
  }

  /**
   * Stripping a fenced block gives back its body (with the newline before
   * the closing fence, which `json.loads` ignores), as long as the body does
   * not itself start with whitespace or contain an opening fence.
   */
  lemma FencedRoundTrip(body: string)
    requires body != [] && !IsSpace(body[0])
    requires !Contains(body, OpenFence)
    ensures StripFences(Fenced(body)) == body + "\n"
  {
    OpenFenceOfFenced(body);
    CloseFenceOfBody(body);
  }

  /** Index of the first `c` in `s`. */
  function FirstIndex(s: string, c: char): (r: Option<nat>)
    ensures r.Some? ==> r.value < |s| && s[r.value] == c
    ensures r.Some? ==> forall k :: 0 <= k < r.value ==> s[k] != c
    ensures r.None? ==> forall k :: 0 <= k < |s| ==> s[k] != c
  {
    if s == [] then None
    else if s[0] == c then Some(0)
    else
      match FirstIndex(s[1..], c)
      case None => None
      case Some(i) => Some(i + 1)
  }

  /** Index of the last `c` in `s`. */
  function LastIndex(s: string, c: char): (r: Option<nat>)
    ensures r.Some? ==> r.value < |s| && s[r.value] == c
    ensures r.Some? ==> forall k :: r.value < k < |s| ==> s[k] != c
    ensures r.None? ==> forall k :: 0 <= k < |s| ==> s[k] != c
  {
    if s == [] then None
    else if s[|s| - 1] == c then Some(|s| - 1)
    else
      var init := s[..|s| - 1];
      match LastIndex(init, c)
      case None => None
      case Some(i) => Some(i)
  }

  /** `m` sits at index `i` of `s`, with no `{` before it and no `}` after it. */
  predicate OutermostAt(s: string, i: int, m: string)
  {
    0 <= i <= |s| - |m| && s[i..i + |m|] == m
    && (forall k :: 0 <= k < i ==> s[k] != '{')
    && (forall k :: i + |m| <= k < |s| ==> s[k] != '}')
  }

  /**
   * `re.search(r'\{[\s\S]*\}', s)`: from the first `{` to the last `}` after
   * it. There is a match exactly when some `{` comes before some `}`.
   */
  function BraceSpan(s: string): (r: Option<string>)
    ensures r.Some? ==> |r.value| >= 2 && r.value[0] == '{' && r.value[|r.value| - 1] == '}'
    ensures r.Some? ==> exists i :: OutermostAt(s, i, r.value)
    ensures r.None? <==> !exists i, j :: 0 <= i < j < |s| && s[i] == '{' && s[j] == '}'
  {
    match FirstIndex(s, '{')
    case None => None
    case Some(i) =>
      match LastIndex(s, '}')
      case None => None
      case Some(j) =>
        if j < i then
          None
        else
          assert s[i] == '{' && s[j] == '}';
          var m := s[i..j + 1];
          assert OutermostAt(s, i, m);
          Some(m)
  }

  // ---- flattening a dict-valued `thinking` ----

  const ThinkingKey: string := "thinking"

  /** `[f"{k}: {v}" for k, v in d.items()]`. */
  function ThinkingLines(d: seq<(string, Json)>): (lines: seq<string>)
    ensures |lines| == |d|
  {
    seq(|d|, i requires 0 <= i < |d| => d[i].0 + ": " + Str(d[i].1))
  }

  /**
   * `if isinstance(parsed.get('thinking'), dict): parsed['thinking'] = '\n'.join(...)`:
   * the key order and every other field stay as they are.
   */
  function FlattenThinking(fields: seq<(string, Json)>): (r: seq<(string, Json)>)
    ensures Keys(r) == Keys(fields)
    ensures forall k :: k != ThinkingKey ==> Get(r, k) == Get(fields, k)
    ensures Get(r, ThinkingKey) ==
              match Get(fields, ThinkingKey)
              case Some(JObj(d)) => Some(JStr(Join(ThinkingLines(d), "\n")))
              case other => other
  {
    match Get(fields, ThinkingKey)
    case Some(JObj(d)) =>
      GetInKeys(fields, ThinkingKey);
      Put(fields, ThinkingKey, JStr(Join(ThinkingLines(d), "\n")))
    case _ => fields
  }

  /** Flattening keeps a dict a dict: its keys stay distinct. */
  lemma FlattenKeepsDistinct(fields: seq<(string, Json)>)
    requires DistinctKeys(fields)
    ensures DistinctKeys(FlattenThinking(fields))
  {
    var r := FlattenThinking(fields);
    forall i, j | 0 <= i < j < |r|
      ensures r[i].0 != r[j].0
    {
      assert Keys(r)[i] == Keys(fields)[i] && Keys(r)[j] == Keys(fields)[j];
    }
  }

  lemma {:induction false} GetInKeys(fields: seq<(string, Json)>, key: string)
    requires Get(fields, key).Some?
    ensures key in Keys(fields)
  {
    if fields[0].0 != key {
      GetInKeys(fields[1..], key);
    }
  }

  /** After flattening, `thinking` is never a dict, so a second pass changes nothing. */
  lemma FlattenIdempotent(fields: seq<(string, Json)>)
    ensures FlattenThinking(FlattenThinking(fields)) == FlattenThinking(fields)
  {
  }

  /**
   * The flattened text has one line per entry of the dict, in the dict's
   * order, when no entry's text holds a line break of its own.
   */
  lemma FlattenedLines(fields: seq<(string, Json)>, d: seq<(string, Json)>)
    requires Get(fields, ThinkingKey) == Some(JObj(d))
    requires |d| >= 1
    requires forall i :: 0 <= i < |d| ==> '\n' !in ThinkingLines(d)[i]
    ensures Get(FlattenThinking(fields), ThinkingKey).Some?
    ensures var t := Get(FlattenThinking(fields), ThinkingKey).value;
            t.JStr? && Split(t.s, '\n') == ThinkingLines(d)
  {
    SplitJoin(ThinkingLines(d), '\n');
  }
}
