/** Path patterns, and the static check that no two stages can write the same file. */
module Globs {
  import opened Options

  // ---- paths as segment lists --------------------------------------------------------------------

  /** `strings.Split(s, "/")`: never empty. */
  function Split(s: string): (parts: seq<string>)
    ensures |parts| > 0
  {
    if s == "" then [""]
    else
      var front := Split(s[..|s| - 1]);
      if s[|s| - 1] == '/' then front + [""]
      else front[|front| - 1 := front[|front| - 1] + [s[|s| - 1]]]
  }

  /** `strings.Join(parts, "/")` */
  function Join(parts: seq<string>): string {
    if parts == [] then ""
    else if |parts| == 1 then parts[0]
    else Join(parts[..|parts| - 1]) + "/" + parts[|parts| - 1]
  }

  predicate Plain(segment: string) {
    '/' !in segment
  }

  predicate AllPlain(parts: seq<string>) {
    forall k :: 0 <= k < |parts| ==> Plain(parts[k])
  }

  lemma {:induction false} SplitIsPlain(s: string)
    ensures AllPlain(Split(s)) && Join(Split(s)) == s
  {
    if s != "" {
      var front, c := s[..|s| - 1], s[|s| - 1];
      SplitIsPlain(front);
      var parts := Split(front);
      if c == '/' {
        assert (parts + [""])[..|parts|] == parts;
      } else {
        var last := parts[|parts| - 1];
        assert Split(s)[..|parts| - 1] == parts[..|parts| - 1];
        assert Split(s) == parts[..|parts| - 1] + [last + [c]];
        if |parts| > 1 {
          assert Join(parts) == Join(parts[..|parts| - 1]) + "/" + last;
          assert Join(Split(s)) == Join(parts[..|parts| - 1]) + "/" + (last + [c]);
          assert Join(Split(s)) == Join(parts) + [c];
        }
      }
    }
  }

  lemma {:induction false} SplitAppend(s: string, segment: string)
    requires Plain(segment)
    ensures Split(s + "/" + segment) == Split(s) + [segment]
  {
    if segment == "" {
      assert s + "/" + segment == s + "/";
    } else {
      var front, c := segment[..|segment| - 1], segment[|segment| - 1];
      SplitAppend(s, front);
      var whole := s + "/" + segment;
      assert whole[..|whole| - 1] == s + "/" + front && whole[|whole| - 1] == c && c != '/';
      assert segment == front + [c];
    }
  }

  lemma {:induction false} SplitOfPlain(segment: string)
    requires Plain(segment)
    ensures Split(segment) == [segment]
  {
    if segment != "" {
      SplitOfPlain(segment[..|segment| - 1]);
      assert segment[|segment| - 1] != '/';
      assert segment == segment[..|segment| - 1] + [segment[|segment| - 1]];
    }
  }

  lemma {:induction false} SplitOfJoin(parts: seq<string>)
    requires |parts| > 0 && AllPlain(parts)
    ensures Split(Join(parts)) == parts
  {
    var front, last := parts[..|parts| - 1], parts[|parts| - 1];
    assert Plain(last);
    if |parts| == 1 {
      SplitOfPlain(last);
    } else {
      SplitOfJoin(front);
      SplitAppend(Join(front), last);
      assert parts == front + [last];
    }
  }

  lemma {:induction false} JoinPrefix(a: seq<string>, b: seq<string>)
    requires |a| > 0 && a < b
    ensures Join(a) + "/" <= Join(b)
  {
    var front, last := b[..|b| - 1], b[|b| - 1];
    if |a| < |front| {
      JoinPrefix(a, front);
    } else {
      assert a == front;
    }
  }

  lemma {:induction false} SplitPrefix(s: string, t: string)
    requires s + "/" <= t
    ensures Split(s) < Split(t)
    decreases |t|
  {
    var front := t[..|t| - 1];
    if |t| == |s| + 1 {
      assert front == s && t[|t| - 1] == '/';
    } else {
      assert s + "/" <= front;
      SplitPrefix(s, front);
    }
  }

  /** A string prefix that ends at a separator is exactly a proper prefix of the segment list. */
  lemma PrefixIsSegmentPrefix(a: seq<string>, b: seq<string>)
    requires |a| > 0 && |b| > 0 && AllPlain(a) && AllPlain(b)
    ensures Join(a) + "/" <= Join(b) <==> a < b
    ensures Join(a) == Join(b) <==> a == b
  {
    SplitOfJoin(a);
    SplitOfJoin(b);
    if a < b {
      JoinPrefix(a, b);
    }
    if Join(a) + "/" <= Join(b) {
      SplitPrefix(Join(a), Join(b));
    }
  }

  // ---- matching ------------------------------------------------------------------------------------

  /** `strings.ContainsAny(s, "*?[{\\")` */
  predicate Magic(segment: string) {
    exists k :: 0 <= k < |segment| && segment[k] in "*?[{\\"
  }

  /** Classes, alternatives and escapes. */
  predicate Exotic(segment: string) {
    '[' in segment || '{' in segment || '\\' in segment
  }

  /** One segment: `*` is any run of characters, `?` any character. */
  predicate SegmentMatch(pattern: string, segment: string)
    decreases |pattern| + |segment|
  {
    if pattern == "" then segment == ""
    else if pattern[0] == '*' then
      SegmentMatch(pattern[1..], segment) || (segment != "" && SegmentMatch(pattern, segment[1..]))
    else
      segment != "" && (pattern[0] == '?' || pattern[0] == segment[0]) && SegmentMatch(pattern[1..], segment[1..])
  }

  /**
   * Segment lists: `**` is any number of segments. From an exotic segment on, anything may follow, so that
   * this admits every name a pattern could match however classes, alternatives and escapes are read.
   */
  predicate Match(pattern: seq<string>, name: seq<string>)
    decreases |pattern| + |name|
  {
    if pattern == [] then name == []
    else if Exotic(pattern[0]) then true
    else if pattern[0] == "**" then
      Match(pattern[1..], name) || (name != [] && Match(pattern, name[1..]))
    else name != [] && SegmentMatch(pattern[0], name[0]) && Match(pattern[1..], name[1..])
  }

  /** Which patterns are well-formed, which names are protected, and which names a pattern matches. */
  datatype PathRules = PathRules(
    valid: string -> bool, protected: string -> bool, matches: (string, string) -> bool)

  /** Every name a pattern matches starts with the segments of its literal root. */
  ghost predicate RootSound(rules: PathRules) {
    forall p, name :: rules.matches(p, name) ==> RootOf(Split(p)) <= Split(name)
  }

  // ---- literal roots ---------------------------------------------------------------------------------

  /** The segments before the first one with a special character. */
  function RootOf(parts: seq<string>): (r: seq<string>)
    ensures r <= parts && forall k :: 0 <= k < |r| ==> !Magic(r[k])
  {
    if parts == [] || Magic(parts[0]) then [] else [parts[0]] + RootOf(parts[1..])
  }

  /** literalRoot */
  method LiteralRoot(p: string) returns (root: string)
    ensures root == Join(RootOf(Split(p)))
  {
    hide Split, RootOf, Magic;
    var parts, out := Split(p), [];
    assert parts[0..] == parts;
    assert [] + RootOf(parts) == RootOf(parts);
    for k := 0 to |parts|
      invariant RootOf(parts) == out + RootOf(parts[k..])
    {
      RootStep(out, parts, k);
      if Magic(parts[k]) {
        return Join(out);
      }
      out := out + [parts[k]];
    }
    RootEnds(out, parts);
    return Join(out);
  }

  lemma RootStep(out: seq<string>, parts: seq<string>, k: nat)
    requires k < |parts|
    ensures out + RootOf(parts[k..]) == if Magic(parts[k]) then out else (out + [parts[k]]) + RootOf(parts[k + 1..])
  {
    assert parts[k..][0] == parts[k] && parts[k..][1..] == parts[k + 1..];
    assert out + ([parts[k]] + RootOf(parts[k + 1..])) == (out + [parts[k]]) + RootOf(parts[k + 1..]);
  }

  lemma RootEnds(out: seq<string>, parts: seq<string>)
    ensures out + RootOf(parts[|parts|..]) == out
  {
    assert RootOf(parts[|parts|..]) == [];
  }

  lemma {:induction false} LiteralMatch(pattern: string, segment: string)
    requires !Magic(pattern) && SegmentMatch(pattern, segment)
    ensures pattern == segment
  {
    if pattern != "" {
      assert pattern[0] !in "*?[{\\";
      assert !Magic(pattern[1..]) by {
        assert forall k :: 0 <= k < |pattern| - 1 ==> pattern[1..][k] == pattern[k + 1];
      }
      LiteralMatch(pattern[1..], segment[1..]);
      assert pattern == [pattern[0]] + pattern[1..] && segment == [segment[0]] + segment[1..];
    }
  }

  /** Every name a pattern matches starts with the pattern's literal root. */
  lemma {:induction false} MatchStartsWithRoot(pattern: seq<string>, name: seq<string>)
    requires Match(pattern, name)
    ensures RootOf(pattern) <= name
  {
    if pattern != [] && !Magic(pattern[0]) {
      NotMagic(pattern[0]);
      LiteralMatch(pattern[0], name[0]);
      MatchStartsWithRoot(pattern[1..], name[1..]);
      assert name == [name[0]] + name[1..];
    }
  }

  /** A matcher that admits no more than segment by segment matching does is sound. */
  lemma SegmentMatchersAreSound(rules: PathRules)
    requires forall p, name :: rules.matches(p, name) ==> Match(Split(p), Split(name))
    ensures RootSound(rules)
  {
    forall p, name | rules.matches(p, name) ensures RootOf(Split(p)) <= Split(name) {
      MatchStartsWithRoot(Split(p), Split(name));
    }
  }

  lemma NotMagic(segment: string)
    requires !Magic(segment)
    ensures !Exotic(segment) && segment != "**"
  {
    assert forall k :: 0 <= k < |segment| ==> segment[k] !in "*?[{\\";
    assert Magic("**") by {
      assert "**"[0] in "*?[{\\";
    }
  }

  // ---- the conflict check ------------------------------------------------------------------------------

  /** The roots, as the code compares them. */
  predicate RootsClash(x: string, y: string) {
    x == "" || y == "" || x == y || y + "/" <= x || x + "/" <= y
  }

  ghost predicate Clash(p: string, q: string) {
    RootsClash(Join(RootOf(Split(p))), Join(RootOf(Split(q))))
  }

  lemma RootIsPlain(p: string)
    ensures AllPlain(RootOf(Split(p)))
  {
    SplitIsPlain(p);
    var parts, r := Split(p), RootOf(Split(p));
    forall k | 0 <= k < |r| ensures Plain(r[k]) {
      assert r[k] == parts[k];
    }
  }

  /** Two patterns clash exactly when a root is empty or one root's segments are a prefix of the other's. */
  lemma ClashIffPrefix(p: string, q: string)
    ensures Clash(p, q) <==>
      var a, b := RootOf(Split(p)), RootOf(Split(q)); Join(a) == "" || Join(b) == "" || a <= b || b <= a
  {
    var a, b := RootOf(Split(p)), RootOf(Split(q));
    RootIsPlain(p);
    RootIsPlain(q);
    if a != [] && b != [] {
      PrefixIsSegmentPrefix(a, b);
      PrefixIsSegmentPrefix(b, a);
    }
  }

  /** Patterns that do not clash have no common name, whatever a pattern matches beyond its root. */
  lemma NoCommonName(p: string, q: string, rules: PathRules, name: string)
    requires RootSound(rules) && !Clash(p, q)
    ensures !(rules.matches(p, name) && rules.matches(q, name))
  {
    if rules.matches(p, name) && rules.matches(q, name) {
      PrefixesCompare(RootOf(Split(p)), RootOf(Split(q)), Split(name));
      ClashIffPrefix(p, q);
    }
  }

  lemma PrefixesCompare<T>(a: seq<T>, b: seq<T>, s: seq<T>)
    requires a <= s && b <= s
    ensures a <= b || b <= a
  {
    assert a == s[..|a|] && b == s[..|b|];
  }

  datatype StageRef = StageRef(id: string, agent: string)

  datatype Finding = InvalidPath(pattern: string) | PathsConflict(first: string, second: string, p: string, q: string)

  /** An agent that is not declared has no write paths. */
  function PathsOf(agents: map<string, seq<string>>, s: StageRef): seq<string> {
    if s.agent in agents then agents[s.agent] else []
  }

  ghost predicate PathsValid(paths: seq<string>, rules: PathRules) {
    forall k :: 0 <= k < |paths| ==> rules.valid(paths[k]) && !rules.protected(paths[k])
  }

  ghost predicate Apart(ps: seq<string>, qs: seq<string>) {
    forall k, l :: 0 <= k < |ps| && 0 <= l < |qs| ==> !Clash(ps[k], qs[l])
  }

  /** Some pattern of one list clashes with some pattern of the other. */
  method FindClash(ps: seq<string>, qs: seq<string>) returns (r: Option<(string, string)>)
    ensures r.None? <==> Apart(ps, qs)
    ensures r.Some? ==> r.value.0 in ps && r.value.1 in qs && Clash(r.value.0, r.value.1)
  {
    hide Split, RootOf, Join, RootsClash;
    for k := 0 to |ps|
      invariant forall i, l :: 0 <= i < k && 0 <= l < |qs| ==> !Clash(ps[i], qs[l])
    {
      for l := 0 to |qs|
        invariant forall j :: 0 <= j < l ==> !Clash(ps[k], qs[j])
      {
        var x := LiteralRoot(ps[k]);
        var y := LiteralRoot(qs[l]);
        if RootsClash(x, y) {
          return Some((ps[k], qs[l]));
        }
      }
    }
    return None;
  }

  method FindInvalid(paths: seq<string>, rules: PathRules) returns (r: Option<string>)
    ensures r.None? <==> PathsValid(paths, rules)
    ensures r.Some? ==> r.value in paths && (!rules.valid(r.value) || rules.protected(r.value))
  {
    for k := 0 to |paths|
      invariant forall l :: 0 <= l < k ==> rules.valid(paths[l]) && !rules.protected(paths[l])
    {
      if !rules.valid(paths[k]) || rules.protected(paths[k]) {
        return Some(paths[k]);
      }
    }
    return None;
  }

  /** checkWriteConflicts: accepts exactly when every pattern is valid and no two stages' patterns clash. */
  method CheckWriteConflicts(stages: seq<StageRef>, agents: map<string, seq<string>>, rules: PathRules)
      returns (r: Option<Finding>)
    ensures r.None? <==>
      (forall i :: 0 <= i < |stages| ==> PathsValid(PathsOf(agents, stages[i]), rules))
      && (forall i, j :: 0 <= i < j < |stages| ==> Apart(PathsOf(agents, stages[i]), PathsOf(agents, stages[j])))
  {
    hide Apart, PathsValid, PathsOf, Clash;
    for i := 0 to |stages|
      invariant forall k :: 0 <= k < i ==> PathsValid(PathsOf(agents, stages[k]), rules)
      invariant forall k, j :: 0 <= k < i && k < j < |stages| ==>
        Apart(PathsOf(agents, stages[k]), PathsOf(agents, stages[j]))
    {
      var paths := PathsOf(agents, stages[i]);
      var invalid := FindInvalid(paths, rules);
      if invalid.Some? {
        return Some(InvalidPath(invalid.value));
      }
      for j := i + 1 to |stages|
        invariant forall k :: i < k < j ==> Apart(paths, PathsOf(agents, stages[k]))
      {
        var clash := FindClash(paths, PathsOf(agents, stages[j]));
        if clash.Some? {
          return Some(PathsConflict(stages[i].id, stages[j].id, clash.value.0, clash.value.1));
        }
      }
    }
    return None;
  }

  // ---- ownership -------------------------------------------------------------------------------------------

  /** owned: not protected, and matched by a pattern. */
  predicate Owned(name: string, patterns: seq<string>, rules: PathRules) {
    !rules.protected(name) && exists k :: 0 <= k < |patterns| && rules.matches(patterns[k], name)
  }

  method IsOwned(name: string, patterns: seq<string>, rules: PathRules) returns (r: bool)
    ensures r == Owned(name, patterns, rules)
  {
    if rules.protected(name) {
      return false;
    }
    for k := 0 to |patterns|
      invariant forall l :: 0 <= l < k ==> !rules.matches(patterns[l], name)
    {
      if rules.matches(patterns[k], name) {
        return true;
      }
    }
    return false;
  }

  /** What the static check buys: no path is owned by two stages. */
  lemma OwnersAreDisjoint(ps: seq<string>, qs: seq<string>, rules: PathRules, name: string)
    requires RootSound(rules) && Apart(ps, qs)
    ensures !(Owned(name, ps, rules) && Owned(name, qs, rules))
  {
    if Owned(name, ps, rules) && Owned(name, qs, rules) {
      var k :| 0 <= k < |ps| && rules.matches(ps[k], name);
      var l :| 0 <= l < |qs| && rules.matches(qs[l], name);
      NoCommonName(ps[k], qs[l], rules, name);
    }
  }
}
