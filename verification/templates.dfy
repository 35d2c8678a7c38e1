/** `{{key}}` template substitution of the email node
    (api/services/nodes/node_email.go): Go's strings.ReplaceAll for a
    non-empty pattern, and its equivalent reading as Join(Split(s, old), new). */
module Templates {
  import opened Wrappers
  import opened Values

  /** `pat` occurs in `s` at position `k`. */
  predicate OccursAt(s: string, pat: string, k: nat) {
    k + |pat| <= |s| && s[k..k + |pat|] == pat
  }

  /** The first occurrence of `pat` at or after `from`, as strings.Index finds it. */
  function IndexFrom(s: string, pat: string, from: nat): (i: Option<nat>)
    requires |pat| > 0
    ensures i.Some? ==> from <= i.value && OccursAt(s, pat, i.value)
    ensures i.Some? ==> forall k :: from <= k < i.value ==> !OccursAt(s, pat, k)
    ensures i.None? ==> forall k :: from <= k ==> !OccursAt(s, pat, k)
    decreases |s| - from
  {
    if from + |pat| > |s| then None
    else if s[from..from + |pat|] == pat then Some(from)
    else IndexFrom(s, pat, from + 1)
  }

  function Index(s: string, pat: string): (i: Option<nat>)
    requires |pat| > 0
    ensures i.Some? ==> OccursAt(s, pat, i.value) && forall k :: 0 <= k < i.value ==> !OccursAt(s, pat, k)
    ensures i.None? ==> forall k :: 0 <= k ==> !OccursAt(s, pat, k)
  {
    IndexFrom(s, pat, 0)
  }

  predicate Contains(s: string, pat: string)
    requires |pat| > 0
  {
    Index(s, pat).Some?
  }

  /** strings.ReplaceAll: copy up to the first occurrence, write the
      replacement, and carry on after the occurrence. */
  function ReplaceAll(s: string, pat: string, rep: string): (r: string)
    requires |pat| > 0
    ensures !Contains(s, pat) ==> r == s
    decreases |s|
  {
    match Index(s, pat)
    case None => s
    case Some(i) => s[..i] + rep + ReplaceAll(s[i + |pat|..], pat, rep)
  }

  /** strings.Split: the pieces between successive first occurrences. */
  function Split(s: string, pat: string): (parts: seq<string>)
    requires |pat| > 0
    ensures |parts| > 0
    ensures forall j :: 0 <= j < |parts| ==> !Contains(parts[j], pat)
    decreases |s|
  {
    match Index(s, pat)
    case None => [s]
    case Some(i) =>
      var head := s[..i];
      assert !Contains(head, pat) by {
        forall k: nat | OccursAt(head, pat, k) ensures false {
          assert s[k..k + |pat|] == head[k..k + |pat|];
          assert OccursAt(s, pat, k) && k < i;
        }
      }
      [head] + Split(s[i + |pat|..], pat)
  }

  /** strings.Join. */
  function Join(parts: seq<string>, sep: string): string {
    if |parts| == 0 then ""
    else if |parts| == 1 then parts[0]
    else parts[0] + sep + Join(parts[1..], sep)
  }

  /** ReplaceAll replaces every occurrence: it is the split of `s` around
      the pattern, rejoined with the replacement. */
  lemma {:induction false} ReplaceAllIsSplitJoin(s: string, pat: string, rep: string)
    requires |pat| > 0
    ensures ReplaceAll(s, pat, rep) == Join(Split(s, pat), rep)
    decreases |s|
  {
    match Index(s, pat)
    case None =>
    case Some(i) =>
      var rest := s[i + |pat|..];
      ReplaceAllIsSplitJoin(rest, pat, rep);
      var parts := Split(rest, pat);
      assert Split(s, pat) == [s[..i]] + parts;
      JoinCons(s[..i], parts, rep);
  }

  /** Splitting around a pattern and joining with it again gives back the
      original string. */
  lemma {:induction false} SplitJoinRoundTrip(s: string, pat: string)
    requires |pat| > 0
    ensures Join(Split(s, pat), pat) == s
    decreases |s|
  {
    match Index(s, pat)
    case None =>
    case Some(i) =>
      var rest := s[i + |pat|..];
      SplitJoinRoundTrip(rest, pat);
      var parts := Split(rest, pat);
      assert Split(s, pat) == [s[..i]] + parts;
      JoinCons(s[..i], parts, pat);
      Reassemble(s, pat, i);
  }

  lemma JoinCons(head: string, parts: seq<string>, sep: string)
    requires |parts| > 0
    ensures Join([head] + parts, sep) == head + sep + Join(parts, sep)
  {
    assert ([head] + parts)[1..] == parts;
  }

  lemma Reassemble(s: string, pat: string, i: nat)
    requires OccursAt(s, pat, i)
    ensures s == s[..i] + pat + s[i + |pat|..]
  {
    assert s == s[..i] + s[i..i + |pat|] + s[i + |pat|..];
  }

  /** Replacing a pattern by itself changes nothing. */
  lemma ReplaceAllSelf(s: string, pat: string)
    requires |pat| > 0
    ensures ReplaceAll(s, pat, pat) == s
  {
    ReplaceAllIsSplitJoin(s, pat, pat);
    SplitJoinRoundTrip(s, pat);
  }

  function Placeholder(key: string): (p: string)
    ensures |p| == |key| + 4
    ensures p[..2] == "{{" && p[2..|p| - 2] == key && p[|p| - 2..] == "}}"
  {
    "{{" + key + "}}"
  }

  /** resolveTemplate, the variables taken in the given order: each
      `{{key}}` is replaced by the rendered value.  Go visits the map in an
      unspecified order, so the order is an explicit input and nothing here
      claims independence from it. */
  function ResolveTemplate(tmpl: string, vars: seq<(string, Value)>, render: Value -> string): (r: string)
    ensures |vars| == 0 ==> r == tmpl
    decreases |vars|
  {
    if |vars| == 0 then tmpl
    else ResolveTemplate(ReplaceAll(tmpl, Placeholder(vars[0].0), render(vars[0].1)), vars[1..], render)
  }

  /** A template with no placeholder for any of the variables is returned unchanged. */
  lemma {:induction false} NoPlaceholderUnchanged(tmpl: string, vars: seq<(string, Value)>, render: Value -> string)
    requires forall i :: 0 <= i < |vars| ==> !Contains(tmpl, Placeholder(vars[i].0))
    ensures ResolveTemplate(tmpl, vars, render) == tmpl
    decreases |vars|
  {
    if |vars| > 0 {
      assert ReplaceAll(tmpl, Placeholder(vars[0].0), render(vars[0].1)) == tmpl;
      forall i | 0 <= i < |vars[1..]| ensures !Contains(tmpl, Placeholder(vars[1..][i].0)) {
        assert vars[1..][i] == vars[i + 1];
      }
      NoPlaceholderUnchanged(tmpl, vars[1..], render);
    }
  }

  /** With a single variable, every `{{key}}` is replaced by its text. */
  lemma SingleVariable(tmpl: string, key: string, v: Value, render: Value -> string)
    ensures ResolveTemplate(tmpl, [(key, v)], render) == Join(Split(tmpl, Placeholder(key)), render(v))
  {
    ReplaceAllIsSplitJoin(tmpl, Placeholder(key), render(v));
  }
}
