/** The path rewrite applied by the `LowerCaseURI` middleware before routing.

    Resource paths are case-insensitive, so every request path is lower-cased,
    except paths that mention the administrative dashboard in any casing,
    which are forwarded untouched. Only ASCII letters are folded here. */
module PathNormalization {

  /** The administrative segment that exempts a path from lower-casing. */
  const Reserved: string := "dashboard"

  predicate IsUpper(c: char) {
    'A' <= c <= 'Z'
  }

  predicate HasNoUpper(s: string) {
    forall i :: 0 <= i < |s| ==> !IsUpper(s[i])
  }

  /** ASCII lower-casing of one character. */
  function LowerChar(c: char): (d: char)
    ensures !IsUpper(d)
    ensures !IsUpper(c) ==> d == c
    ensures IsUpper(c) ==> d as int - c as int == 'a' as int - 'A' as int
  {
    if IsUpper(c) then (c as int + ('a' as int - 'A' as int)) as char else c
  }

  /** `strings.ToLower`, restricted to ASCII. */
  function ToLower(s: string): (r: string)
    ensures |r| == |s|
    ensures forall i :: 0 <= i < |s| ==> r[i] == LowerChar(s[i])
    decreases |s|
  {
    if s == [] then [] else [LowerChar(s[0])] + ToLower(s[1..])
  }

  /** `strings.Contains`: does `pat` occur somewhere in `s`? */
  function Contains(s: string, pat: string): bool
    decreases |s|
  {
    if |s| < |pat| then false
    else if s[..|pat|] == pat then true
    else Contains(s[1..], pat)
  }

  /** The rewrite: keep a dashboard path as it is, otherwise lower-case it. */
  function NormalizePath(p: string): (r: string)
    ensures MentionsDashboard(p) ==> r == p
    ensures !MentionsDashboard(p) ==> r == ToLower(p)
  {
    ContainsLowerIff(p);
    if Contains(ToLower(p), Reserved) then p else ToLower(p)
  }

  // ---------------------------------------------------------------------
  // Reference definitions

  /** `pat` occurs in `s` at offset `i`. */
  predicate OccursAt(s: string, pat: string, i: int) {
    0 <= i && i + |pat| <= |s| && s[i..i + |pat|] == pat
  }

  /** `pat` (lower case) occurs in `s` at offset `i` when letters are compared without case. */
  predicate OccursIgnoringCaseAt(s: string, pat: string, i: int) {
    0 <= i && i + |pat| <= |s| && forall j :: 0 <= j < |pat| ==> LowerChar(s[i + j]) == pat[j]
  }

  /** The path mentions the administrative segment, in any casing. */
  ghost predicate MentionsDashboard(p: string) {
    exists i :: OccursIgnoringCaseAt(p, Reserved, i)
  }

  // ---------------------------------------------------------------------
  // Lemmas

  lemma {:induction false} ContainsIff(s: string, pat: string)
    ensures Contains(s, pat) <==> exists i :: OccursAt(s, pat, i)
    decreases |s|
  {
    if |s| < |pat| {
    } else if s[..|pat|] == pat {
      assert OccursAt(s, pat, 0);
    } else {
      ContainsIff(s[1..], pat);
      if exists i :: OccursAt(s, pat, i) {
        var i :| OccursAt(s, pat, i);
        assert i != 0;
        assert s[1..][i - 1..i - 1 + |pat|] == s[i..i + |pat|];
        assert OccursAt(s[1..], pat, i - 1);
      }
      if exists i :: OccursAt(s[1..], pat, i) {
        var i :| OccursAt(s[1..], pat, i);
        assert s[i + 1..i + 1 + |pat|] == s[1..][i..i + |pat|];
        assert OccursAt(s, pat, i + 1);
      }
    }
  }

  /** Searching the lower-cased path is exactly a case-insensitive search. */
  lemma ContainsLowerIff(p: string)
    ensures Contains(ToLower(p), Reserved) <==> MentionsDashboard(p)
  {
    var q := ToLower(p);
    ContainsIff(q, Reserved);
    if exists i :: OccursAt(q, Reserved, i) {
      var i :| OccursAt(q, Reserved, i);
      forall j | 0 <= j < |Reserved|
        ensures LowerChar(p[i + j]) == Reserved[j]
      {
        assert q[i..i + |Reserved|][j] == q[i + j];
      }
      assert OccursIgnoringCaseAt(p, Reserved, i);
    }
    if MentionsDashboard(p) {
      var i :| OccursIgnoringCaseAt(p, Reserved, i);
      assert q[i..i + |Reserved|] == Reserved;
      assert OccursAt(q, Reserved, i);
    }
  }

  lemma ToLowerFixesLower(s: string)
    requires HasNoUpper(s)
    ensures ToLower(s) == s
  {
  }

  /** A dashboard path is forwarded unchanged, original casing included;
      any other path is forwarded as its lower-case form, which has the same
      length as the input and no upper-case letter. */
  lemma NormalizePathRule(p: string)
    ensures MentionsDashboard(p) ==> NormalizePath(p) == p
    ensures !MentionsDashboard(p) ==> NormalizePath(p) == ToLower(p)
    ensures !MentionsDashboard(p) ==> HasNoUpper(NormalizePath(p))
    ensures |NormalizePath(p)| == |p|
    ensures forall i :: 0 <= i < |p| ==> NormalizePath(p)[i] == p[i] || NormalizePath(p)[i] == LowerChar(p[i])
  {
    ContainsLowerIff(p);
  }

  /** Normalising a normalised path changes nothing. */
  lemma NormalizePathIdempotent(p: string)
    ensures NormalizePath(NormalizePath(p)) == NormalizePath(p)
  {
  }

  /** Paths that differ only in letter case are treated alike: both are
      dashboard paths or neither is, and outside the dashboard they are
      forwarded as the same path. */
  lemma NormalizePathCaseInsensitive(p: string, q: string)
    requires ToLower(p) == ToLower(q)
    ensures MentionsDashboard(p) <==> MentionsDashboard(q)
    ensures !MentionsDashboard(p) ==> NormalizePath(p) == NormalizePath(q)
  {
    ContainsLowerIff(p);
    ContainsLowerIff(q);
  }

  // The example lemmas below take their path as a parameter fixed by `requires`
  // rather than writing the literal in the `ensures`: the verifier unfolds
  // functions applied to literals eagerly, and that unfolding does not finish.

  /** A mixed-case dashboard path keeps its casing. */
  lemma DashboardPathUntouched(p: string)
    requires p == "/DashBoard/x"
    ensures NormalizePath(p) == p
  {
    assert OccursIgnoringCaseAt(p, Reserved, 1);
    ContainsLowerIff(p);
  }

  /** An entity path does not mention the dashboard in any casing. */
  lemma ResourcePathNoDashboard(p: string)
    requires p == "/Things(1)/Datastreams"
    ensures !MentionsDashboard(p)
  {
    forall i | 0 <= i && i + |Reserved| <= |p|
      ensures !OccursIgnoringCaseAt(p, Reserved, i)
    {
      if LowerChar(p[i]) != 'd' {
        assert LowerChar(p[i + 0]) != Reserved[0];
      } else {
        assert i == 11;
        assert LowerChar(p[i + 2]) != Reserved[2];
      }
    }
  }

  /** An entity path lower-cases letter by letter. */
  lemma LowerResourcePath(p: string)
    requires p == "/Things(1)/Datastreams"
    ensures ToLower(p) == "/things(1)/datastreams"
  {
  }

  /** An entity path is lower-cased. */
  lemma ResourcePathLowered(p: string)
    requires p == "/Things(1)/Datastreams"
    ensures NormalizePath(p) == "/things(1)/datastreams"
  {
    ResourcePathNoDashboard(p);
    ContainsLowerIff(p);
    LowerResourcePath(p);
  }
}
