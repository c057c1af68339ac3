/** Extraction of the region from an AWS Lambda ARN.

    The parser behaves like `re.search` with the pattern `arn:aws:lambda:([^:]+):`:
    it looks for the leftmost offset at which the prefix `arn:aws:lambda:` is
    followed by a non-empty run of non-colon characters and then a colon, and
    yields that run; without such an offset it yields the default region. Because
    the character class excludes the colon, the run at a given offset is forced to
    be the maximal colon-free run after the prefix, so no backtracking is needed.
 */
module ArnRegion {
  import opened Results

  const LambdaArnPrefix: string := "arn:aws:lambda:"
  const DefaultRegion: string := "us-east-1"

  /** The pattern matches `s` at offset `i` with `region` as its captured group:
      `s[i..]` starts with the prefix, then `region`, then a colon. */
  predicate RegionAt(s: string, i: nat, region: string) {
    && i + |LambdaArnPrefix| + |region| < |s|
    && s[i..i + |LambdaArnPrefix|] == LambdaArnPrefix
    && s[i + |LambdaArnPrefix|..i + |LambdaArnPrefix| + |region|] == region
    && s[i + |LambdaArnPrefix| + |region|] == ':'
    && |region| > 0
    && ':' !in region
  }

  /** The pattern matches at offset `i` and at no earlier offset. */
  ghost predicate LeftmostRegion(s: string, i: nat, region: string) {
    && RegionAt(s, i, region)
    && forall j: nat, r: string :: j < i ==> !RegionAt(s, j, r)
  }

  /** The index of the first colon at or after `j`, or `|s|` when there is none. */
  function RunEnd(s: string, j: nat): (k: nat)
    requires j <= |s|
    ensures j <= k <= |s|
    ensures forall m :: j <= m < k ==> s[m] != ':'
    ensures k < |s| ==> s[k] == ':'
    decreases |s| - j
  {
    if j == |s| || s[j] == ':' then j else RunEnd(s, j + 1)
  }

  /** A region captured at `i` is exactly the colon-free run after the prefix. */
  lemma RegionIsRun(s: string, i: nat, r: string)
    requires RegionAt(s, i, r)
    ensures RunEnd(s, i + |LambdaArnPrefix|) == i + |LambdaArnPrefix| + |r|
    ensures r == s[i + |LambdaArnPrefix|..RunEnd(s, i + |LambdaArnPrefix|)]
  {
  }

  /** At most one region is captured at any offset. */
  lemma RegionAtUnique(s: string, i: nat, r1: string, r2: string)
    requires RegionAt(s, i, r1) && RegionAt(s, i, r2)
    ensures r1 == r2
  {
  }

  /** The colon-free run after a prefix at `i`, when non-empty and closed by a colon, is captured. */
  lemma RunIsRegion(s: string, i: nat)
    requires i + |LambdaArnPrefix| <= |s|
    requires s[i..i + |LambdaArnPrefix|] == LambdaArnPrefix
    requires i + |LambdaArnPrefix| < RunEnd(s, i + |LambdaArnPrefix|) < |s|
    ensures RegionAt(s, i, s[i + |LambdaArnPrefix|..RunEnd(s, i + |LambdaArnPrefix|)])
  {
  }

  /** Tries the pattern at offset `i` only: the captured region, if any. */
  function RegionStartingAt(s: string, i: nat): (m: Option<string>)
    requires i <= |s|
    ensures m.Some? ==> RegionAt(s, i, m.value)
    ensures forall r :: RegionAt(s, i, r) ==> m == Some(r)
  {
    var j := i + |LambdaArnPrefix|;
    if j <= |s| && s[i..j] == LambdaArnPrefix then
      var k := RunEnd(s, j);
      assert forall r :: RegionAt(s, i, r) ==> r == s[j..k] by {
        forall r | RegionAt(s, i, r)
          ensures r == s[j..k]
        {
          RegionIsRun(s, i, r);
        }
      }
      if j < k < |s| then
        RunIsRegion(s, i);
        Some(s[j..k])
      else
        None
    else
      None
  }

  /** Where and what the pattern captured. */
  datatype Match = Match(start: nat, region: string)

  /** Tries the pattern at `i`, `i + 1`, ... in turn, as `re.search` does from `i`. */
  function FirstRegionFrom(s: string, i: nat): (m: Option<Match>)
    requires i <= |s|
    ensures m.Some? ==> i <= m.value.start && RegionAt(s, m.value.start, m.value.region)
    ensures m.Some? ==> forall j: nat, r :: i <= j < m.value.start ==> !RegionAt(s, j, r)
    ensures m.None? ==> forall j: nat, r :: i <= j ==> !RegionAt(s, j, r)
    decreases |s| - i
  {
    match RegionStartingAt(s, i)
    case Some(r) => Some(Match(i, r))
    case None => if i == |s| then None else FirstRegionFrom(s, i + 1)
  }

  /** The region of the leftmost match in `arn`, or the default region. */
  function ExtractRegionFromArn(arn: string): (region: string)
    ensures (forall i: nat, r :: !RegionAt(arn, i, r)) ==> region == DefaultRegion
    ensures (exists i: nat, r :: RegionAt(arn, i, r)) ==> exists i: nat :: LeftmostRegion(arn, i, region)
  {
    match FirstRegionFrom(arn, 0)
    case Some(m) =>
      assert LeftmostRegion(arn, m.start, m.region);
      m.region
    case None => DefaultRegion
  }

  /** The result is either the default (no match anywhere) or a non-empty,
      colon-free piece of the input framed by the prefix and a colon. */
  lemma ExtractRegionShape(arn: string)
    ensures var region := ExtractRegionFromArn(arn);
            || (region == DefaultRegion && forall i: nat, r :: !RegionAt(arn, i, r))
            || (|region| > 0 && ':' !in region && exists i: nat :: RegionAt(arn, i, region))
  {
  }

  /** A well-formed Lambda ARN yields its region field. */
  lemma ExtractRegionOfLambdaArn(region: string, rest: string)
    requires |region| > 0 && ':' !in region
    ensures ExtractRegionFromArn(LambdaArnPrefix + region + ":" + rest) == region
  {
    var s := LambdaArnPrefix + region + ":" + rest;
    var p := |LambdaArnPrefix|;
    assert s[0..p] == LambdaArnPrefix;
    assert s[p..p + |region|] == region;
    assert s[p + |region|] == ':';
    assert RegionAt(s, 0, region);
    var found := ExtractRegionFromArn(s);
    var i: nat :| LeftmostRegion(s, i, found);
    assert !(0 < i);
    RegionAtUnique(s, 0, region, found);
  }

  /** Whether the pattern matches at an offset of `t` does not depend on what precedes `t`. */
  lemma RegionAtShift(u: string, t: string, k: nat, r: string)
    ensures RegionAt(u + t, |u| + k, r) <==> RegionAt(t, k, r)
  {
  }

  /** A prefix followed at once by a colon captures nothing, and neither does any offset inside it. */
  lemma NoRegionInEmptyField(t: string)
    ensures forall j: nat, r :: j <= |LambdaArnPrefix| ==> !RegionAt(LambdaArnPrefix + ":" + t, j, r)
  {
    var s := LambdaArnPrefix + ":" + t;
    var p := |LambdaArnPrefix|;
    assert s[..p + 1] == LambdaArnPrefix + ":";
    forall j: nat, r | j <= p
      ensures !RegionAt(s, j, r)
    {
      if j == 0 {
        if |r| > 0 && p + |r| <= |s| {
          assert s[p..p + |r|][0] == ':';
        }
      } else {
        assert s[j] != LambdaArnPrefix[0] || s[j + 1] != LambdaArnPrefix[1];
        if j + p <= |s| {
          assert s[j..j + p][0] == s[j] && s[j..j + p][1] == s[j + 1];
        }
      }
    }
  }

  /** An occurrence of the prefix with an empty region does not stop the search:
      the region is then taken from what follows, as if the failed occurrence were absent. */
  lemma EmptyRegionIsSkipped(t: string)
    ensures ExtractRegionFromArn(LambdaArnPrefix + ":" + t) == ExtractRegionFromArn(t)
  {
    var u := LambdaArnPrefix + ":";
    if exists i: nat, r :: RegionAt(t, i, r) {
      SkippedToLeftmost(u, t);
    } else {
      NothingAfterEmptyField(u, t);
    }
  }

  /** When `t` has a match, the leftmost match of `u + t` is the leftmost match of `t`, shifted. */
  lemma SkippedToLeftmost(u: string, t: string)
    requires u == LambdaArnPrefix + ":"
    requires exists i: nat, r :: RegionAt(t, i, r)
    ensures ExtractRegionFromArn(u + t) == ExtractRegionFromArn(t)
  {
    var s := u + t;
    var rt := ExtractRegionFromArn(t);
    var k: nat :| LeftmostRegion(t, k, rt);
    RegionAtShift(u, t, k, rt);
    var rs := ExtractRegionFromArn(s);
    var i: nat :| LeftmostRegion(s, i, rs);
    NoRegionInEmptyField(t);
    assert i >= |u|;
    RegionAtShift(u, t, i - |u|, rs);
    assert i - |u| == k;
    RegionAtUnique(t, k, rt, rs);
  }

  /** When `t` has no match, neither has `u + t`, so both yield the default region. */
  lemma NothingAfterEmptyField(u: string, t: string)
    requires u == LambdaArnPrefix + ":"
    requires forall i: nat, r :: !RegionAt(t, i, r)
    ensures ExtractRegionFromArn(u + t) == DefaultRegion
  {
    var s := u + t;
    NoRegionInEmptyField(t);
    forall i: nat, r
      ensures !RegionAt(s, i, r)
    {
      if i >= |u| {
        RegionAtShift(u, t, i - |u|, r);
      }
    }
  }
}
