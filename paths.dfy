/** Base paths: where a manual and its sections live on GOV.UK, and the
    public URL built from a base path. */
module Paths {
  import opened Slugs

  const GuidancePrefix := "/guidance/"

  /** `PublishingApiManual.base_path`: the slug as given, not lower-cased,
      after the `/guidance/` prefix, and readable back from the path. */
  function ManualBasePath(manualSlug: string): (r: string)
    ensures |r| == |GuidancePrefix| + |manualSlug|
    ensures r[..|GuidancePrefix|] == GuidancePrefix
    ensures r[|GuidancePrefix|..] == manualSlug
  {
    GuidancePrefix + manualSlug
  }

  /** `PublishingAPISection.base_path`: `File.join` of the manual's path
      (for the lower-cased manual slug) and the lower-cased section slug.
      Its three parts can be read back from the path. */
  function SectionBasePath(manualSlug: string, sectionSlug: string): (r: string)
    ensures var n := |GuidancePrefix| + |manualSlug|;
      |r| == n + 1 + |sectionSlug| &&
      r[..|GuidancePrefix|] == GuidancePrefix &&
      r[|GuidancePrefix|..n] == Lower(manualSlug) &&
      r[n] == '/' &&
      r[n + 1..] == Lower(sectionSlug)
  {
    ManualBasePath(Lower(manualSlug)) + "/" + Lower(sectionSlug)
  }

  /** `govuk_url`: the frontend's base URL followed by a base path, which
      is the URL's tail. */
  function GovukUrl(frontendBaseUrl: string, basePath: string): (r: string)
    ensures |r| == |frontendBaseUrl| + |basePath|
    ensures r[..|frontendBaseUrl|] == frontendBaseUrl
    ensures r[|frontendBaseUrl|..] == basePath
  {
    frontendBaseUrl + basePath
  }

  /** Different slugs get different manual paths. */
  lemma ManualBasePathInjective(a: string, b: string)
    ensures ManualBasePath(a) == ManualBasePath(b) <==> a == b
  {
    if ManualBasePath(a) == ManualBasePath(b) {
      assert a == ManualBasePath(a)[|GuidancePrefix|..];
    }
  }

  /** Two sections' paths coincide exactly when their slugs agree ignoring
      case (manual slugs holding no `/`, which `File.join` would treat
      specially). In particular the path does not depend on the case of
      either slug. */
  lemma {:induction false} SectionBasePathIff(m1: string, s1: string, m2: string, s2: string)
    requires forall i :: 0 <= i < |m1| ==> m1[i] != '/'
    requires forall i :: 0 <= i < |m2| ==> m2[i] != '/'
    ensures SectionBasePath(m1, s1) == SectionBasePath(m2, s2) <==>
      Lower(m1) == Lower(m2) && Lower(s1) == Lower(s2)
  {
    var p1, p2 := SectionBasePath(m1, s1), SectionBasePath(m2, s2);
    var g := |GuidancePrefix|;
    LowerKeepsSeparators(m1);
    LowerKeepsSeparators(m2);
    if p1 == p2 {
      assert |m1| == |m2|;
      assert Lower(m1) == p1[g..g + |m1|] == Lower(m2);
      assert Lower(s1) == p1[g + |m1| + 1..] == Lower(s2);
    }
  }

  /** For slugs that pass validation the section path is simply the
      manual's path, a `/`, and the section slug. */
  lemma SectionBasePathOfSlugs(m: string, s: string)
    requires IsSlug(m) && IsSlug(s)
    ensures SectionBasePath(m, s) == ManualBasePath(m) + "/" + s
  {
    SlugIsLower(m);
    SlugIsLower(s);
  }
}
