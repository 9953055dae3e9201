/** The pieces both `to_h` implementations share: merging the fixed
    content-item entries over the incoming attributes, and stamping a
    `base_path` onto section entries (child sections and breadcrumbs). Each
    step that Ruby can abort with an exception (a missing hash, a
    `section_id` that is not a string) yields `None`. */
module Enrichment {
  import opened JsonTree
  import opened Paths

  const PublishingApp := "hmrc-manuals-api"
  const RenderingApp := "manuals-frontend"

  /** The keys `to_h` merges in. */
  const EnrichmentKeys: set<string> := {"base_path", "format", "publishing_app", "rendering_app", "routes"}

  /** `{ path: base_path, type: :exact }` */
  function ExactRoute(path: string): Json {
    Obj(map["path" := Str(path), "type" := Str("exact")])
  }

  /** `attributes.merge({ base_path:, format:, publishing_app:, rendering_app:,
      routes: })`: `Hash#merge` lets the merged entries win; any other
      value than a hash has no `merge` and raises. */
  function Enrich(attrs: Json, basePath: string, format: string): (r: Option<Json>)
    ensures r.Some? <==> attrs.Obj?
    ensures r.Some? ==> r.value.Obj? && r.value.fields.Keys == attrs.fields.Keys + EnrichmentKeys
    ensures r.Some? ==>
      Lookup(r.value, "base_path") == Str(basePath) &&
      Lookup(r.value, "format") == Str(format) &&
      Lookup(r.value, "publishing_app") == Str(PublishingApp) &&
      Lookup(r.value, "rendering_app") == Str(RenderingApp) &&
      Lookup(r.value, "routes") == Arr([ExactRoute(basePath)])
    ensures r.Some? ==>
      forall k :: k in attrs.fields && k !in EnrichmentKeys ==> r.value.fields[k] == attrs.fields[k]
  {
    if attrs.Obj? then
      Some(Obj(attrs.fields + map[
        "base_path" := Str(basePath),
        "format" := Str(format),
        "publishing_app" := Str(PublishingApp),
        "rendering_app" := Str(RenderingApp),
        "routes" := Arr([ExactRoute(basePath)])]))
    else None
  }

  /** The route of a content item after steps that may add entries: one
      route, with the given path and type `exact`. */
  predicate IsExactRouteList(v: Json, path: string) {
    v.Arr? && |v.items| == 1 &&
    Lookup(v.items[0], "path") == Str(path) && Lookup(v.items[0], "type") == Str("exact")
  }

  lemma ExactRouteSurvives(a: Json, b: Json, path: string)
    requires Grows(a, b)
    requires IsExactRouteList(a, path)
    ensures IsExactRouteList(b, path)
  {
    GrowsLeaf(a.items[0], b.items[0], "path");
    GrowsLeaf(a.items[0], b.items[0], "type");
  }

  /** The merged entries, as they can be read from a content item: the
      path, the format and app names, and one exact route at the path. */
  predicate CarriesEnrichment(t: Json, path: string, format: string) {
    Lookup(t, "base_path") == Str(path) &&
    Lookup(t, "format") == Str(format) &&
    Lookup(t, "publishing_app") == Str(PublishingApp) &&
    Lookup(t, "rendering_app") == Str(RenderingApp) &&
    IsExactRouteList(Lookup(t, "routes"), path)
  }

  /** A merge that succeeds carries the merged entries. */
  lemma EnrichCarries(attrs: Json, basePath: string, format: string)
    requires attrs.Obj?
    ensures CarriesEnrichment(Enrich(attrs, basePath, format).value, basePath, format)
  {
  }

  lemma EnrichmentSurvivesGrowth(a: Json, b: Json, path: string, format: string)
    requires Grows(a, b)
    requires CarriesEnrichment(a, path, format)
    ensures CarriesEnrichment(b, path, format)
  {
    GrowsLeaf(a, b, "base_path");
    GrowsLeaf(a, b, "format");
    GrowsLeaf(a, b, "publishing_app");
    GrowsLeaf(a, b, "rendering_app");
    GrowsLookup(a, b, "routes");
    ExactRouteSurvives(Lookup(a, "routes"), Lookup(b, "routes"), path);
  }

  lemma EnrichmentSurvivesDetailChange(t: Json, u: Json, key: string, path: string, format: string)
    requires OnlyDetailChanged(t, u, key)
    requires CarriesEnrichment(t, path, format)
    ensures CarriesEnrichment(u, path, format)
  {
  }

  // ----- Section entries -----------------------------------------------

  /** An entry `section['base_path'] = ...section['section_id']` can stamp:
      a hash whose `section_id` is a string (`nil.downcase` raises). */
  predicate Stampable(sec: Json) {
    Lookup(sec, "section_id").Str?
  }

  /** `after` is `before` with `base_path` set to the section path of
      `before`'s `section_id`, and nothing else changed. */
  predicate StampedFrom(manualSlug: string, before: Json, after: Json) {
    Stampable(before) && after.Obj? &&
    after.fields.Keys == before.fields.Keys + {"base_path"} &&
    after.fields["base_path"] == Str(SectionBasePath(manualSlug, before.fields["section_id"].text)) &&
    forall k :: k in before.fields && k != "base_path" ==> after.fields[k] == before.fields[k]
  }

  lemma StampedUnique(m: string, before: Json, a1: Json, a2: Json)
    requires StampedFrom(m, before, a1) && StampedFrom(m, before, a2)
    ensures a1 == a2
  {
    assert forall k :: k in a1.fields ==> a1.fields[k] == a2.fields[k];
    assert a1.fields == a2.fields;
  }

  predicate SectionsStampedFrom(m: string, before: seq<Json>, after: seq<Json>) {
    |before| == |after| && forall i :: 0 <= i < |before| ==> StampedFrom(m, before[i], after[i])
  }

  lemma SectionsStampedUnique(m: string, before: seq<Json>, a1: seq<Json>, a2: seq<Json>)
    requires SectionsStampedFrom(m, before, a1) && SectionsStampedFrom(m, before, a2)
    ensures a1 == a2
  {
    forall i | 0 <= i < |a1| ensures a1[i] == a2[i] {
      StampedUnique(m, before[i], a1[i], a2[i]);
    }
  }

  /** The body of the inner `.each`: one entry stamped. */
  function StampSection(m: string, sec: Json): (r: Option<Json>)
    ensures r.Some? <==> Stampable(sec)
    ensures r.Some? ==> StampedFrom(m, sec, r.value)
  {
    if Stampable(sec) then
      Some(Assign(sec, "base_path", Str(SectionBasePath(m, sec.fields["section_id"].text))))
    else None
  }

  /** Every entry of a list stamped, in order; the list raises if any
      entry cannot be stamped. */
  function StampSections(m: string, secs: seq<Json>): (r: Option<seq<Json>>)
    ensures r.Some? <==> forall i :: 0 <= i < |secs| ==> Stampable(secs[i])
    ensures r.Some? ==> SectionsStampedFrom(m, secs, r.value)
    decreases |secs|
  {
    if secs == [] then Some([])
    else
      var head :- StampSection(m, secs[0]);
      var tail :- StampSections(m, secs[1..]);
      assert forall i :: 1 <= i < |secs| ==> secs[i] == secs[1..][i - 1];
      Some([head] + tail)
  }

  // ----- Child section groups ------------------------------------------

  predicate GroupStampable(g: Json) {
    var cs := Lookup(g, "child_sections");
    cs.Arr? && forall i :: 0 <= i < |cs.items| ==> Stampable(cs.items[i])
  }

  /** `after` is the group `before` with its `child_sections` stamped, and
      every other entry unchanged. */
  predicate GroupStampedFrom(m: string, before: Json, after: Json) {
    GroupStampable(before) && after.Obj? &&
    after.fields.Keys == before.fields.Keys &&
    (forall k :: k in before.fields && k != "child_sections" ==> after.fields[k] == before.fields[k]) &&
    Lookup(after, "child_sections").Arr? &&
    SectionsStampedFrom(m, Lookup(before, "child_sections").items, Lookup(after, "child_sections").items)
  }

  lemma GroupStampedUnique(m: string, before: Json, a1: Json, a2: Json)
    requires GroupStampedFrom(m, before, a1) && GroupStampedFrom(m, before, a2)
    ensures a1 == a2
  {
    SectionsStampedUnique(m, Lookup(before, "child_sections").items,
      Lookup(a1, "child_sections").items, Lookup(a2, "child_sections").items);
    assert forall k :: k in a1.fields ==> a1.fields[k] == a2.fields[k];
    assert a1.fields == a2.fields;
  }

  predicate GroupsStampedFrom(m: string, before: seq<Json>, after: seq<Json>) {
    |before| == |after| && forall i :: 0 <= i < |before| ==> GroupStampedFrom(m, before[i], after[i])
  }

  lemma GroupsStampedUnique(m: string, before: seq<Json>, a1: seq<Json>, a2: seq<Json>)
    requires GroupsStampedFrom(m, before, a1) && GroupsStampedFrom(m, before, a2)
    ensures a1 == a2
  {
    forall i | 0 <= i < |a1| ensures a1[i] == a2[i] {
      GroupStampedUnique(m, before[i], a1[i], a2[i]);
    }
  }

  /** The body of the outer `.each`: one group's sections stamped. */
  function StampGroup(m: string, g: Json): (r: Option<Json>)
    ensures r.Some? <==> GroupStampable(g)
    ensures r.Some? ==> GroupStampedFrom(m, g, r.value)
  {
    var cs := Lookup(g, "child_sections");
    if cs.Arr? then
      var stamped :- StampSections(m, cs.items);
      Some(Assign(g, "child_sections", Arr(stamped)))
    else None
  }

  function StampGroups(m: string, gs: seq<Json>): (r: Option<seq<Json>>)
    ensures r.Some? <==> forall i :: 0 <= i < |gs| ==> GroupStampable(gs[i])
    ensures r.Some? ==> GroupsStampedFrom(m, gs, r.value)
    decreases |gs|
  {
    if gs == [] then Some([])
    else
      var head :- StampGroup(m, gs[0]);
      var tail :- StampGroups(m, gs[1..]);
      assert forall i :: 1 <= i < |gs| ==> gs[i] == gs[1..][i - 1];
      Some([head] + tail)
  }

  /** All child sections of a list of groups, group after group. */
  function ChildSections(gs: seq<Json>): seq<Json> {
    if gs == [] then []
    else
      var cs := Lookup(gs[0], "child_sections");
      (if cs.Arr? then cs.items else []) + ChildSections(gs[1..])
  }

  lemma SectionsStampedAppend(m: string, b1: seq<Json>, a1: seq<Json>, b2: seq<Json>, a2: seq<Json>)
    requires SectionsStampedFrom(m, b1, a1) && SectionsStampedFrom(m, b2, a2)
    ensures SectionsStampedFrom(m, b1 + b2, a1 + a2)
  {
    forall i | 0 <= i < |b1 + b2| ensures StampedFrom(m, (b1 + b2)[i], (a1 + a2)[i]) {
      if i < |b1| {
        assert (b1 + b2)[i] == b1[i] && (a1 + a2)[i] == a1[i];
      } else {
        assert (b1 + b2)[i] == b2[i - |b1|] && (a1 + a2)[i] == a2[i - |b1|];
      }
    }
  }

  /** Across any number of groups holding N child sections, stamping yields
      exactly N child sections, the i-th being the i-th before with its
      `base_path` set from its own `section_id`. */
  lemma {:induction false} StampedChildSections(m: string, gs: seq<Json>, gs': seq<Json>)
    requires GroupsStampedFrom(m, gs, gs')
    ensures |ChildSections(gs')| == |ChildSections(gs)|
    ensures SectionsStampedFrom(m, ChildSections(gs), ChildSections(gs'))
  {
    if gs != [] {
      assert GroupsStampedFrom(m, gs[1..], gs'[1..]) by {
        forall i | 0 <= i < |gs[1..]| ensures GroupStampedFrom(m, gs[1..][i], gs'[1..][i]) {
          assert gs[1..][i] == gs[i + 1] && gs'[1..][i] == gs'[i + 1];
        }
      }
      StampedChildSections(m, gs[1..], gs'[1..]);
      assert GroupStampedFrom(m, gs[0], gs'[0]);
      SectionsStampedAppend(m,
        Lookup(gs[0], "child_sections").items, Lookup(gs'[0], "child_sections").items,
        ChildSections(gs[1..]), ChildSections(gs'[1..]));
    }
  }

  // ----- Lists held in a document ----------------------------------------

  /** `list.each { |section| section['base_path'] = ... }` on a value taken
      from a document: only an array can be walked. */
  function StampSectionList(m: string, v: Json): (r: Option<Json>)
    ensures r.Some? <==> v.Arr? && forall i :: 0 <= i < |v.items| ==> Stampable(v.items[i])
    ensures r.Some? ==> r.value.Arr? && SectionsStampedFrom(m, v.items, r.value.items)
  {
    if v.Arr? then
      var stamped :- StampSections(m, v.items);
      Some(Arr(stamped))
    else None
  }

  /** The nested `.each` over groups and their `child_sections`. */
  function StampGroupList(m: string, v: Json): (r: Option<Json>)
    ensures r.Some? <==> v.Arr? && forall i :: 0 <= i < |v.items| ==> GroupStampable(v.items[i])
    ensures r.Some? ==> r.value.Arr? && GroupsStampedFrom(m, v.items, r.value.items)
  {
    if v.Arr? then
      var stamped :- StampGroups(m, v.items);
      Some(Arr(stamped))
    else None
  }

  function Details(t: Json): Json {
    Lookup(t, "details")
  }

  /** `u` is `t` with one entry of `details` replaced or added, and every
      other entry of `t` and of `details` unchanged. */
  predicate OnlyDetailChanged(t: Json, u: Json, key: string) {
    t.Obj? && u.Obj? && Details(t).Obj? && Details(u).Obj? &&
    u.fields.Keys == t.fields.Keys &&
    (forall k :: k in t.fields && k != "details" ==> u.fields[k] == t.fields[k]) &&
    Details(u).fields.Keys == Details(t).fields.Keys + {key} &&
    forall k :: k in Details(t).fields && k != key ==> Details(u).fields[k] == Details(t).fields[k]
  }

  /** `attributes["details"][key] = v` */
  function WithDetail(t: Json, key: string, v: Json): (u: Json)
    requires Details(t).Obj?
    ensures OnlyDetailChanged(t, u, key)
    ensures Lookup(Details(u), key) == v
  {
    Assign(t, "details", Assign(Details(t), key, v))
  }

  // ----- The loops --------------------------------------------------------

  /** The inner `.each`, entry by entry. */
  method StampSectionsLoop(m: string, secs: seq<Json>) returns (r: Option<seq<Json>>)
    ensures r == StampSections(m, secs)
  {
    var out: seq<Json> := [];
    var i := 0;
    while i < |secs|
      invariant 0 <= i <= |secs|
      invariant SectionsStampedFrom(m, secs[..i], out)
    {
      var section := secs[i];
      var id := Lookup(section, "section_id");
      if !id.Str? {
        return None;
      }
      out := out + [Assign(section, "base_path", Str(SectionBasePath(m, id.text)))];
      i := i + 1;
      assert secs[..i] == secs[..i - 1] + [section];
    }
    assert secs[..i] == secs;
    SectionsStampedUnique(m, secs, out, StampSections(m, secs).value);
    r := Some(out);
  }

  /** The outer `.each` over groups, each running the inner loop. */
  method StampGroupsLoop(m: string, gs: seq<Json>) returns (r: Option<seq<Json>>)
    ensures r == StampGroups(m, gs)
  {
    var out: seq<Json> := [];
    var i := 0;
    while i < |gs|
      invariant 0 <= i <= |gs|
      invariant GroupsStampedFrom(m, gs[..i], out)
    {
      var group := gs[i];
      var cs := Lookup(group, "child_sections");
      if !cs.Arr? {
        return None;
      }
      var stamped := StampSectionsLoop(m, cs.items);
      if stamped.None? {
        return None;
      }
      out := out + [Assign(group, "child_sections", Arr(stamped.value))];
      i := i + 1;
      assert gs[..i] == gs[..i - 1] + [group];
    }
    assert gs[..i] == gs;
    GroupsStampedUnique(m, gs, out, StampGroups(m, gs).value);
    r := Some(out);
  }
}
