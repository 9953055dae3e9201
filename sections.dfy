/** `PublishingAPISection`: one section of a manual, addressed by a manual
    slug and a section slug, validated and published to the content store. */
module Sections {
  import opened JsonTree
  import opened Slugs
  import opened Paths
  import opened Enrichment
  import opened PublishingApi

  const SectionFormat := "hmrc-manual-section"
  const IdMismatchMessage := "Slug in URL and Section ID must match, ignoring case"

  // ----- to_h, step by step --------------------------------------------

  /** `add_base_path_to_child_section_groups`: `child_section_groups` may be
      missing (or null), and then the document is returned as it is;
      otherwise every child section of every group gets its `base_path`,
      and nothing else in the document changes. */
  function StampChildSectionGroups(m: string, t: Json): (r: Option<Json>)
    ensures r.Some? <==>
      Details(t).Obj? &&
      var v := Lookup(Details(t), "child_section_groups");
      v == Null || (v.Arr? && forall i :: 0 <= i < |v.items| ==> GroupStampable(v.items[i]))
    ensures r.Some? && Lookup(Details(t), "child_section_groups") == Null ==> r.value == t
    ensures r.Some? && Lookup(Details(t), "child_section_groups") != Null ==>
      OnlyDetailChanged(t, r.value, "child_section_groups") &&
      Lookup(Details(r.value), "child_section_groups").Arr? &&
      GroupsStampedFrom(m, Lookup(Details(t), "child_section_groups").items,
        Lookup(Details(r.value), "child_section_groups").items)
  {
    if !Details(t).Obj? then None
    else
      var groups := Lookup(Details(t), "child_section_groups");
      if groups == Null then Some(t)
      else
        var stamped :- StampGroupList(m, groups);
        Some(WithDetail(t, "child_section_groups", stamped))
  }

  /** `add_base_path_to_breadcrumbs`: missing (or null) breadcrumbs leave
      the document as it is; otherwise every breadcrumb gets the
      `base_path` of the section it names, and nothing else changes. */
  function StampBreadcrumbs(m: string, t: Json): (r: Option<Json>)
    ensures r.Some? <==>
      Details(t).Obj? &&
      var v := Lookup(Details(t), "breadcrumbs");
      v == Null || (v.Arr? && forall i :: 0 <= i < |v.items| ==> Stampable(v.items[i]))
    ensures r.Some? && Lookup(Details(t), "breadcrumbs") == Null ==> r.value == t
    ensures r.Some? && Lookup(Details(t), "breadcrumbs") != Null ==>
      OnlyDetailChanged(t, r.value, "breadcrumbs") &&
      Lookup(Details(r.value), "breadcrumbs").Arr? &&
      SectionsStampedFrom(m, Lookup(Details(t), "breadcrumbs").items,
        Lookup(Details(r.value), "breadcrumbs").items)
  {
    if !Details(t).Obj? then None
    else
      var crumbs := Lookup(Details(t), "breadcrumbs");
      if crumbs == Null then Some(t)
      else
        var stamped :- StampSectionList(m, crumbs);
        Some(WithDetail(t, "breadcrumbs", stamped))
  }

  /** The reference to the parent manual, `{ "base_path" => ... }`. */
  function ManualReference(m: string): Json {
    Obj(map["base_path" := Str(ManualBasePath(m))])
  }

  /** `add_base_path_to_manual`: `details.manual` is overwritten with a
      reference to the manual's path, built from the manual slug as given
      (not lower-cased); nothing else changes. */
  function AttachManual(m: string, t: Json): (r: Option<Json>)
    ensures r.Some? <==> Details(t).Obj?
    ensures r.Some? ==>
      OnlyDetailChanged(t, r.value, "manual") &&
      Lookup(Details(r.value), "manual") == ManualReference(m)
  {
    if Details(t).Obj? then Some(WithDetail(t, "manual", ManualReference(m))) else None
  }

  /** The three stamping steps of `to_h`, in order, on the rendered document. */
  function Stamped(m: string, t: Json): Option<Json> {
    var withGroups :- StampChildSectionGroups(m, t);
    var withCrumbs :- StampBreadcrumbs(m, withGroups);
    AttachManual(m, withCrumbs)
  }

  /** `to_h`: the attributes merged with the fixed entries, rendered, then
      the three stamping steps in order, then organisations added. */
  function SectionToH(m: string, s: string, attrs: Json, env: Collaborators): Option<Json> {
    var merged :- Enrich(attrs, SectionBasePath(m, s), SectionFormat);
    var stamped :- Stamped(m, env.renderMarkdown(merged));
    Some(env.addOrganisations(stamped))
  }

  /** None of the three stamping steps touches the entries `to_h` merged in. */
  lemma StampingKeepsEnrichment(m: string, t: Json, path: string, format: string)
    requires CarriesEnrichment(t, path, format)
    ensures StampChildSectionGroups(m, t).Some? ==>
      CarriesEnrichment(StampChildSectionGroups(m, t).value, path, format)
    ensures StampBreadcrumbs(m, t).Some? ==>
      CarriesEnrichment(StampBreadcrumbs(m, t).value, path, format)
    ensures AttachManual(m, t).Some? ==>
      CarriesEnrichment(AttachManual(m, t).value, path, format)
  {
    if StampChildSectionGroups(m, t).Some? && Lookup(Details(t), "child_section_groups") != Null {
      EnrichmentSurvivesDetailChange(t, StampChildSectionGroups(m, t).value, "child_section_groups", path, format);
    }
    if StampBreadcrumbs(m, t).Some? && Lookup(Details(t), "breadcrumbs") != Null {
      EnrichmentSurvivesDetailChange(t, StampBreadcrumbs(m, t).value, "breadcrumbs", path, format);
    }
    if AttachManual(m, t).Some? {
      EnrichmentSurvivesDetailChange(t, AttachManual(m, t).value, "manual", path, format);
    }
  }

  /** Adding organisations keeps the reference to the parent manual. */
  lemma ManualReferenceSurvives(m: string, a: Json, b: Json)
    requires Grows(a, b)
    requires Lookup(Details(a), "manual") == ManualReference(m)
    ensures Lookup(Lookup(Details(b), "manual"), "base_path") == Str(ManualBasePath(m))
  {
    GrowsLookup(a, b, "details");
    GrowsLookup(Details(a), Details(b), "manual");
    GrowsLeaf(ManualReference(m), Lookup(Details(b), "manual"), "base_path");
  }

  /** Stamping keeps the merged entries and leaves the manual reference in
      place. */
  lemma StampedContent(m: string, t: Json, path: string, format: string)
    requires CarriesEnrichment(t, path, format)
    requires Stamped(m, t).Some?
    ensures CarriesEnrichment(Stamped(m, t).value, path, format)
    ensures Lookup(Details(Stamped(m, t).value), "manual") == ManualReference(m)
  {
    var withGroups := StampChildSectionGroups(m, t).value;
    StampingKeepsEnrichment(m, t, path, format);
    var withCrumbs := StampBreadcrumbs(m, withGroups).value;
    StampingKeepsEnrichment(m, withGroups, path, format);
    StampingKeepsEnrichment(m, withCrumbs, path, format);
  }

  /** From the rendered document on: stamping, then organisations. */
  lemma RenderedToItem(m: string, t: Json, path: string, addOrganisations: Json -> Json)
    requires OnlyAdds(addOrganisations)
    requires CarriesEnrichment(t, path, SectionFormat)
    requires Stamped(m, t).Some?
    ensures var item := addOrganisations(Stamped(m, t).value);
      CarriesEnrichment(item, path, SectionFormat) &&
      Lookup(Lookup(Details(item), "manual"), "base_path") == Str(ManualBasePath(m))
  {
    var stamped := Stamped(m, t).value;
    StampedContent(m, t, path, SectionFormat);
    EnrichmentSurvivesGrowth(stamped, addOrganisations(stamped), path, SectionFormat);
    ManualReferenceSurvives(m, stamped, addOrganisations(stamped));
  }

  /** When the renderer and the organisations lookup only add entries, the
      content item carries the section's path, the section format, both
      app names, one exact route at the path, and a reference to the
      parent manual's path. */
  lemma SectionToHContent(m: string, s: string, attrs: Json, env: Collaborators)
    requires OnlyAdds(env.renderMarkdown) && OnlyAdds(env.addOrganisations)
    requires SectionToH(m, s, attrs, env).Some?
    ensures var item := SectionToH(m, s, attrs, env).value;
      CarriesEnrichment(item, SectionBasePath(m, s), SectionFormat) &&
      Lookup(Lookup(Details(item), "manual"), "base_path") == Str(ManualBasePath(m))
  {
    var path := SectionBasePath(m, s);
    var merged := Enrich(attrs, path, SectionFormat).value;
    EnrichCarries(attrs, path, SectionFormat);
    EnrichmentSurvivesGrowth(merged, env.renderMarkdown(merged), path, SectionFormat);
    RenderedToItem(m, env.renderMarkdown(merged), path, env.addOrganisations);
  }

  // ----- valid? ------------------------------------------------------------

  /** The `format` validations of `manual_slug` and `section_slug`, in that order. */
  function SlugErrors(m: string, s: string): seq<string> {
    FormatErrors("Manual slug", m) + FormatErrors("Section slug", s)
  }

  /** `section_attributes['details']['section_id']` */
  function SectionIdOf(attrs: Json): Json {
    Lookup(Details(attrs), "section_id")
  }

  /** `section_slug_matches_section_id`, once the id is known to be a string. */
  function IdErrors(s: string, id: string): seq<string> {
    if Lower(s) == Lower(id) then [] else [IdMismatchMessage]
  }

  /** `valid?`: the validators in the order they are declared, each adding
      its full messages. `toH` is what `to_h` gives for this section; the
      `no_dangerous_html_in_text_fields` validation of `to_h` and the id
      check run only when the nested `Section` is valid, and the schema
      messages are copied in only when it is not; the slug messages always
      appear. Either guarded check raises on a document `to_h` or
      `downcase` cannot handle. */
  function SectionValidation(m: string, s: string, attrs: Json, env: Collaborators, toH: Option<Json>): (r: Validation)
    ensures env.schemaErrors(attrs) != [] ==> r == Checked(SlugErrors(m, s) + env.schemaErrors(attrs))
    ensures env.schemaErrors(attrs) == [] && r.Checked? ==>
      toH.Some? && SectionIdOf(attrs).Str? &&
      r.errors == env.dangerousHtml(toH.value) + FormatErrors("Manual slug", m) +
                  FormatErrors("Section slug", s) + IdErrors(s, SectionIdOf(attrs).text)
    ensures r.Raised? <==> env.schemaErrors(attrs) == [] && (toH.None? || !SectionIdOf(attrs).Str?)
    ensures r.Checked? ==> forall e :: e in SlugErrors(m, s) ==> e in r.errors
  {
    var schema := env.schemaErrors(attrs);
    if schema == [] then
      match toH
      case None => Raised
      case Some(item) =>
        var id := SectionIdOf(attrs);
        if id.Str? then
          Checked(env.dangerousHtml(item) + FormatErrors("Manual slug", m) +
                  FormatErrors("Section slug", s) + IdErrors(s, id.text))
        else Raised
    else
      Checked(FormatErrors("Manual slug", m) + FormatErrors("Section slug", s) + schema)
  }

  /** A section is valid exactly when both slugs match the pattern, the
      schema accepts the attributes, `to_h` succeeds and the scanner finds
      nothing in it, and the section slug equals the section id ignoring
      case. */
  lemma SectionValidIff(m: string, s: string, attrs: Json, env: Collaborators, toH: Option<Json>)
    ensures SectionValidation(m, s, attrs, env, toH).IsValid() <==>
      IsSlug(m) && IsSlug(s) && env.schemaErrors(attrs) == [] &&
      toH.Some? && env.dangerousHtml(toH.value) == [] &&
      SectionIdOf(attrs).Str? && Lower(s) == Lower(SectionIdOf(attrs).text)
  {
  }

  lemma SlugErrorsAreNotIdMismatch(m: string, s: string)
    ensures IdMismatchMessage !in SlugErrors(m, s)
  {
    assert |"Manual slug " + PatternMessage| != |IdMismatchMessage|;
    assert |"Section slug " + PatternMessage| != |IdMismatchMessage|;
  }

  /** Once the schema passes, the id-mismatch message is reported exactly
      when the section slug and the section id differ ignoring case
      (provided the scanner does not itself produce that text). */
  lemma IdMismatchReportedIff(m: string, s: string, attrs: Json, env: Collaborators, toH: Option<Json>)
    requires env.schemaErrors(attrs) == []
    requires SectionValidation(m, s, attrs, env, toH).Checked?
    requires IdMismatchMessage !in env.dangerousHtml(toH.value)
    ensures SectionIdOf(attrs).Str?
    ensures IdMismatchMessage in SectionValidation(m, s, attrs, env, toH).errors <==>
      Lower(s) != Lower(SectionIdOf(attrs).text)
  {
    SlugErrorsAreNotIdMismatch(m, s);
  }

  /** With both slugs well formed and the schema failing (a missing
      `title`, say), the first message is the schema's first message. */
  lemma SchemaMessageFirst(m: string, s: string, attrs: Json, env: Collaborators, toH: Option<Json>)
    requires IsSlug(m) && IsSlug(s)
    requires env.schemaErrors(attrs) != []
    ensures SectionValidation(m, s, attrs, env, toH).Checked?
    ensures |SectionValidation(m, s, attrs, env, toH).errors| > 0
    ensures SectionValidation(m, s, attrs, env, toH).errors[0] == env.schemaErrors(attrs)[0]
  {
  }

  /** A manual slug such as `BREAK_THE_RULEZ` fails the pattern, and unless
      the scanner reports something first its message,
      `Manual slug should match the pattern: (?-mix:\A[a-z\d][a-z\d-]*[a-z\d]\z)`,
      leads the list. */
  lemma BadManualSlugReportedFirst(s: string, attrs: Json, env: Collaborators, toH: Option<Json>)
    requires env.schemaErrors(attrs) != [] || toH.None? || env.dangerousHtml(toH.value) == []
    ensures var r := SectionValidation("BREAK_THE_RULEZ", s, attrs, env, toH);
      r.Raised? ||
      (|r.errors| > 0 && r.errors[0] == "Manual slug " + PatternMessage)
  {
    var slug := "BREAK_THE_RULEZ";
    assert !IsSlug(slug) by {
      assert !IsLowerAlnum(slug[0]);
    }
    assert "Manual slug" + " " + PatternMessage == "Manual slug " + PatternMessage;
    var r := SectionValidation(slug, s, attrs, env, toH);
    if r.Checked? {
      if env.schemaErrors(attrs) == [] {
        assert env.dangerousHtml(toH.value) == [];
        assert r.errors == SlugErrors(slug, s) + IdErrors(s, SectionIdOf(attrs).text);
      }
      assert SlugErrors(slug, s)[0] == FormatErrors("Manual slug", slug)[0];
    }
  }

  // ----- save! ---------------------------------------------------------------

  /** What `save!` does, given how the store answers: it publishes exactly
      the valid sections, at the section's path and with `to_h` as the
      content item; the error it raises for the others carries the (never
      empty) list of messages, and any other exception of `valid?` escapes. */
  function SectionSaveResult(m: string, s: string, attrs: Json, env: Collaborators,
                             respond: (string, Json) -> Response): (r: SaveResult)
    ensures var toH := SectionToH(m, s, attrs, env);
      var v := SectionValidation(m, s, attrs, env, toH);
      (r.Published? <==> v.IsValid()) &&
      (r.Published? ==> r.response == respond(SectionBasePath(m, s), toH.value)) &&
      (r.ValidationError? <==> v.Checked? && v.errors != []) &&
      (r.ValidationError? ==> r.errors == v.errors) &&
      (r.Crashed? <==> v.Raised?)
  {
    var toH := SectionToH(m, s, attrs, env);
    match SectionValidation(m, s, attrs, env, toH)
    case Raised => Crashed
    case Checked(errs) =>
      if errs == [] then Published(respond(SectionBasePath(m, s), toH.value))
      else ValidationError(errs)
  }

  // ----- The object ----------------------------------------------------------

  class PublishingApiSection {
    const manualSlug: string
    const sectionSlug: string
    const sectionAttributes: Json
    const env: Collaborators
    /** `errors.full_messages` */
    var errors: seq<string>

    constructor (manualSlug: string, sectionSlug: string, sectionAttributes: Json, env: Collaborators)
      ensures this.manualSlug == manualSlug && this.sectionSlug == sectionSlug
      ensures this.sectionAttributes == sectionAttributes && this.env == env
      ensures errors == []
    {
      this.manualSlug := manualSlug;
      this.sectionSlug := sectionSlug;
      this.sectionAttributes := sectionAttributes;
      this.env := env;
      errors := [];
    }

    function BasePath(): string {
      SectionBasePath(manualSlug, sectionSlug)
    }

    function GovukUrlOf(frontendBaseUrl: string): string {
      GovukUrl(frontendBaseUrl, BasePath())
    }

    method AddBasePathToChildSectionGroups(attributes: Json) returns (r: Option<Json>)
      ensures r == StampChildSectionGroups(manualSlug, attributes)
    {
      var details := Details(attributes);
      if !details.Obj? {
        return None;
      }
      var groups := Lookup(details, "child_section_groups");
      if groups == Null {
        return Some(attributes);
      }
      if !groups.Arr? {
        return None;
      }
      var stamped := StampGroupsLoop(manualSlug, groups.items);
      if stamped.None? {
        return None;
      }
      r := Some(WithDetail(attributes, "child_section_groups", Arr(stamped.value)));
    }

    method AddBasePathToBreadcrumbs(attributes: Json) returns (r: Option<Json>)
      ensures r == StampBreadcrumbs(manualSlug, attributes)
    {
      var details := Details(attributes);
      if !details.Obj? {
        return None;
      }
      var crumbs := Lookup(details, "breadcrumbs");
      if crumbs == Null {
        return Some(attributes);
      }
      if !crumbs.Arr? {
        return None;
      }
      var stamped := StampSectionsLoop(manualSlug, crumbs.items);
      if stamped.None? {
        return None;
      }
      r := Some(WithDetail(attributes, "breadcrumbs", Arr(stamped.value)));
    }

    method AddBasePathToManual(attributes: Json) returns (r: Option<Json>)
      ensures r == AttachManual(manualSlug, attributes)
    {
      if !Details(attributes).Obj? {
        return None;
      }
      r := Some(WithDetail(attributes, "manual", ManualReference(manualSlug)));
    }

    /** `to_h`, reassigning the enriched document step by step. */
    method ToH() returns (r: Option<Json>)
      ensures r == SectionToH(manualSlug, sectionSlug, sectionAttributes, env)
    {
      var enriched :- Enrich(sectionAttributes, BasePath(), SectionFormat);
      enriched := env.renderMarkdown(enriched);
      enriched :- AddBasePathToChildSectionGroups(enriched);
      enriched :- AddBasePathToBreadcrumbs(enriched);
      enriched :- AddBasePathToManual(enriched);
      r := Some(env.addOrganisations(enriched));
    }

    /** `incoming_section_is_valid` */
    method IncomingSectionIsValid()
      modifies this`errors
      ensures env.schemaErrors(sectionAttributes) == [] ==> errors == old(errors)
      ensures env.schemaErrors(sectionAttributes) != [] ==>
        errors == old(errors) + env.schemaErrors(sectionAttributes)
    {
      var schema := env.schemaErrors(sectionAttributes);
      if schema != [] {
        errors := errors + schema;
      }
    }

    /** `section_slug_matches_section_id`; `completed` is false when
        `downcase` is sent to something that is not a string. */
    method SectionSlugMatchesSectionId() returns (completed: bool)
      modifies this`errors
      ensures completed == SectionIdOf(sectionAttributes).Str?
      ensures completed ==> errors == old(errors) + IdErrors(sectionSlug, SectionIdOf(sectionAttributes).text)
    {
      var id := SectionIdOf(sectionAttributes);
      if !id.Str? {
        return false;
      }
      if Lower(sectionSlug) != Lower(id.text) {
        errors := errors + [IdMismatchMessage];
      }
      completed := true;
    }

    /** The format validations of both slugs, `manual_slug` first. */
    method SlugsMatchPattern()
      modifies this`errors
      ensures errors == old(errors) + FormatErrors("Manual slug", manualSlug) +
                        FormatErrors("Section slug", sectionSlug)
    {
      errors := errors + FormatErrors("Manual slug", manualSlug);
      errors := errors + FormatErrors("Section slug", sectionSlug);
    }

    /** `valid?`: clear the errors, then run the validators in the order
        they are declared; the dangerous-HTML and id checks only when the
        nested `Section` is valid. */
    method Validate() returns (r: Validation)
      modifies this`errors
      ensures r == SectionValidation(manualSlug, sectionSlug, sectionAttributes, env,
                                     SectionToH(manualSlug, sectionSlug, sectionAttributes, env))
      ensures r.Checked? ==> errors == r.errors
    {
      errors := [];
      if env.schemaErrors(sectionAttributes) == [] {
        var item := ToH();
        if item.None? {
          return Raised;
        }
        errors := env.dangerousHtml(item.value);
        SlugsMatchPattern();
        IncomingSectionIsValid();
        var completed := SectionSlugMatchesSectionId();
        if !completed {
          return Raised;
        }
      } else {
        SlugsMatchPattern();
        IncomingSectionIsValid();
      }
      r := Checked(errors);
    }

    /** `save!`: no write unless valid; otherwise exactly one put of `to_h`
        at the section's path. */
    method Save(api: Client) returns (r: SaveResult)
      modifies this`errors, api
      ensures r == SectionSaveResult(manualSlug, sectionSlug, sectionAttributes, env, api.respond)
      ensures r.Published? ==>
        api.puts == old(api.puts) + [(BasePath(), SectionToH(manualSlug, sectionSlug, sectionAttributes, env).value)]
      ensures !r.Published? ==> api.puts == old(api.puts)
      ensures r.ValidationError? ==> errors == r.errors
    {
      var v := Validate();
      if v.Raised? {
        return Crashed;
      }
      if v.errors != [] {
        return ValidationError(errors);
      }
      var item := ToH();
      var response := api.PutContentItem(BasePath(), item.value);
      r := Published(response);
    }
  }
}
