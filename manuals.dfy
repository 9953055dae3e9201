/** `PublishingApiManual`: a whole manual, addressed by its slug, validated
    and published to the content store. */
module Manuals {
  import opened JsonTree
  import opened Paths
  import opened Enrichment
  import opened PublishingApi

  const ManualFormat := "hmrc-manual"

  // ----- to_h --------------------------------------------------------------

  /** The manual's `add_base_path_to_child_section_groups`: unlike the
      section's there is no fallback, so a missing (or null) list raises,
      and so does a group whose `child_sections` cannot be walked. Otherwise
      every child section gets the `base_path` of the section it names, and
      nothing else in the document changes. */
  function StampChildSectionGroups(slug: string, t: Json): (r: Option<Json>)
    ensures r.Some? <==>
      Details(t).Obj? &&
      var v := Lookup(Details(t), "child_section_groups");
      v.Arr? && forall i :: 0 <= i < |v.items| ==> GroupStampable(v.items[i])
    ensures r.Some? ==>
      OnlyDetailChanged(t, r.value, "child_section_groups") &&
      Lookup(Details(r.value), "child_section_groups").Arr? &&
      GroupsStampedFrom(slug, Lookup(Details(t), "child_section_groups").items,
        Lookup(Details(r.value), "child_section_groups").items)
  {
    if !Details(t).Obj? then None
    else
      var stamped :- StampGroupList(slug, Lookup(Details(t), "child_section_groups"));
      Some(WithDetail(t, "child_section_groups", stamped))
  }

  /** `to_h`: the attributes merged with the fixed entries, rendered, then
      the child sections stamped. No organisations are added. */
  function ManualToH(slug: string, attrs: Json, env: Collaborators): Option<Json> {
    var merged :- Enrich(attrs, ManualBasePath(slug), ManualFormat);
    StampChildSectionGroups(slug, env.renderMarkdown(merged))
  }

  /** When the renderer only adds entries, the content item carries the
      manual's path (the slug as given), the manual format, both app names
      and one exact route at the path. */
  lemma ManualToHContent(slug: string, attrs: Json, env: Collaborators)
    requires OnlyAdds(env.renderMarkdown)
    requires ManualToH(slug, attrs, env).Some?
    ensures CarriesEnrichment(ManualToH(slug, attrs, env).value, ManualBasePath(slug), ManualFormat)
  {
    var path := ManualBasePath(slug);
    var merged := Enrich(attrs, path, ManualFormat).value;
    var rendered := env.renderMarkdown(merged);
    EnrichCarries(attrs, path, ManualFormat);
    EnrichmentSurvivesGrowth(merged, rendered, path, ManualFormat);
    EnrichmentSurvivesDetailChange(rendered, StampChildSectionGroups(slug, rendered).value,
      "child_section_groups", path, ManualFormat);
  }

  /** Counting across all groups: a manual with N child sections gets
      exactly N stamped, in order, each with the section path for the
      manual slug and its own `section_id` (both lower-cased). */
  lemma ChildSectionsAllStamped(slug: string, t: Json)
    requires StampChildSectionGroups(slug, t).Some?
    ensures var before := ChildSections(Lookup(Details(t), "child_section_groups").items);
      var after := ChildSections(Lookup(Details(StampChildSectionGroups(slug, t).value), "child_section_groups").items);
      |after| == |before| &&
      forall i :: 0 <= i < |before| ==>
        Lookup(before[i], "section_id").Str? &&
        Lookup(after[i], "base_path") == Str(SectionBasePath(slug, Lookup(before[i], "section_id").text))
  {
    var u := StampChildSectionGroups(slug, t).value;
    var gs := Lookup(Details(t), "child_section_groups").items;
    var gs' := Lookup(Details(u), "child_section_groups").items;
    StampedChildSections(slug, gs, gs');
  }

  // ----- valid? ------------------------------------------------------------

  /** `valid?`: the one validation, `no_dangerous_html_in_text_fields` of
      what `to_h` gives, which raises when `to_h` does. */
  function ManualValidation(env: Collaborators, toH: Option<Json>): (r: Validation)
    ensures r.Raised? <==> toH.None?
    ensures r.Checked? ==> r.errors == env.dangerousHtml(toH.value)
  {
    match toH
    case None => Raised
    case Some(item) => Checked(env.dangerousHtml(item))
  }

  /** A manual is valid exactly when `to_h` succeeds and the scanner finds
      nothing in it; the slug's shape and the schema play no part. */
  lemma ManualValidIff(slug: string, attrs: Json, env: Collaborators)
    ensures ManualValidation(env, ManualToH(slug, attrs, env)).IsValid() <==>
      ManualToH(slug, attrs, env).Some? && env.dangerousHtml(ManualToH(slug, attrs, env).value) == []
  {
  }

  // ----- save! ---------------------------------------------------------------

  /** What `save!` does for a manual, given how the store answers: it
      publishes exactly the valid manuals, at the manual's path and with
      `to_h` as the content item; otherwise it raises with the scanner's
      (never empty) messages, or lets `to_h`'s exception out. */
  function ManualSaveResult(slug: string, attrs: Json, env: Collaborators,
                            respond: (string, Json) -> Response): (r: SaveResult)
    ensures var toH := ManualToH(slug, attrs, env);
      (r.Published? <==> toH.Some? && env.dangerousHtml(toH.value) == []) &&
      (r.Published? ==> r.response == respond(ManualBasePath(slug), toH.value)) &&
      (r.ValidationError? <==> toH.Some? && env.dangerousHtml(toH.value) != []) &&
      (r.ValidationError? ==> r.errors == env.dangerousHtml(toH.value)) &&
      (r.Crashed? <==> toH.None?)
  {
    var toH := ManualToH(slug, attrs, env);
    match ManualValidation(env, toH)
    case Raised => Crashed
    case Checked(errs) =>
      if errs == [] then Published(respond(ManualBasePath(slug), toH.value))
      else ValidationError(errs)
  }

  /** The manual of the request examples: its content item is put at
      `/guidance/employment-income-manual`, and its public URL ends with
      that path. */
  lemma EmploymentIncomeManual(frontendBaseUrl: string, attrs: Json, env: Collaborators,
                               respond: (string, Json) -> Response)
    ensures ManualBasePath("employment-income-manual") == "/guidance/employment-income-manual"
    ensures var url := GovukUrl(frontendBaseUrl, ManualBasePath("employment-income-manual"));
      url[|frontendBaseUrl|..] == "/guidance/employment-income-manual"
    ensures var r := ManualSaveResult("employment-income-manual", attrs, env, respond);
      r.Published? ==>
        r.response == respond("/guidance/employment-income-manual",
                              ManualToH("employment-income-manual", attrs, env).value)
  {
  }

  // ----- The object ----------------------------------------------------------

  class PublishingApiManual {
    const slug: string
    const manualAttributes: Json
    const env: Collaborators
    /** `errors.full_messages` */
    var errors: seq<string>

    constructor (slug: string, manualAttributes: Json, env: Collaborators)
      ensures this.slug == slug && this.manualAttributes == manualAttributes && this.env == env
      ensures errors == []
    {
      this.slug := slug;
      this.manualAttributes := manualAttributes;
      this.env := env;
      errors := [];
    }

    function BasePath(): string {
      ManualBasePath(slug)
    }

    function GovukUrlOf(frontendBaseUrl: string): string {
      GovukUrl(frontendBaseUrl, BasePath())
    }

    /** The nested `.each` over the groups, on the rendered document. */
    method AddBasePathToChildSectionGroups(attributes: Json) returns (r: Option<Json>)
      ensures r == StampChildSectionGroups(slug, attributes)
    {
      var details := Details(attributes);
      if !details.Obj? {
        return None;
      }
      var groups := Lookup(details, "child_section_groups");
      if !groups.Arr? {
        return None;
      }
      var stamped := StampGroupsLoop(slug, groups.items);
      if stamped.None? {
        return None;
      }
      r := Some(WithDetail(attributes, "child_section_groups", Arr(stamped.value)));
    }

    /** `to_h`, reassigning the enriched document step by step. */
    method ToH() returns (r: Option<Json>)
      ensures r == ManualToH(slug, manualAttributes, env)
    {
      var enriched :- Enrich(manualAttributes, BasePath(), ManualFormat);
      enriched := env.renderMarkdown(enriched);
      r := AddBasePathToChildSectionGroups(enriched);
    }

    /** `valid?`: clear the errors, then run the one validator. */
    method Validate() returns (r: Validation)
      modifies this`errors
      ensures r == ManualValidation(env, ManualToH(slug, manualAttributes, env))
      ensures r.Checked? ==> errors == r.errors
    {
      errors := [];
      var item := ToH();
      if item.None? {
        return Raised;
      }
      errors := errors + env.dangerousHtml(item.value);
      r := Checked(errors);
    }

    /** `save!`: no write unless valid; otherwise exactly one put of `to_h`
        at the manual's path. */
    method Save(api: Client) returns (r: SaveResult)
      modifies this`errors, api
      ensures r == ManualSaveResult(slug, manualAttributes, env, api.respond)
      ensures r.Published? ==>
        api.puts == old(api.puts) + [(BasePath(), ManualToH(slug, manualAttributes, env).value)]
      ensures !r.Published? ==> api.puts == old(api.puts)
      ensures r.ValidationError? ==> errors == r.errors
    {
      var v := Validate();
      if v.Raised? {
        return Crashed;
      }
      if v.errors != [] {
        return ValidationError(errors);
      }
      var item := ToH();
      var response := api.PutContentItem(BasePath(), item.value);
      r := Published(response);
    }
  }
}
