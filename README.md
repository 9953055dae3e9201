# hmrc-manuals-api: the publishing pipeline, in Dafny

The HMRC manuals API takes a manual, or one section of a manual, as JSON
addressed by slugs in the URL, and handles it in three steps:

1. it enriches the document into a GOV.UK content item (fixed tags, a base
   path, one exact route, and base paths stamped into nested child sections,
   breadcrumbs and the parent-manual reference);
2. it validates the document (slug format, the nested schema, a
   dangerous-HTML scan, and the section-id check);
3. when the document is valid, it puts the content item to the publishing
   API exactly once.

The controller maps how this ends to an HTTP status and JSON body.

The project models this as follows:

- `JsonTree` is a JSON tree.
  - The `Grows` relation says that a step only adds entries.
- `Slugs` covers the slug pattern and lower-casing.
  - The pattern is written as a character-class predicate.
  - An automaton for the regular expression checks it independently.
- `Paths` covers base paths and public URLs.
- `Enrichment` covers the merge of fixed entries and the stamping traversals.
  - Each traversal is a recursive specification function.
  - Each also has a `while`-loop method, proved equal to that function.
- `PublishingApi` holds the publishing API client.
  - The client keeps a ghost log of every put.
  - The collaborators whose code is not part of this model are arbitrary functions.
- `Sections` models `PublishingAPISection`.
- `Manuals` models `PublishingApiManual`.
- `ManualsController` models `ManualsController#update`.

The two publishing classes are Dafny classes. `valid?` clears and appends
to an `errors` field, and `save!` appends to the client's log. Each method
is proved equal to a specification function, and the properties are proved
about those functions.

Three points a reader might expect to be otherwise, each as the code does it:

- The manual's base path does not lower-case the slug
  (app/models/publishing_api_manual.rb:27).
- The slug pattern needs at least two characters.
  - A one-character slug is rejected, because the pattern's first-character
    and last-character classes must match different characters.
- The manual class validates only the dangerous-HTML scan
  (app/models/publishing_api_manual.rb:7).
  - It runs no slug or schema validation.

## Model

| member | source | states |
|---|---|---|
| PublishingApi.Client.PutContentItem | app/models/publishing_api_section.rb:52-53 | one put appends exactly `(base_path, content item)` to the log, and the answer is the store's answer to that put |
| Slugs.RunMeaning | spec/requests/manuals_spec.rb:31 | the automaton for `\A[a-z\d][a-z\d-]*[a-z\d]\z` ends in each state exactly for the texts that state stands for; it accepts exactly the slugs |
| Slugs.MatchesIffSlug | spec/requests/manuals_spec.rb:31 | the pattern matches a text iff it has at least two characters, all lower-case letters, digits or hyphens, with no hyphen first or last |
| Slugs.Lower | app/models/publishing_api_section.rb:46 | `downcase` keeps the length and lower-cases each character in place |
| Slugs.LowerIdempotent | app/models/publishing_api_section.rb:46 | lower-casing twice is lower-casing once |
| Slugs.SlugIsLower | app/models/publishing_api_section.rb:44-46 | a slug that passes the format check is unchanged by the path's lower-casing |
| Slugs.LowerKeepsSeparators | app/models/publishing_api_section.rb:46 | lower-casing never creates or removes a `/` |
| Slugs.FormatErrors | app/models/publishing_api_section.rb:11 | the format validation adds no message iff the value is a slug, and otherwise exactly one: the attribute's name, then "should match the pattern: (?-mix:\A[a-z\d][a-z\d-]*[a-z\d]\z)" |
| Paths.ManualBasePath | app/models/publishing_api_manual.rb:26-28 | a manual's path is `/guidance/` followed by the slug as given, not lower-cased; the slug can be read back from the path |
| Paths.ManualBasePathInjective | app/models/publishing_api_manual.rb:26-28 | different slugs give different manual paths, and equal paths come from equal slugs |
| Paths.SectionBasePath | app/models/publishing_api_section.rb:43-47 | a section's path is `/guidance/`, the lower-cased manual slug, `/`, then the lower-cased section slug, and each part can be read back from the path |
| Paths.SectionBasePathIff | app/models/publishing_api_section.rb:43-47 | two section paths are equal iff both slug pairs agree ignoring case, so changing the case of either slug never changes the path |
| Paths.SectionBasePathOfSlugs | app/models/publishing_api_section.rb:43-47 | for valid slugs the section path is the manual's path, `/`, then the section slug |
| Paths.GovukUrl | app/models/publishing_api_section.rb:39-41 | `govuk_url` is the frontend's base URL followed by the base path, so it ends with the base path |
| Enrichment.Enrich | app/models/publishing_api_section.rb:25-31 | the merge succeeds iff the attributes are a hash; the result has exactly the attributes' keys plus the five merged ones; `base_path`, `format`, both app names and a single exact route are set; every other entry is kept |
| Enrichment.EnrichCarries | app/models/publishing_api_section.rb:25-31 | after a successful merge the content item carries the path, the format, both app names and one exact route at the path |
| Enrichment.EnrichmentSurvivesGrowth | app/models/publishing_api_section.rb:32 | a step that only adds entries (the markdown rendering) keeps all the merged entries, routes included |
| Enrichment.EnrichmentSurvivesDetailChange | app/models/publishing_api_section.rb:76 | assigning one entry of `details` keeps all the merged entries |
| Enrichment.StampSection | app/models/publishing_api_section.rb:70 | an entry can be stamped iff its `section_id` is a string; it then gains exactly `base_path`, equal to the section path for the manual slug and that id, and every other key is kept |
| Enrichment.StampSections | app/models/publishing_api_section.rb:69-71 | a list is stamped iff every entry can be; the result has the same length, entry i is entry i stamped, and order is kept |
| Enrichment.StampSectionsLoop | app/models/publishing_api_section.rb:69-71 | the loop over the breadcrumbs computes exactly the specification's stamping, or fails where it fails |
| Enrichment.StampGroup | app/models/publishing_api_section.rb:60-62 | a group is stamped iff its `child_sections` is a list of stampable entries; only that list changes, and each of its entries is stamped |
| Enrichment.StampGroups | app/models/publishing_api_section.rb:59-63 | every group is stamped, in order, with the same number of groups; the result exists iff every group can be stamped |
| Enrichment.StampGroupsLoop | app/models/publishing_api_section.rb:59-63 | the nested loop over groups computes exactly the specification's stamping, or fails where it fails |
| Enrichment.StampedChildSections | app/models/publishing_api_manual.rb:31-37 | across all groups the stamped child sections are as many as before, and the i-th one is the i-th original stamped |
| Enrichment.StampSectionList | app/models/publishing_api_section.rb:69 | a value is stamped as a list iff it is an array of stampable entries |
| Enrichment.StampGroupList | app/models/publishing_api_section.rb:59 | a value is stamped as a group list iff it is an array of stampable groups |
| Enrichment.WithDetail | app/models/publishing_api_section.rb:76 | assigning into `details` sets that one key and leaves every other key of the document and of `details` as it was |
| Sections.StampChildSectionGroups | app/models/publishing_api_section.rb:57-65 | a missing list leaves the document as it is; otherwise every child section of every group gets its path, only `details.child_section_groups` changes, and it fails iff `details` or an entry cannot be walked |
| Sections.StampBreadcrumbs | app/models/publishing_api_section.rb:67-73 | missing breadcrumbs leave the document as it is; otherwise every breadcrumb gets its path and only `details.breadcrumbs` changes |
| Sections.AttachManual | app/models/publishing_api_section.rb:75-80 | `details.manual` becomes `{base_path: "/guidance/" + manual slug}`, with no lower-casing, and nothing else changes |
| Sections.StampingKeepsEnrichment | app/models/publishing_api_section.rb:33-35 | none of the three stamping steps disturbs the entries the merge put in |
| Sections.StampedContent | app/models/publishing_api_section.rb:33-35 | after the stamping steps the document still carries the merged entries, and `details.manual` is the reference to the manual's path |
| Sections.RenderedToItem | app/models/publishing_api_section.rb:33-36 | from the rendered document to the content item, the merged entries and the manual reference survive |
| Sections.ManualReferenceSurvives | app/models/publishing_api_section.rb:36 | adding organisations keeps `details.manual.base_path` |
| Sections.SectionToH | app/models/publishing_api_section.rb:24-37 | the definition of `to_h`: merge, render, the three stamping steps in order, then organisations; any step that raises makes the whole raise (its properties are the rows around it) |
| Sections.SectionToHContent | app/models/publishing_api_section.rb:24-37 | `to_h` gives a content item with the section's path, format `hmrc-manual-section`, both app names, one exact route at the path, and `details.manual.base_path` set to the manual's path |
| Sections.SectionValidation | app/models/publishing_api_section.rb:10-13 | the slug messages always appear; when the nested `Section` is invalid the messages are exactly the slug messages then the schema messages, with no HTML or id message; when it is valid they are the scanner's messages, then the slug messages, then the id message if any; it raises exactly when the schema passes and `to_h` or the id lookup cannot run |
| Sections.SectionValidIff | app/models/publishing_api_section.rb:10-13 | a section is valid iff both slugs are slugs, the schema accepts it, `to_h` succeeds, the scan finds nothing, and the section slug equals the section id ignoring case |
| Sections.SlugErrorsAreNotIdMismatch | app/models/publishing_api_section.rb:11 | no slug message is the id-mismatch message |
| Sections.IdMismatchReportedIff | app/models/publishing_api_section.rb:88-92 | once the schema passes, "Slug in URL and Section ID must match, ignoring case" is reported iff the lower-cased slug and id differ |
| Sections.SchemaMessageFirst | spec/requests/validation_spec.rb:66-71 | with well-formed slugs and a failing schema, the first message is the schema's first message |
| Sections.BadManualSlugReportedFirst | app/models/publishing_api_section.rb:10-11 | for manual slug `BREAK_THE_RULEZ` the first message is the manual slug's pattern message, unless validation raises |
| Sections.SectionSaveResult | app/models/publishing_api_section.rb:49-54 | `save!` publishes iff valid, with the answer to a put of `to_h` at the section path; it raises `ValidationError` iff the messages are not empty, carrying them; it crashes iff validation raised |
| Sections.PublishingApiSection.constructor | app/models/publishing_api_section.rb:17-22 | holds the slugs and attributes, with no errors yet |
| Sections.PublishingApiSection.AddBasePathToChildSectionGroups | app/models/publishing_api_section.rb:57-65 | the loop over the groups and their entries gives the specification's stamping |
| Sections.PublishingApiSection.AddBasePathToBreadcrumbs | app/models/publishing_api_section.rb:67-73 | the loop over the breadcrumbs gives the specification's stamping |
| Sections.PublishingApiSection.AddBasePathToManual | app/models/publishing_api_section.rb:75-80 | gives the specification's manual reference |
| Sections.PublishingApiSection.ToH | app/models/publishing_api_section.rb:24-37 | reassigning the document step by step gives the specification's `to_h` |
| Sections.PublishingApiSection.IncomingSectionIsValid | app/models/publishing_api_section.rb:82-86 | appends the schema messages, or nothing when the nested `Section` is valid |
| Sections.PublishingApiSection.SectionSlugMatchesSectionId | app/models/publishing_api_section.rb:88-92 | appends the mismatch message iff slug and id differ ignoring case; reports a raise iff the id is not a string |
| Sections.PublishingApiSection.SlugsMatchPattern | app/models/publishing_api_section.rb:11 | appends the manual slug's and then the section slug's format messages |
| Sections.PublishingApiSection.Validate | app/models/publishing_api_section.rb:10-13 | the result is the specification's validation, and `errors` holds exactly its messages |
| Sections.PublishingApiSection.Save | app/models/publishing_api_section.rb:49-54 | the result is the specification's `save!`; exactly one put of `(base_path, to_h)` when published, and none otherwise |
| Manuals.StampChildSectionGroups | app/models/publishing_api_manual.rb:31-38 | succeeds iff `details.child_section_groups` is present as a list of stampable groups (there is no fallback for a missing list); only that entry changes, and every child section is stamped |
| Manuals.ManualToH | app/models/publishing_api_manual.rb:14-24 | the definition of the manual's `to_h`: merge, render, then stamp the child sections, with no organisations step; any step that raises makes the whole raise (its properties are the rows around it) |
| Manuals.ManualToHContent | app/models/publishing_api_manual.rb:14-24 | `to_h` gives a content item with the manual's path (the slug as given), format `hmrc-manual`, both app names and exactly one exact route at that path |
| Manuals.ChildSectionsAllStamped | app/models/publishing_api_manual.rb:31-37 | a manual with N child sections across all groups gets exactly N stamped, the i-th with the section path for the manual slug and the i-th section's id |
| Manuals.ManualValidation | app/models/publishing_api_manual.rb:7 | validation raises iff `to_h` does; otherwise the messages are exactly the dangerous-HTML scan's |
| Manuals.ManualValidIff | app/models/publishing_api_manual.rb:7 | a manual is valid iff `to_h` succeeds and the scan finds nothing; the slug's shape plays no part |
| Manuals.ManualSaveResult | app/controllers/manuals_controller.rb:7 | `save!` on a manual publishes iff `to_h` succeeds and the scan finds nothing, with the answer to a put of `to_h` at the manual path; otherwise it raises with the scan's messages, or crashes iff `to_h` does |
| Manuals.EmploymentIncomeManual | spec/requests/manuals_spec.rb:7-17 | for `employment-income-manual` the put goes to `/guidance/employment-income-manual` and `govuk_url` ends with that path |
| Manuals.PublishingApiManual.constructor | app/models/publishing_api_manual.rb:9-12 | holds the slug and attributes, with no errors yet |
| Manuals.PublishingApiManual.AddBasePathToChildSectionGroups | app/models/publishing_api_manual.rb:31-38 | the nested loop over the groups and their child sections gives the specification's stamping |
| Manuals.PublishingApiManual.ToH | app/models/publishing_api_manual.rb:14-24 | reassigning the document step by step gives the specification's `to_h` |
| Manuals.PublishingApiManual.Validate | app/models/publishing_api_manual.rb:7 | the result is the specification's validation, and `errors` holds its messages |
| Manuals.PublishingApiManual.Save | app/controllers/manuals_controller.rb:7 | the result is the specification's `save!`; exactly one put at the manual path when published, and none otherwise |
| ManualsController.Messages | app/controllers/manuals_controller.rb:14-16 | the error list is an array with one string per message, in order |
| ManualsController.MessagesRoundTrip | app/controllers/manuals_controller.rb:16 | reading the rendered error array back gives exactly the messages |
| ManualsController.Update | app/controllers/manuals_controller.rb:5-18 | exactly one response unless `save!` crashed; a Location header iff published and JSON is accepted, and then the gateway's code and a body holding only `govuk_url`; 406 with body exactly `status: "error"` and the one message "Invalid Accept header" when published but JSON is not accepted; 422 with body exactly `status: "error"` and the manual's messages, one string each, on `ValidationError`; a `govuk_url` body only when published |
| ManualsController.NotAcceptableAfterPublish | app/controllers/manuals_controller.rb:7-14 | a 406 without Location can only follow a `save!` that went through |
| ManualsController.HandleUpdate | app/controllers/manuals_controller.rb:4-18 | building the manual, calling `save!` and rendering gives `Update` of the specification's `save!`; the 422 carries `save!`'s messages; exactly one put when published, and none otherwise |

## Left out

- Collaborators whose code is not part of this model are arbitrary functions fixed per manual or section:
  - the JSON-schema check of `Section.new(...)`;
  - the `no_dangerous_html_in_text_fields` scanner;
  - `StructWithRenderedMarkdown`;
  - `add_organisations_to_details`.
- The publishing API client is a record of puts plus an arbitrary answer function.
  - Its network failures (the 503 raised by the client's own code) are not modelled.
- `FRONTEND_BASE_URL` is a string parameter.
- The 400 response for malformed JSON, the 415 response for the wrong Content-Type, and authentication are handled by code that is not part of this model.
- `respond_to` is reduced to one flag: whether the request accepts JSON.
- JSON numbers and booleans are not modelled, and object key order is not kept.
  - Ruby's symbol keys and string keys share one key space.
- The manual's `clone` is shallow, so stamping can write through to the caller's nested hashes.
  - The model works on values and does not capture that aliasing.
  - The section's `deep_dup` has no such effect.
- Hash methods called on a non-hash value are treated as raising.
  - This covers `each` over a `child_section_groups` or `breadcrumbs` given as a JSON object.
  - Ruby would iterate an empty one without raising.
- Slugs.Lower: lower-cases ASCII letters only. Ruby's `downcase` also folds other Unicode letters.
- Paths.SectionBasePath: always joins with one `/`, where `File.join` drops a separator already present.
  - The results differ for an empty manual slug (`/guidance//a` here, `/guidance/a` in Ruby), a manual slug ending in `/`, and a section slug or section id starting with `/`.
- Paths.SectionBasePathIff: assumes manual slugs contain no `/`, because of the same `File.join` behaviour.
- Sections.SectionToHContent: holds only when the renderer and the organisations lookup add entries without removing or changing any. Their code is not part of this model.
- Manuals.ManualToHContent: holds only when the renderer adds entries without removing or changing any.
- Sections.IdMismatchReportedIff: assumes the dangerous-HTML scanner does not itself produce the id-mismatch text.
- Sections.BadManualSlugReportedFirst: assumes the schema fails or the scanner reports nothing on `to_h`, since the scanner's messages come first.
- Sections.SectionValidation: keeps the messages in the order the validators add them.
  - `errors.full_messages` groups messages by attribute, in the order each attribute first got one.
  - The two orders agree when the scanner adds its messages on `to_h` rather than on `base`, as the schema and id messages are.
  - The scanner's code is not part of this model.
- Manuals.PublishingApiManual.Save: `save!` and `govuk_url` of the manual class are not part of this model.
  - They are modelled after the section's: validate, then put `to_h` at the manual's path.
- Manuals.ManualValidation: the manual class validates only the dangerous-HTML scan.
  - The request tests' slug message for `BREAK_THE_RULEZ` (spec/requests/manuals_spec.rb:27-32) does not follow from the manual class's code.
  - Nor does the schema message for a manual without a title (spec/requests/validation_spec.rb:20-26).
  - The section's validator shows the slug message instead.
- The controller's two-argument `PublishingAPIManual.new` is read as building the manual from the slug and the parsed body.
- The class-name spellings `PublishingApiManual`/`PublishingAPIManual` and `PublishingApiSection`/`PublishingAPISection` are treated as naming the same classes.
