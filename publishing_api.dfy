/** What the publishing classes talk to: the downstream publishing API
    (only its `put_content_item`, with a log of what was put) and the
    collaborators whose code is not part of this model, plus the ways a
    validation run and a `save!` can end. */
module PublishingApi {
  import opened JsonTree

  /** The publishing API's answer to a put: an HTTP code and a body. */
  datatype Response = Response(code: int, body: Json)

  /** The client for the downstream store. `respond` is how the store
      answers; `puts` records every content item written, in order. */
  class Client {
    ghost var puts: seq<(string, Json)>
    const respond: (string, Json) -> Response

    constructor (respond: (string, Json) -> Response)
      ensures this.respond == respond
      ensures puts == []
    {
      this.respond := respond;
      puts := [];
    }

    /** `put_content_item(base_path, content_item)`: one write, keyed by
        the path. */
    method PutContentItem(basePath: string, item: Json) returns (r: Response)
      modifies this
      ensures puts == old(puts) + [(basePath, item)]
      ensures r == respond(basePath, item)
    {
      puts := puts + [(basePath, item)];
      r := respond(basePath, item);
    }
  }

  /** The code the publishing classes call but that is not modelled here,
      each as an arbitrary function:
      - `schemaErrors`: the full messages of `Section.new(attributes)`'s
        JSON-schema validation (valid exactly when there are none);
      - `dangerousHtml`: the full messages the
        `no_dangerous_html_in_text_fields` validator adds for a content item;
      - `renderMarkdown`: `StructWithRenderedMarkdown.new(item).to_h`;
      - `addOrganisations`: `add_organisations_to_details`. */
  datatype Collaborators = Collaborators(
    schemaErrors: Json -> seq<string>,
    dangerousHtml: Json -> seq<string>,
    renderMarkdown: Json -> Json,
    addOrganisations: Json -> Json)

  /** How `valid?` ends: with the list of full error messages, or by an
      exception that escaped one of the validators. */
  datatype Validation = Checked(errors: seq<string>) | Raised {
    predicate IsValid() { this == Checked([]) }
  }

  /** How `save!` ends: with the publishing API's response, by raising
      `ValidationError` (with the messages then in `errors`), or by another
      exception. */
  datatype SaveResult =
    | Published(response: Response)
    | ValidationError(errors: seq<string>)
    | Crashed
}
