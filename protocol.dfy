/** The tool-protocol types the controller produces and consumes, and the schema,
    argument and content mapper it delegates to. The mapper's translations are not
    part of this model: each is an arbitrary function that may throw. */
module Protocol {
  import opened Wrappers
  import opened Hosting

  /** A JSON value, kept as its text. */
  type JsonText = string

  /** A request's raw argument map. */
  type Arguments = map<string, JsonText>

  datatype ToolAnnotations = ToolAnnotations(
    title: string,
    idempotentHint: bool,
    destructiveHint: bool,
    openWorldHint: bool,
    readOnlyHint: bool)

  datatype Tool = Tool(
    name: string,
    description: Option<string>,
    inputSchema: JsonText,
    annotations: ToolAnnotations)

  /** One content item: its type tag, its text, and the structured payload a
      mapped dictionary may carry. */
  datatype Content = Content(contentType: string, text: Option<string>, structured: Option<map<string, string>>)

  /** A content item of type "text". */
  function TextContent(text: string): Content {
    Content("text", Some(text), None)
  }

  datatype CallToolRequest = CallToolRequest(name: Option<string>, arguments: Option<Arguments>)

  datatype CallToolResponse = CallToolResponse(content: seq<Content>, isError: bool)

  /** `McpToolsMapper`: `ToJsonSchema`, `ToParameters` (which may give null) and
      `ToContent`, each of which may throw. */
  class McpToolsMapper {
    const toJsonSchema: Schema -> Result<JsonText>
    const toParameters: (Option<Arguments>, Schema) -> Result<Option<Parameters>>
    const toContent: map<string, string> -> Result<Content>

    constructor (toJsonSchema: Schema -> Result<JsonText>,
                 toParameters: (Option<Arguments>, Schema) -> Result<Option<Parameters>>,
                 toContent: map<string, string> -> Result<Content>)
      ensures this.toJsonSchema == toJsonSchema && this.toParameters == toParameters && this.toContent == toContent
    {
      this.toJsonSchema := toJsonSchema;
      this.toParameters := toParameters;
      this.toContent := toContent;
    }
  }
}
