/** The descriptor of a function the language model may ask to call. */
module FunctionDefinitions {
  import opened Wrappers
  import opened JsonValues

  /** `name` is required; the description and the JSON-Schema parameter
      description are optional. */
  datatype FunctionDefinition = FunctionDefinition(
    name: string,
    description: Option<string>,
    parameters: Option<Json>)
}
