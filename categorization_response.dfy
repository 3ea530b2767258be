/** The response of the category-prediction service, as it is deserialised. */
module CategorizationResponses {
  import opened Wrappers

  /** One prediction: a description and the category the service chose for it, if any. */
  datatype CategorizationItem = CategorizationItem(description: Option<string>, categoryId: Option<string>)

  datatype Content = Content(categorizations: Option<seq<CategorizationItem>>)

  datatype CategorizationResponse = CategorizationResponse(content: Option<Content>)

  /**
   * `getCategorizationsSafe`: never null; the list the response carries,
   * same elements in the same order, and the empty list when the content
   * or its list is missing.
   */
  function GetCategorizationsSafe(r: CategorizationResponse): (items: seq<CategorizationItem>)
    ensures items == [] || r.content == Some(Content(Some(items)))
    ensures r.content.Some? && r.content.value.categorizations.Some? ==> items == r.content.value.categorizations.value
  {
    if r.content.None? || r.content.value.categorizations.None? then
      []
    else
      r.content.value.categorizations.value
  }
}
