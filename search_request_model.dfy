/** The request value object of the file search client
    (src/app/model/search-request.model.ts). */
module RequestModel {

  /** A search: the server picked in the form, the directory to search from
      and the term to search for. Nothing in the client changes it once built. */
  datatype SearchRequestModel = SearchRequestModel(server: string, rootPath: string, searchTerm: string)

  /** The static factory `of`. It accepts any three strings (empty ones
      included), rejects nothing and copies each argument into the field of the
      same name. */
  function Of(server: string, rootPath: string, searchTerm: string): (r: SearchRequestModel)
    ensures r.server == server
    ensures r.rootPath == rootPath
    ensures r.searchTerm == searchTerm
  {
    SearchRequestModel(server, rootPath, searchTerm)
  }

  /** `of` is the only construction path: every request is the image of its own
      three fields, and two requests built by `of` are equal exactly when their
      arguments are. */
  lemma OfIsOnlyConstructionPath(m: SearchRequestModel, s: string, r: string, t: string)
    ensures Of(m.server, m.rootPath, m.searchTerm) == m
    ensures Of(s, r, t) == m <==> s == m.server && r == m.rootPath && t == m.searchTerm
  {
  }
}
