/** The HTTP GET request each client builds. A URL is `prefix` followed by
    the URL-encoded `query`; the encoding itself (`urllib.urlencode`) and the
    order in which it writes the parameters are not modelled, so a request is
    the prefix and the parameter map. */
module Http {

  /** A query-parameter value, before `urlencode` turns it into text with
      `str()`. */
  datatype Param =
    | PText(s: string)
    | PInt(n: int)
      /** A Django `template.Variable` object; its `str()` is the token text it
          was built from, not the value it resolves to. */
    | PTemplateVariable(token: string)

  datatype Request = Request(prefix: string, query: map<string, Param>)
}
