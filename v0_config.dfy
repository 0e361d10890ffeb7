/**
 * The v0 API configuration: the endpoint URL and the API key the server
 * stores once at start-up, from which the request headers are built.
 */
module V0Config {
  import opened JsValues

  const V0ApiUrl := "https://api.v0.dev/v1/chat/completions"
  const BearerPrefix := "Bearer "
  const JsonContentType := "application/json"

  datatype Headers = Headers(authorization: string, contentType: string)

  /** The configuration module's state: one stored key, initially empty. */
  class V0Config {
    var apiKey: string
    const apiUrl: string

    constructor()
      ensures apiKey == "" && apiUrl == V0ApiUrl
    {
      apiKey := "";
      apiUrl := V0ApiUrl;
    }

    /** Replaces the stored key; the URL is a constant and stays as it was. */
    method SetApiKey(key: string)
      modifies this
      ensures apiKey == key
    {
      apiKey := key;
    }

    /** The bearer authorization carrying the stored key, and the JSON content type. */
    function GetHeaders(): (h: Headers)
      reads this
      ensures StartsWith(h.authorization, BearerPrefix)
      ensures h.authorization[|BearerPrefix|..] == apiKey
      ensures h.contentType == JsonContentType
    {
      Headers(BearerPrefix + apiKey, JsonContentType)
    }
  }

  /** The routes' "configured?" test: the authorization is non-empty and starts with "Bearer ". */
  predicate HasApiKey(h: Headers)
  {
    h.authorization != "" && StartsWith(h.authorization, BearerPrefix)
  }

  /**
   * The test passes whatever key is stored, the empty key included, so the
   * routes' "key is not set" answer can never be given.
   */
  lemma ConfiguredCheckAlwaysTrue(c: V0Config)
    ensures HasApiKey(c.GetHeaders())
    ensures c.apiKey == "" ==> c.GetHeaders().authorization == BearerPrefix
  {
  }

  /** The test the routes evidently mean: something follows the "Bearer " prefix. */
  predicate KeyConfigured(h: Headers)
  {
    StartsWith(h.authorization, BearerPrefix) && |h.authorization| > |BearerPrefix|
  }

  /** That test tells exactly whether a non-empty key is stored. */
  lemma KeyConfiguredIffKeySet(c: V0Config)
    ensures KeyConfigured(c.GetHeaders()) <==> c.apiKey != ""
  {
  }
}
