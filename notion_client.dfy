/** The browser-side Notion helper: a module-level API key set by `initializeNotion`
    and `postToNotion`, which refuses to send anything until that key is set and
    non-empty. `fetch('/api/notion', …)` is an oracle. */
module NotionClient {
  import opened Wrappers

  const NotInitialized: string := "Notion API key not initialized"
  const RequestFailed: string := "Failed to post to Notion"

  /** The JSON body sent to `/api/notion`; `title: undefined` is dropped by
      `JSON.stringify`, shown here as `None`. */
  datatype RequestBody = RequestBody(databaseId: string, content: string, title: Option<string>, apiKey: string)

  /** What `fetch` yields: `response.ok` and the parsed `response.json()`. */
  datatype FetchResponse = FetchResponse(ok: bool, json: string)

  /** JavaScript truthiness of the key: neither `null` nor `''`. */
  predicate Initialized(key: Option<string>) {
    key.Some? && key.value != ""
  }

  /** The module's state: the variable `notionApiKey`, `null` at load time. */
  class Client {
    var apiKey: Option<string>

    constructor ()
      ensures apiKey == None
    {
      apiKey := None;
    }

    /** `initializeNotion(key)`: the last call wins. */
    method Initialize(key: string)
      modifies this
      ensures apiKey == Some(key)
    {
      apiKey := Some(key);
    }

    /** `postToNotion(databaseId, content, title)`. `sent` is the request given to
        `fetch`, `None` when none is made; `outcome` is the resolved value or the
        message of the thrown error. */
    method Post(databaseId: string, content: string, title: Option<string>, fetch: RequestBody -> FetchResponse)
      returns (outcome: Result<string, string>, sent: Option<RequestBody>)
      ensures sent.None? <==> !Initialized(apiKey)
      ensures sent.None? ==> outcome == Failure(NotInitialized)
      ensures sent.Some? ==> sent.value == RequestBody(databaseId, content, title, apiKey.value)
      ensures sent.Some? && fetch(sent.value).ok ==> outcome == Success(fetch(sent.value).json)
      ensures sent.Some? && !fetch(sent.value).ok ==> outcome == Failure(RequestFailed)
    {
      if !Initialized(apiKey) {
        return Failure(NotInitialized), None;
      }
      var request := RequestBody(databaseId, content, title, apiKey.value);
      var response := fetch(request);
      sent := Some(request);
      if !response.ok {
        outcome := Failure(RequestFailed);
      } else {
        outcome := Success(response.json);
      }
    }
  }
}
