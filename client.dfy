/**
 * `OpenAIClient`: built once per selected model, it fixes the key and the
 * headers, and `send_request` turns the conversation history into one POST
 * and the POST's outcome into one reply. The HTTP call itself is not
 * modelled: its outcome is an input.
 */
module ApiClient {
  import opened Wrappers
  import opened Credentials
  import opened PayloadBuilder
  import opened Response

  /** What is posted: the endpoint, the headers and the JSON body. */
  datatype Request = Request(url: string, headers: map<string, string>, body: Payload)

  class Client {
    const config: Config
    const apiKey: string
    const headers: map<string, string>

    /** The headers always agree with the key they were built from. */
    ghost predicate Valid() {
      headers == HeadersFor(apiKey)
    }

    /** `__init__`: the key from the configuration or the environment, then the headers. */
    constructor (config: Config, env: map<string, string>)
      ensures Valid()
      ensures this.config == config
      ensures apiKey == ResolveKey(config, env)
    {
      this.config := config;
      var key := ResolveKey(config, env);
      apiKey := key;
      headers := HeadersFor(key);
    }

    /**
     * `send_request`: the request that is posted and the reply for the
     * given outcome of the POST. The endpoint is read inside the `try`, so
     * a configuration without one posts nothing and reports a format error.
     * The client itself is left unchanged.
     */
    method SendRequest(history: seq<Turn>, outcome: Outcome, maxTokens: int := DefaultMaxTokens)
      returns (posted: Option<Request>, reply: Reply)
      requires Valid()
      ensures posted.Some? <==> config.endpoint.Some?
      ensures posted.Some? ==>
        && posted.value.url == config.endpoint.value
        && posted.value.headers == HeadersFor(apiKey)
        && posted.value.body.model == config.modelName
        && posted.value.body.maxTokens == maxTokens
        && |posted.value.body.messages| == |history|
        && forall i :: 0 <= i < |history| ==> posted.value.body.messages[i] == WireOf(history[i])
      ensures config.endpoint.Some? ==> reply == ReplyTo(outcome)
      ensures config.endpoint.None? ==> reply == Text(BadFormat)
    {
      var body := BuildPayload(config.modelName, history, maxTokens);
      match config.endpoint {
        case None =>
          posted, reply := None, Text(BadFormat);
        case Some(url) =>
          posted := Some(Request(url, headers, body));
          reply := ReplyTo(outcome);
      }
    }
  }
}
