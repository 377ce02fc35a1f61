# OpenAIClient request/response model

A Dafny model of the model-gateway class `OpenAIClient` of a desktop LLM chat
client (`app/api_client.py`). The class turns one model's configuration into
an API key and request headers. It turns the conversation history into an
OpenAI-style chat-completion body. It turns the outcome of the POST into the
one value the chat window shows: the model's text, or a fixed error text.
The HTTP call itself is replaced by an input value (`Response.Outcome`).
After that, everything is a deterministic transformation, and the model
proves what each step promises.

Modules, one per concern of the class:

- `Wrappers`: `Option` and `Result`.
- `Strings`: the Python string builtins the class uses. These are `str.upper`
  (ASCII), one-character `str.replace`, `"\n".join` with its inverse `split`,
  and `str(n)` with its inverse.
- `Json`: a decoded JSON body as Python sees it, with Python truthiness and
  type names.
- `Credentials`: key resolution and the headers.
- `PayloadBuilder`: content parts per turn, the message loop and the body.
- `Response`: the status check, the extraction of the first choice's content,
  and the exception-to-text mapping.
- `ApiClient`: the class `Client`, with its constructor (`__init__`) and
  `SendRequest` (`send_request`).

The model follows the code, which:

- puts the raw body text in a non-200 reply. It does not extract a backend error-message field.
- returns a string on every path but one. When the first choice's content is neither a string nor a list (`null`, a number, a dictionary), that value is returned unchanged (`Response.Reply.NonText`).
- does not reject an empty history or a turn with no parts.
- has no audio part, no streaming and no second wire format.
- reads `config["endpoint"]` inside the `try`. A configuration without one is therefore reported as "Unexpected API response format", because the `KeyError` meets that handler.

## Model

| member | source | states |
|---|---|---|
| Strings.Upper | app/api_client.py:9 | `str.upper` keeps the length and upper-cases each ASCII letter in place |
| Strings.Replace | app/api_client.py:9 | `replace(' ', '_')` keeps the length and swaps exactly the matching characters |
| Strings.NatToString | app/api_client.py:59 | the status code's decimal text is non-empty, all digits, has no leading zero, and denotes the code |
| Strings.Join | app/api_client.py:68 | `"\n".join` of no pieces is empty; otherwise its length is the pieces' lengths plus one separator between each two consecutive pieces |
| Strings.JoinPieceAt | app/api_client.py:68 | each piece appears unchanged at its offset in the joined text, followed by the separator unless it is the last |
| Strings.Split | app/api_client.py:68 | splitting always yields at least one piece, and no piece holds the separator |
| Strings.SplitJoin | app/api_client.py:68 | join and split are inverse on a non-empty list of newline-free pieces |
| Credentials.EnvVarName | app/api_client.py:9 | the variable name is the model name upper-cased with spaces as `_`, followed by `_API_KEY`; it has no space and no lower-case letter |
| Credentials.SameEnvVar | app/api_client.py:9 | two model names share a variable exactly when they agree character by character after upper-casing and space-to-underscore |
| Credentials.ExplicitKey | app/api_client.py:9 | `config.get("api_key", "")` is non-empty exactly when the configuration holds a non-empty key, and then it is that key |
| Credentials.ResolveKey | app/api_client.py:9 | a non-empty explicit key wins; otherwise the model's environment variable, or "" when it is unset; the key is non-empty exactly when one of the two sources is |
| Credentials.ExplicitKeyIgnoresEnv | app/api_client.py:9 | with an explicit key the environment has no influence on the key |
| Credentials.OnlyOwnVariableMatters | app/api_client.py:9 | without an explicit key, only the model's own variable influences the key |
| Credentials.HeadersFor | app/api_client.py:10-13 | exactly two headers: `Content-Type: application/json` always, and `Authorization` = "Bearer " + key when there is a key, "" otherwise |
| Credentials.BearerToken | app/api_client.py:12 | a bearer value is recognised exactly by its "Bearer " prefix, and the token is what follows it |
| Credentials.AuthorizationRoundTrip | app/api_client.py:12 | the Authorization value is empty exactly when the key is, and otherwise yields the key back unchanged |
| PayloadBuilder.PartsOf | app/api_client.py:20-36 | a plain string gives exactly one text part, even when empty; a dictionary gives a text part iff "text" is non-empty, an image part with the `data:image/png;base64,` URL iff "image_base64" is non-empty, text before image, nothing else |
| PayloadBuilder.OtherKeysIgnored | app/api_client.py:22-33 | keys other than "text" and "image_base64" (such as "audio_base64") never change the parts |
| PayloadBuilder.AudioOnlyTurnHasNoParts | app/api_client.py:22-33 | a recorded voice turn `{"audio_base64": ...}` is sent with an empty part list |
| PayloadBuilder.ImageData | app/api_client.py:31 | stripping the data-URI prefix gives back the exact data that follows it |
| PayloadBuilder.PartsRoundTrip | app/api_client.py:20-36 | the parts lose no text and no image data: reading them back gives the plain string, or the non-empty "text"/"image_base64" fields |
| PayloadBuilder.WireOf | app/api_client.py:38-41 | a wire message carries its turn's role verbatim |
| PayloadBuilder.BuildMessages | app/api_client.py:17-41 | the loop emits one wire message per turn, same length and order, each with the turn's role and the parts of its content |
| PayloadBuilder.BuildPayload | app/api_client.py:43-47 | `model` and `max_tokens` are passed through as given (no range check); `messages` is the per-turn wire form of the history |
| Response.Get | app/api_client.py:64 | `v.get(key)` succeeds exactly on a dictionary, giving the key's value or `None`; otherwise AttributeError "'<type>' object has no attribute 'get'" |
| Response.Item | app/api_client.py:65 | `v[key]` gives the value of a dictionary holding the key; KeyError exactly for a dictionary without it; TypeError for every other value |
| Response.First | app/api_client.py:65 | `v[0]` succeeds exactly on a non-empty list (its first element) or a non-empty string (its first character); a dictionary gives KeyError |
| Response.Len | app/api_client.py:64 | `len(v)` is defined exactly on strings, lists and dictionaries, and is positive exactly for truthy ones; otherwise "object of type '<type>' has no len()" |
| Response.ChoiceContent | app/api_client.py:64-65 | `None` exactly for a dictionary body without truthy `choices`; a found value is the first choice's `message.content`; a non-dictionary body always raises |
| Response.Comprehension | app/api_client.py:68 | the list comprehension completes exactly when every item is a dictionary, and then gives the truthy "text" values in order |
| Response.AsStrings | app/api_client.py:68 | `str.join`'s type check passes exactly when every value is a string, and then yields those strings in order |
| Response.AsStringsFailsAt | app/api_client.py:68 | the first non-string value is reported as "sequence item <k>: expected str instance, <type> found" |
| Response.Extract | app/api_client.py:62-70 | a non-text reply is the first choice's content and neither string nor list; an exception while locating the content is passed on |
| Response.ApiErrorText | app/api_client.py:59 | the non-200 text starts with "API Error ", ends with the raw body, and its length is prefix + code digits + ": " + body |
| Response.RaisedText | app/api_client.py:76-79 | only a KeyError gives "Unexpected API response format"; any other exception gives "Unexpected error: " followed by its description |
| Response.ReplyTo | app/api_client.py:58-79 | every outcome yields a reply. Non-200 gives "API Error <code>: <raw text>", a network error gives "Network error: ...", any other call error gives "Unexpected error: ...". A non-text reply only ever comes from a 200 response whose first choice's content is neither a string nor a list |
| Response.ParseApiError | app/api_client.py:59 | only a text with the "API Error " prefix is read as an API error |
| Response.ApiErrorRoundTrip | app/api_client.py:58-60 | the API-error text keeps the status code and the raw body recoverably |
| Response.Non200IgnoresBody | app/api_client.py:58-62 | for a non-200 status the body's JSON reading never matters |
| Response.InvalidJsonReply | app/api_client.py:74-75 | a 200 response that is not JSON gives "Invalid JSON response from API" |
| Response.ChoiceContentFound | app/api_client.py:64-65 | a well-formed first choice yields its message's content |
| Response.StringContentReply | app/api_client.py:64-69 | a string content is returned unchanged |
| Response.OtherContentReply | app/api_client.py:64-69 | a content that is neither a string nor a list is returned unchanged, as a value |
| Response.NoChoicesReply | app/api_client.py:64-70 | absent or falsy `choices` (empty list included) gives "No response from model" |
| Response.NotAnObjectReply | app/api_client.py:62-79 | a decoded body that is not a dictionary gives "Unexpected error: '<type>' object has no attribute 'get'" |
| Response.MissingKeyReply | app/api_client.py:64-77 | a first choice without `message`, or a message without `content`, gives "Unexpected API response format" |
| Response.TextsOfTextItems | app/api_client.py:68 | on items that are dictionaries with string-or-falsy "text", the comprehension and the join's type check yield the non-empty texts in order |
| Response.ListContentReply | app/api_client.py:66-68 | a list content gives the newline-join of its items' non-empty texts, in order; splitting the reply gives them back when none holds a newline |
| Response.NonObjectItemRaises | app/api_client.py:68 | the first list item that is not a dictionary raises AttributeError naming its type |
| Response.NonObjectItemReply | app/api_client.py:66-79 | such an item gives "Unexpected error: '<type>' object has no attribute 'get'" |
| Response.StringChoicesReply | app/api_client.py:64-79 | a non-empty string as `choices` gives "Unexpected error: string indices must be integers, not 'str'" |
| Response.UnsizedChoicesReply | app/api_client.py:64-79 | a truthy number or `true` as `choices` gives "Unexpected error: object of type '<type>' has no len()" |
| Response.DictChoicesReply | app/api_client.py:64-77 | a non-empty dictionary as `choices` makes `choices[0]` a KeyError: "Unexpected API response format" |
| Response.NonObjectChoiceReply | app/api_client.py:65-79 | a first choice that is not a dictionary gives "Unexpected error: " with the TypeError of indexing it by "message" |
| Response.NonObjectMessageReply | app/api_client.py:65-79 | a message that is not a dictionary gives "Unexpected error: " with the TypeError of indexing it by "content" |
| Response.NonStringTextReply | app/api_client.py:66-79 | in a list of dictionaries, the first truthy "text" that is not a string gives "Unexpected error: sequence item <k>: expected str instance, <type> found" |
| Response.OkReplyKinds | app/api_client.py:62-79 | a decoded 200 response gives one of: the empty-result text, the format-error text, an "Unexpected error: " text, the first choice's string content, the newline-join of a list content's truthy texts, or a non-string, non-list content as is |
| ApiClient.Client.constructor | app/api_client.py:7-13 | the client stores its configuration, the resolved key, and the headers built from that key |
| ApiClient.Client.SendRequest | app/api_client.py:15-79 | posts to the configured endpoint with the client's headers and the built body, and returns the reply for the outcome; without an endpoint it posts nothing and returns "Unexpected API response format"; the client is unchanged |

## Left out

- The HTTP POST itself (`httpx.AsyncClient().post`), its 60-second timeout and `async`/`await`. These are network I/O. Their outcome is the input `Response.Outcome`, and `SendRequest` returns the request it would post.
- Decoding the body text as JSON is taken as part of that input. `Received.body` is `None` exactly when `response.json()` raises `JSONDecodeError`.
- JSON floating-point numbers are left out. Only integers are modelled.
- `str(e)` of an exception from the call is the input's `message`. The texts of the TypeError, AttributeError and IndexError raised while reading the body follow CPython 3.11's wording.
- Strings.Upper: models `str.upper` on ASCII only. Non-ASCII letters, including the length-changing ones such as "ß", are left unchanged.
- A configuration without `model_name`, or a history turn without `role` or `content`, raises `KeyError` out of `send_request`, because those reads happen before the `try`. `name` is read only by `__init__`, and only when there is no non-empty `api_key`, because `or` short-circuits. Without `name` that read raises `KeyError` out of the constructor. The typed model makes all of these fields required, so those paths are not represented.
- History content is a string or a dictionary of strings. Python content of other types (None, numbers, nested values) is not represented, and neither is a non-string `api_key`.
- Streaming (`stream_response`) is called by the chat window, but `app/api_client.py` does not define it. It is not part of this model. Neither is any stream decoder, "custom" backend format or audio part.
- `app/config_loader.py` is left out: it is file I/O plus writing the process environment. Its variable-naming rule is `Credentials.EnvVarName`. The environment is the map parameter `env` of `ResolveKey`.
- The Qt user interface, recording, and image/audio encoding are left out. They are not part of the client.
