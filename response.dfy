/**
 * What `send_request` returns once the HTTP call has produced an outcome:
 * the status check, the extraction of the first choice's content from the
 * decoded body, and the mapping of every exception raised on the way to a
 * fixed text. Nothing escapes: every outcome yields a reply.
 */
module Response {
  import opened Wrappers
  import opened Strings
  import opened Json

  /**
   * The outcome of the POST. `Received` is an HTTP response of any status,
   * with its raw text and the result of decoding that text as JSON (`None`
   * when `response.json()` would raise `JSONDecodeError`). `RequestError`
   * is an `httpx.RequestError` (connection, DNS, TLS, timeout) and
   * `OtherError` any other exception of the call; both carry `str(e)`.
   */
  datatype Outcome =
    | Received(status: nat, text: string, body: Option<Json>)
    | RequestError(message: string)
    | OtherError(message: string)

  /**
   * The value `send_request` returns: a string, or, when the first choice's
   * content is neither a string nor a list, that decoded value unchanged.
   */
  datatype Reply = Text(text: string) | NonText(value: Json)

  /** An exception raised while reading the decoded body. */
  datatype Raised = KeyErrorRaised | OtherRaised(detail: string)

  const StatusOk: nat := 200
  const ApiErrorPrefix: string := "API Error "
  const ApiErrorSeparator: string := ": "
  const NoResponse: string := "No response from model"
  const InvalidJson: string := "Invalid JSON response from API"
  const BadFormat: string := "Unexpected API response format"
  const NetworkPrefix: string := "Network error: "
  const UnexpectedPrefix: string := "Unexpected error: "
  const NewLine: char := '\n'

  function Quoted(s: string): string {
    "'" + s + "'"
  }

  /** `v.get(key)`: a dictionary answers with the value or `None`; nothing else has `get`. */
  function Get(v: Json, key: string): (r: Result<Option<Json>, Raised>)
    ensures r.Success? <==> v.Object?
    ensures r.Success? ==> (r.value.Some? <==> key in v.fields)
    ensures r.Success? && r.value.Some? ==> r.value.value == v.fields[key]
    ensures r.Failure? ==> r.error == OtherRaised(Quoted(TypeName(v)) + " object has no attribute 'get'")
  {
    match v
    case Object(m) => Success(if key in m then Some(m[key]) else None)
    case _ => Failure(OtherRaised(Quoted(TypeName(v)) + " object has no attribute 'get'"))
  }

  /** The TypeError text of `v[key]` for a string key on a value that is not a dictionary. */
  function IndexTypeError(v: Json): string
    requires !v.Object?
  {
    match v
    case Array(_) => "list indices must be integers or slices, not str"
    case Str(_) => "string indices must be integers, not 'str'"
    case _ => Quoted(TypeName(v)) + " object is not subscriptable"
  }

  /**
   * `v[key]` for a string key: the value of a dictionary that has the key,
   * KeyError for one that lacks it, TypeError for anything else.
   */
  function Item(v: Json, key: string): (r: Result<Json, Raised>)
    ensures r.Success? <==> v.Object? && key in v.fields
    ensures r.Success? ==> r.value == v.fields[key]
    ensures r == Failure(KeyErrorRaised) <==> v.Object? && key !in v.fields
    ensures !v.Object? ==> r == Failure(OtherRaised(IndexTypeError(v)))
  {
    match v
    case Object(m) => if key in m then Success(m[key]) else Failure(KeyErrorRaised)
    case _ => Failure(OtherRaised(IndexTypeError(v)))
  }

  /**
   * `v[0]`: the first element of a non-empty list, the first character of a
   * non-empty string; KeyError for a dictionary, because decoded JSON
   * objects have string keys only and `0` is never one of them.
   */
  function First(v: Json): (r: Result<Json, Raised>)
    ensures r.Success? <==> (v.Array? && v.items != []) || (v.Str? && v.s != "")
    ensures r.Success? && v.Array? ==> r.value == v.items[0]
    ensures r.Success? && v.Str? ==> r.value == Str([v.s[0]])
    ensures r == Failure(KeyErrorRaised) <==> v.Object?
  {
    match v
    case Array(xs) => if xs != [] then Success(xs[0]) else Failure(OtherRaised("list index out of range"))
    case Str(s) => if s != "" then Success(Str([s[0]])) else Failure(OtherRaised("string index out of range"))
    case Object(_) => Failure(KeyErrorRaised)
    case _ => Failure(OtherRaised(Quoted(TypeName(v)) + " object is not subscriptable"))
  }

  /** `len(v)`: defined on strings, lists and dictionaries, and positive exactly for truthy ones. */
  function Len(v: Json): (r: Result<nat, Raised>)
    ensures r.Success? <==> v.Str? || v.Array? || v.Object?
    ensures r.Success? ==> (r.value > 0 <==> Truthy(v))
    ensures r.Failure? ==> r.error == OtherRaised("object of type " + Quoted(TypeName(v)) + " has no len()")
  {
    match v
    case Str(s) => Success(|s|)
    case Array(xs) => Success(|xs|)
    case Object(m) =>
      assert m != map[] ==> exists k :: k in m;
      Success(|m|)
    case _ => Failure(OtherRaised("object of type " + Quoted(TypeName(v)) + " has no len()"))
  }

  /**
   * `app/api_client.py` lines 64-65: `data["choices"][0]["message"]["content"]`
   * when `data.get("choices") and len(data["choices"]) > 0`, and `None`
   * when that condition is false. `None` comes exactly from a dictionary
   * without truthy `choices`; a found content is the first choice's.
   */
  function ChoiceContent(data: Json): (r: Result<Option<Json>, Raised>)
    ensures r == Success(None) <==>
      data.Object? && ("choices" !in data.fields || !Truthy(data.fields["choices"]))
    ensures r.Success? && r.value.Some? ==> FirstContentIs(data, r.value.value)
    ensures !data.Object? ==> r.Failure?
  {
    var choices :- Get(data, "choices");
    if choices.None? || !Truthy(choices.value) then Success(None)
    else
      var n :- Len(choices.value);
      if n == 0 then Success(None)
      else
        var first :- First(choices.value);
        var message :- Item(first, "message");
        var content :- Item(message, "content");
        Success(Some(content))
  }

  /** The truthy "text" values of the dictionaries among the items, in order. */
  function TruthyTexts(items: seq<Json>): (texts: seq<Json>)
    ensures |texts| <= |items|
    ensures forall k :: 0 <= k < |texts| ==> Truthy(texts[k])
  {
    if items == [] then []
    else
      var f := if items[0].Object? then items[0].fields else map[];
      (if "text" in f && Truthy(f["text"]) then [f["text"]] else []) + TruthyTexts(items[1..])
  }

  /**
   * `[item.get("text", "") for item in items if item.get("text")]`: it
   * completes exactly when every item is a dictionary, and then gives the
   * truthy "text" values in order.
   */
  function Comprehension(items: seq<Json>): (r: Result<seq<Json>, Raised>)
    ensures r.Success? <==> forall k :: 0 <= k < |items| ==> items[k].Object?
    ensures r.Success? ==> r.value == TruthyTexts(items)
  {
    if items == [] then Success([])
    else
      var text :- Get(items[0], "text");
      var rest :- Comprehension(items[1..]);
      Success(if text.Some? && Truthy(text.value) then [text.value] + rest else rest)
  }

  /** The strings held by values that are all strings. */
  function StrValues(values: seq<Json>): (strings: seq<string>)
    requires forall k :: 0 <= k < |values| ==> values[k].Str?
    ensures |strings| == |values|
    ensures forall k :: 0 <= k < |values| ==> values[k] == Str(strings[k])
  {
    if values == [] then [] else [values[0].s] + StrValues(values[1..])
  }

  /** The TypeError text `str.join` gives for a non-string at position `index`. */
  function JoinTypeError(index: nat, v: Json): string {
    "sequence item " + NatToString(index) + ": expected str instance, " + TypeName(v) + " found"
  }

  /**
   * The type check `str.join` makes, reporting positions from `offset` on:
   * it passes exactly when every value is a string, and then gives them.
   */
  function AsStrings(values: seq<Json>, offset: nat): (r: Result<seq<string>, Raised>)
    ensures r.Success? <==> forall k :: 0 <= k < |values| ==> values[k].Str?
    ensures r.Success? ==> r.value == StrValues(values)
  {
    if values == [] then Success([])
    else if !values[0].Str? then Failure(OtherRaised(JoinTypeError(offset, values[0])))
    else
      var rest :- AsStrings(values[1..], offset + 1);
      Success([values[0].s] + rest)
  }

  /** The first value that is not a string is the one `str.join` reports, by its position. */
  lemma {:induction false} AsStringsFailsAt(values: seq<Json>, k: nat, offset: nat)
    requires k < |values| && !values[k].Str?
    requires forall j :: 0 <= j < k ==> values[j].Str?
    ensures AsStrings(values, offset) == Failure(OtherRaised(JoinTypeError(offset + k, values[k])))
  {
    if k > 0 {
      AsStringsFailsAt(values[1..], k - 1, offset + 1);
    }
  }

  /**
   * `app/api_client.py` lines 62-70 after `response.json()` succeeded. A
   * reply that is not text is the first choice's content, and only when
   * that is neither a string nor a list.
   */
  function Extract(data: Json): (r: Result<Reply, Raised>)
    ensures r.Success? && r.value.NonText? ==>
      FirstContentIs(data, r.value.value) && !r.value.value.Str? && !r.value.value.Array?
    ensures ChoiceContent(data).Failure? ==> r.Failure?
  {
    var content :- ChoiceContent(data);
    match content
    case None => Success(Text(NoResponse))
    case Some(Array(items)) =>
      var texts :- Comprehension(items);
      var strings :- AsStrings(texts, 0);
      Success(Text(Join(NewLine, strings)))
    case Some(Str(s)) => Success(Text(s))
    case Some(v) => Success(NonText(v))
  }

  /** The text of a non-200 response: the prefix, then the code, and the raw body last. */
  function ApiErrorText(status: nat, body: string): (t: string)
    ensures |t| == |ApiErrorPrefix| + |NatToString(status)| + |ApiErrorSeparator| + |body|
    ensures t[..|ApiErrorPrefix|] == ApiErrorPrefix
    ensures t[|t| - |body|..] == body
  {
    ApiErrorPrefix + NatToString(status) + ApiErrorSeparator + body
  }

  /** The text starts with "Unexpected error: ". */
  predicate IsUnexpected(t: string) {
    |t| >= |UnexpectedPrefix| && t[..|UnexpectedPrefix|] == UnexpectedPrefix
  }

  /**
   * `app/api_client.py` lines 76-79 for an exception raised while reading
   * the body: only a KeyError gives the format text; any other exception
   * gives "Unexpected error: " followed by its description.
   */
  function RaisedText(e: Raised): (t: string)
    ensures t == BadFormat <==> e.KeyErrorRaised?
    ensures e.OtherRaised? ==> IsUnexpected(t) && t[|UnexpectedPrefix|..] == e.detail
  {
    match e
    case KeyErrorRaised => BadFormat
    case OtherRaised(detail) =>
      var t := UnexpectedPrefix + detail;
      assert t[11] != BadFormat[11];
      t
  }

  /**
   * `app/api_client.py` lines 58-79: the reply for each outcome of the call. A reply that is
   * not text is only ever the content of the first choice of a decoded
   * 200 response, and only when that content is neither a string nor a
   * list; every other path, errors included, gives text.
   */
  function ReplyTo(outcome: Outcome): (r: Reply)
    ensures outcome.Received? && outcome.status != StatusOk ==>
      r == Text(ApiErrorText(outcome.status, outcome.text))
    ensures outcome.RequestError? ==> r == Text(NetworkPrefix + outcome.message)
    ensures outcome.OtherError? ==> r == Text(UnexpectedPrefix + outcome.message)
    ensures r.NonText? ==>
      && outcome.Received? && outcome.status == StatusOk && outcome.body.Some?
      && ChoiceContent(outcome.body.value) == Success(Some(r.value))
      && !r.value.Str? && !r.value.Array?
  {
    match outcome
    case RequestError(message) => Text(NetworkPrefix + message)
    case OtherError(message) => Text(UnexpectedPrefix + message)
    case Received(status, text, body) =>
      if status != StatusOk then Text(ApiErrorText(status, text))
      else match body
        case None => Text(InvalidJson)
        case Some(data) =>
          match Extract(data)
          case Success(reply) => reply
          case Failure(e) => Text(RaisedText(e))
  }

  /** Reads an "API Error <code>: <body>" text back into its status and body. */
  function ParseApiError(s: string): (r: Option<(nat, string)>)
    ensures r.Some? ==> |s| > |ApiErrorPrefix| && s[..|ApiErrorPrefix|] == ApiErrorPrefix
  {
    if |s| >= |ApiErrorPrefix| && s[..|ApiErrorPrefix|] == ApiErrorPrefix then
      var rest := s[|ApiErrorPrefix|..];
      var n := DigitPrefixLength(rest);
      if 0 < n && |rest| >= n + |ApiErrorSeparator| && rest[n..n + |ApiErrorSeparator|] == ApiErrorSeparator
      then Some((DecimalValue(rest[..n]), rest[n + |ApiErrorSeparator|..]))
      else None
    else None
  }

  /** A non-200 reply keeps both the status code and the raw body text, recoverably. */
  lemma ApiErrorRoundTrip(status: nat, body: string)
    ensures ParseApiError(ApiErrorText(status, body)) == Some((status, body))
  {
    var digits := NatToString(status);
    var s := ApiErrorText(status, body);
    assert s[..|ApiErrorPrefix|] == ApiErrorPrefix;
    var rest := s[|ApiErrorPrefix|..];
    assert rest == digits + (ApiErrorSeparator + body);
    DigitPrefixOf(digits, ApiErrorSeparator + body);
    var n := |digits|;
    assert rest[..n] == digits;
    assert rest[n..n + |ApiErrorSeparator|] == ApiErrorSeparator;
    assert rest[n + |ApiErrorSeparator|..] == body;
  }

  /** For a non-200 status the body is never decoded: its JSON reading does not matter. */
  lemma Non200IgnoresBody(status: nat, text: string, body1: Option<Json>, body2: Option<Json>)
    requires status != StatusOk
    ensures ReplyTo(Received(status, text, body1)) == ReplyTo(Received(status, text, body2))
  {
  }

  /** A 200 response whose text is not JSON. */
  lemma InvalidJsonReply(text: string)
    ensures ReplyTo(Received(StatusOk, text, None)) == Text(InvalidJson)
  {
  }

  /** The decoded body's first choice carries a message with this content. */
  predicate FirstContentIs(data: Json, content: Json) {
    && data.Object? && "choices" in data.fields
    && data.fields["choices"].Array? && data.fields["choices"].items != []
    && data.fields["choices"].items[0].Object?
    && "message" in data.fields["choices"].items[0].fields
    && var message := data.fields["choices"].items[0].fields["message"];
       message.Object? && "content" in message.fields && message.fields["content"] == content
  }

  lemma ChoiceContentFound(data: Json, content: Json)
    requires FirstContentIs(data, content)
    ensures ChoiceContent(data) == Success(Some(content))
  {
  }

  /** A string content is returned unchanged. */
  lemma StringContentReply(data: Json, s: string, text: string)
    requires FirstContentIs(data, Str(s))
    ensures ReplyTo(Received(StatusOk, text, Some(data))) == Text(s)
  {
    ChoiceContentFound(data, Str(s));
  }

  /** Any content that is neither a string nor a list is returned unchanged, as it is. */
  lemma OtherContentReply(data: Json, content: Json, text: string)
    requires FirstContentIs(data, content)
    requires !content.Str? && !content.Array?
    ensures ReplyTo(Received(StatusOk, text, Some(data))) == NonText(content)
  {
    ChoiceContentFound(data, content);
  }

  /** Absent or falsy `choices` (missing, null, empty list, ...) is the empty-result text, not an error. */
  lemma NoChoicesReply(data: Json, text: string)
    requires data.Object?
    requires "choices" !in data.fields || !Truthy(data.fields["choices"])
    ensures ReplyTo(Received(StatusOk, text, Some(data))) == Text(NoResponse)
  {
  }

  /** A decoded body that is not a dictionary has no `get`: an unexpected error. */
  lemma NotAnObjectReply(data: Json, text: string)
    requires !data.Object?
    ensures ReplyTo(Received(StatusOk, text, Some(data))) ==
      Text(UnexpectedPrefix + Quoted(TypeName(data)) + " object has no attribute 'get'")
  {
  }

  /** A first choice without `message`, or a message without `content`, is a format error. */
  lemma MissingKeyReply(data: Json, text: string)
    requires data.Object? && "choices" in data.fields
    requires data.fields["choices"].Array? && data.fields["choices"].items != []
    requires data.fields["choices"].items[0].Object?
    requires var choice := data.fields["choices"].items[0].fields;
      "message" !in choice ||
      (choice["message"].Object? && "content" !in choice["message"].fields)
    ensures ReplyTo(Received(StatusOk, text, Some(data))) == Text(BadFormat)
  {
  }

  /** An item of a list content whose "text" is either a string or falsy. */
  predicate TextItem(v: Json) {
    v.Object? && ("text" in v.fields ==> v.fields["text"].Str? || !Truthy(v.fields["text"]))
  }

  /** The non-empty "text" strings of the items, in order. */
  function PartTexts(items: seq<Json>): (texts: seq<string>)
    requires forall k :: 0 <= k < |items| ==> TextItem(items[k])
    ensures |texts| <= |items|
    ensures forall k :: 0 <= k < |texts| ==> texts[k] != ""
  {
    if items == [] then []
    else
      assert TextItem(items[0]);
      var f := items[0].fields;
      (if "text" in f && Truthy(f["text"]) then [f["text"].s] else []) + PartTexts(items[1..])
  }

  lemma {:induction false} TextsOfTextItems(items: seq<Json>, offset: nat)
    requires forall k :: 0 <= k < |items| ==> TextItem(items[k])
    ensures Comprehension(items).Success?
    ensures AsStrings(Comprehension(items).value, offset) == Success(PartTexts(items))
  {
    if items != [] {
      assert TextItem(items[0]);
      var f := items[0].fields;
      TextsOfTextItems(items[1..], offset + 1);
      TextsOfTextItems(items[1..], offset);
      var rest := Comprehension(items[1..]).value;
      if "text" in f && Truthy(f["text"]) {
        assert Comprehension(items).value == [f["text"]] + rest;
        assert ([f["text"]] + rest)[1..] == rest;
      } else {
        assert Comprehension(items).value == rest;
        assert PartTexts(items) == PartTexts(items[1..]);
      }
    }
  }

  /**
   * A list content gives the newline-join of the non-empty "text" values of
   * its items, in order; when none of them holds a newline and there is at
   * least one, splitting the reply on newlines gives them back.
   */
  lemma ListContentReply(data: Json, items: seq<Json>, text: string)
    requires FirstContentIs(data, Array(items))
    requires forall k :: 0 <= k < |items| ==> TextItem(items[k])
    ensures ReplyTo(Received(StatusOk, text, Some(data))) == Text(Join(NewLine, PartTexts(items)))
    ensures PartTexts(items) != [] && (forall k :: 0 <= k < |PartTexts(items)| ==> NewLine !in PartTexts(items)[k]) ==>
      Split(ReplyTo(Received(StatusOk, text, Some(data))).text, NewLine) == PartTexts(items)
  {
    ChoiceContentFound(data, Array(items));
    TextsOfTextItems(items, 0);
    if PartTexts(items) != [] && (forall k :: 0 <= k < |PartTexts(items)| ==> NewLine !in PartTexts(items)[k]) {
      SplitJoin(PartTexts(items), NewLine);
    }
  }

  /** The first item of a list content that is not a dictionary stops the comprehension. */
  lemma {:induction false} NonObjectItemRaises(items: seq<Json>, k: nat)
    requires k < |items| && !items[k].Object?
    requires forall j :: 0 <= j < k ==> items[j].Object?
    ensures Comprehension(items) ==
      Failure(OtherRaised(Quoted(TypeName(items[k])) + " object has no attribute 'get'"))
  {
    if k > 0 {
      NonObjectItemRaises(items[1..], k - 1);
    }
  }

  /** ... and the reply names the offending type. */
  lemma NonObjectItemReply(data: Json, items: seq<Json>, k: nat, text: string)
    requires FirstContentIs(data, Array(items))
    requires k < |items| && !items[k].Object?
    requires forall j :: 0 <= j < k ==> items[j].Object?
    ensures ReplyTo(Received(StatusOk, text, Some(data))) ==
      Text(UnexpectedPrefix + Quoted(TypeName(items[k])) + " object has no attribute 'get'")
  {
    ChoiceContentFound(data, Array(items));
    NonObjectItemRaises(items, k);
  }

  /** A non-empty string as `choices`: its first character is indexed with "message". */
  lemma StringChoicesReply(data: Json, s: string, text: string)
    requires data.Object? && "choices" in data.fields && data.fields["choices"] == Str(s) && s != ""
    ensures ReplyTo(Received(StatusOk, text, Some(data))) ==
      Text(UnexpectedPrefix + "string indices must be integers, not 'str'")
  {
  }

  /** A truthy number or `true` as `choices` has no `len()`. */
  lemma UnsizedChoicesReply(data: Json, text: string)
    requires data.Object? && "choices" in data.fields
    requires var c := data.fields["choices"]; (c.Int? || c.Bool?) && Truthy(c)
    ensures ReplyTo(Received(StatusOk, text, Some(data))) ==
      Text(UnexpectedPrefix + "object of type " + Quoted(TypeName(data.fields["choices"])) + " has no len()")
  {
  }

  /** A non-empty dictionary as `choices`: `choices[0]` is a KeyError. */
  lemma DictChoicesReply(data: Json, text: string)
    requires data.Object? && "choices" in data.fields
    requires data.fields["choices"].Object? && data.fields["choices"].fields != map[]
    ensures ReplyTo(Received(StatusOk, text, Some(data))) == Text(BadFormat)
  {
  }

  /** A first choice that is not a dictionary cannot be indexed with "message". */
  lemma NonObjectChoiceReply(data: Json, text: string)
    requires data.Object? && "choices" in data.fields
    requires data.fields["choices"].Array? && data.fields["choices"].items != []
    requires !data.fields["choices"].items[0].Object?
    ensures ReplyTo(Received(StatusOk, text, Some(data))) ==
      Text(UnexpectedPrefix + IndexTypeError(data.fields["choices"].items[0]))
  {
  }

  /** A message that is not a dictionary cannot be indexed with "content". */
  lemma NonObjectMessageReply(data: Json, text: string)
    requires data.Object? && "choices" in data.fields
    requires data.fields["choices"].Array? && data.fields["choices"].items != []
    requires data.fields["choices"].items[0].Object?
    requires "message" in data.fields["choices"].items[0].fields
    requires !data.fields["choices"].items[0].fields["message"].Object?
    ensures ReplyTo(Received(StatusOk, text, Some(data))) ==
      Text(UnexpectedPrefix + IndexTypeError(data.fields["choices"].items[0].fields["message"]))
  {
  }

  /**
   * In a list content of dictionaries, the first truthy "text" that is not
   * a string makes `str.join` fail, naming its position among the truthy
   * texts and its type.
   */
  lemma NonStringTextReply(data: Json, items: seq<Json>, k: nat, text: string)
    requires FirstContentIs(data, Array(items))
    requires forall j :: 0 <= j < |items| ==> items[j].Object?
    requires k < |TruthyTexts(items)| && !TruthyTexts(items)[k].Str?
    requires forall j :: 0 <= j < k ==> TruthyTexts(items)[j].Str?
    ensures ReplyTo(Received(StatusOk, text, Some(data))) ==
      Text(UnexpectedPrefix + JoinTypeError(k, TruthyTexts(items)[k]))
  {
    ChoiceContentFound(data, Array(items));
    AsStringsFailsAt(TruthyTexts(items), k, 0);
    assert Comprehension(items) == Success(TruthyTexts(items));
    assert Extract(data) == Failure(OtherRaised(JoinTypeError(k, TruthyTexts(items)[k])));
  }

  /**
   * Every decoded 200 response yields one of: the empty-result text, the
   * format-error text, an "Unexpected error: " text, the first choice's
   * string content, the newline-join of the truthy texts of a list
   * content, or a first-choice content that is neither string nor list.
   */
  lemma OkReplyKinds(data: Json, text: string)
    ensures var r := ReplyTo(Received(StatusOk, text, Some(data)));
      || r == Text(NoResponse)
      || r == Text(BadFormat)
      || (r.Text? && IsUnexpected(r.text))
      || (exists s :: FirstContentIs(data, Str(s)) && r == Text(s))
      || (exists items :: FirstContentIs(data, Array(items))
            && (forall k :: 0 <= k < |TruthyTexts(items)| ==> TruthyTexts(items)[k].Str?)
            && r == Text(Join(NewLine, StrValues(TruthyTexts(items)))))
      || (r.NonText? && FirstContentIs(data, r.value) && !r.value.Str? && !r.value.Array?)
  {
    var r := ReplyTo(Received(StatusOk, text, Some(data)));
    var c := ChoiceContent(data);
    if c.Failure? {
      assert r == Text(RaisedText(c.error));
    } else if c.value.Some? {
      var content := c.value.value;
      assert FirstContentIs(data, content);
      match content
      case Str(s) =>
        assert FirstContentIs(data, Str(s)) && r == Text(s);
      case Array(items) =>
        var texts := Comprehension(items);
        if texts.Failure? {
          assert r == Text(RaisedText(texts.error));
        } else {
          var strings := AsStrings(texts.value, 0);
          if strings.Failure? {
            assert r == Text(RaisedText(strings.error));
          } else {
            assert FirstContentIs(data, Array(items));
            assert r == Text(Join(NewLine, StrValues(TruthyTexts(items))));
          }
        }
      case _ =>
    }
  }
}
