/**
 * The request body `send_request` builds from the conversation history:
 * one wire message per turn, same role, with an ordered list of typed
 * parts, plus the model name and the token limit.
 */
module PayloadBuilder {

  /**
   * A turn's `content`: either a plain string, or a dictionary such as
   * `{"text": ..., "image_base64": ...}` (or `{"audio_base64": ...}`).
   */
  datatype Content = Scalar(text: string) | Fields(entries: map<string, string>)

  datatype Turn = Turn(role: string, content: Content)

  /** `{"type": "text", "text": ...}` or `{"type": "image_url", "image_url": {"url": ...}}`. */
  datatype Part = TextPart(text: string) | ImagePart(url: string)

  datatype WireMessage = WireMessage(role: string, content: seq<Part>)

  datatype Payload = Payload(model: string, messages: seq<WireMessage>, maxTokens: int)

  const DefaultMaxTokens: int := 1500
  const TextKey: string := "text"
  const ImageKey: string := "image_base64"
  const ImageUrlPrefix: string := "data:image/png;base64,"

  /** The dictionary holds the key with a truthy (non-empty) value. */
  predicate HasEntry(m: map<string, string>, key: string) {
    key in m && m[key] != ""
  }

  /**
   * The parts one turn's content contributes. A plain string gives exactly
   * one text part, even when empty. A dictionary gives a text part exactly
   * when it has a non-empty "text", an image part exactly when it has a
   * non-empty "image_base64", the text part first, and nothing for any
   * other key.
   */
  function PartsOf(c: Content): (parts: seq<Part>)
    ensures c.Scalar? ==> parts == [TextPart(c.text)]
    ensures c.Fields? ==> forall k :: 0 <= k < |parts| ==>
      (HasEntry(c.entries, TextKey) && parts[k] == TextPart(c.entries[TextKey])) ||
      (HasEntry(c.entries, ImageKey) && parts[k] == ImagePart(ImageUrlPrefix + c.entries[ImageKey]))
    ensures c.Fields? && HasEntry(c.entries, TextKey) ==> TextPart(c.entries[TextKey]) in parts
    ensures c.Fields? && HasEntry(c.entries, ImageKey) ==>
      ImagePart(ImageUrlPrefix + c.entries[ImageKey]) in parts
    ensures forall i, j :: 0 <= i < j < |parts| ==> parts[i].TextPart? && parts[j].ImagePart?
  {
    match c
    case Scalar(t) => [TextPart(t)]
    case Fields(m) =>
      (if HasEntry(m, TextKey) then [TextPart(m[TextKey])] else []) +
      (if HasEntry(m, ImageKey) then [ImagePart(ImageUrlPrefix + m[ImageKey])] else [])
  }

  /** Keys other than "text" and "image_base64" never influence the parts. */
  lemma OtherKeysIgnored(m1: map<string, string>, m2: map<string, string>)
    requires forall key :: key in {TextKey, ImageKey} ==>
      (key in m1 <==> key in m2) && (key in m1 ==> m1[key] == m2[key])
    ensures PartsOf(Fields(m1)) == PartsOf(Fields(m2))
  {
    assert TextKey in {TextKey, ImageKey} && ImageKey in {TextKey, ImageKey};
  }

  /** A recorded voice message (`{"audio_base64": ...}`) goes out with no parts at all. */
  lemma AudioOnlyTurnHasNoParts(audio: string)
    ensures PartsOf(Fields(map["audio_base64" := audio])) == []
  {
    var m := map["audio_base64" := audio];
    assert TextKey !in m && ImageKey !in m;
  }

  /** The image data a part's URL carries, with the data-URI prefix removed. */
  function ImageData(url: string): (data: string)
    ensures |url| >= |ImageUrlPrefix| && url[..|ImageUrlPrefix|] == ImageUrlPrefix ==>
      url == ImageUrlPrefix + data
  {
    if |url| >= |ImageUrlPrefix| && url[..|ImageUrlPrefix|] == ImageUrlPrefix
    then url[|ImageUrlPrefix|..]
    else url
  }

  /** Reads a list of wire parts back into content fields. */
  function RecoverEntries(parts: seq<Part>): map<string, string> {
    if parts == [] then map[]
    else
      var rest := RecoverEntries(parts[1..]);
      match parts[0]
      case TextPart(t) => rest[TextKey := t]
      case ImagePart(u) => rest[ImageKey := ImageData(u)]
  }

  /** The fields of a dictionary content that survive onto the wire. */
  function Kept(m: map<string, string>): map<string, string> {
    map key | key in m && key in {TextKey, ImageKey} && m[key] != "" :: m[key]
  }

  /**
   * Building the parts loses no text and no image data: reading them back
   * gives the string of a plain turn, and the non-empty "text" and
   * "image_base64" fields of a dictionary turn.
   */
  lemma {:induction false} PartsRoundTrip(c: Content)
    ensures RecoverEntries(PartsOf(c)) ==
      match c
      case Scalar(t) => map[TextKey := t]
      case Fields(m) => Kept(m)
  {
    var parts := PartsOf(c);
    match c
    case Scalar(t) =>
      assert RecoverEntries(parts[1..]) == map[];
    case Fields(m) =>
      var img: seq<Part> := if HasEntry(m, ImageKey) then [ImagePart(ImageUrlPrefix + m[ImageKey])] else [];
      var withImage := RecoverEntries(img);
      if HasEntry(m, ImageKey) {
        assert img[1..] == [] && RecoverEntries(img[1..]) == map[];
        assert (ImageUrlPrefix + m[ImageKey])[..|ImageUrlPrefix|] == ImageUrlPrefix;
        assert ImageData(ImageUrlPrefix + m[ImageKey]) == m[ImageKey];
        assert withImage == map[ImageKey := m[ImageKey]];
      } else {
        assert withImage == map[];
      }
      if HasEntry(m, TextKey) {
        assert parts[1..] == img;
        assert RecoverEntries(parts) == withImage[TextKey := m[TextKey]];
      } else {
        assert parts == img;
      }
      assert RecoverEntries(parts).Keys == Kept(m).Keys;
  }

  /** The wire form of one turn. */
  function WireOf(turn: Turn): (w: WireMessage)
    ensures w.role == turn.role
  {
    WireMessage(turn.role, PartsOf(turn.content))
  }

  /**
   * The loop of `app/api_client.py` lines 17-41: one wire message per turn, in order, each
   * with the turn's role and the parts its content contributes.
   */
  method BuildMessages(history: seq<Turn>) returns (messages: seq<WireMessage>)
    ensures |messages| == |history|
    ensures forall i :: 0 <= i < |history| ==>
      messages[i].role == history[i].role && messages[i].content == PartsOf(history[i].content)
  {
    messages := [];
    for i := 0 to |history|
      invariant |messages| == i
      invariant forall k :: 0 <= k < i ==>
        messages[k].role == history[k].role && messages[k].content == PartsOf(history[k].content)
    {
      var turn := history[i];
      var content: seq<Part> := [];
      match turn.content {
        case Fields(m) =>
          if TextKey in m && m[TextKey] != "" {
            content := content + [TextPart(m[TextKey])];
          }
          if ImageKey in m && m[ImageKey] != "" {
            content := content + [ImagePart(ImageUrlPrefix + m[ImageKey])];
          }
        case Scalar(t) =>
          content := content + [TextPart(t)];
      }
      messages := messages + [WireMessage(turn.role, content)];
    }
  }

  /**
   * `app/api_client.py` lines 17-47: the request body, with `model` and `max_tokens` passed
   * through as given (no range check on the token limit).
   */
  method BuildPayload(modelName: string, history: seq<Turn>, maxTokens: int) returns (payload: Payload)
    ensures payload.model == modelName
    ensures payload.maxTokens == maxTokens
    ensures |payload.messages| == |history|
    ensures forall i :: 0 <= i < |history| ==> payload.messages[i] == WireOf(history[i])
  {
    var messages := BuildMessages(history);
    payload := Payload(modelName, messages, maxTokens);
  }
}
