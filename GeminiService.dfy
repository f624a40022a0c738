/** The service layer between the pages and the hosted model: reading an
    image file into a base64 payload, the analysis call with its
    propagate-every-failure policy, and the chat call with its
    never-throw policy. The model client itself is outside the model: each
    remote call is a function from the request sent to the reply received. */
module GeminiService {
  import opened Js
  import opened Types

  const ModelName := "gemini-3-pro-preview"

  // ---------------------------------------------------------------------
  // Reading a file: the data-URL prefix is cut off at the comma.

  /** The characters of the base64 alphabet of RFC 4648, section 4, with
      the pad character. */
  predicate IsBase64Char(c: char) {
    ('A' <= c <= 'Z') || ('a' <= c <= 'z') || ('0' <= c <= '9') || c == '+' || c == '/' || c == '='
  }

  /** An encoded text in the sense of RFC 4648, section 4: alphabet
      characters, padded to a multiple of four. */
  predicate IsBase64(s: string) {
    |s| % 4 == 0 && forall i :: 0 <= i < |s| ==> IsBase64Char(s[i])
  }

  /** The URL a file reader produces for base64 content, in the
      `data:[<mediatype>];base64,<data>` form of RFC 2397, section 3. */
  function DataUrl(mediaType: string, payload: string): string {
    "data:" + mediaType + ";base64," + payload
  }

  /** The first piece of a split: the text before the first separator. */
  lemma SplitHead(s: string, sep: char)
    ensures IndexOf(s, sep).None? ==> Split(s, sep) == [s]
    ensures IndexOf(s, sep).Some? ==> Split(s, sep)[0] == s[..IndexOf(s, sep).value]
  {
  }

  /** `dataUrl.split(',')[1]`: the text after the first comma, up to the
      next comma if there is one; `None` (undefined) when there is no comma. */
  function StripDataUrlPrefix(dataUrl: string): (payload: Option<string>)
    ensures payload.None? <==> ',' !in dataUrl
    ensures payload.Some? ==>
      var rest := dataUrl[IndexOf(dataUrl, ',').value + 1..];
      ',' !in payload.value && |payload.value| <= |rest| && rest[..|payload.value|] == payload.value
      && (|payload.value| < |rest| ==> rest[|payload.value|] == ',')
      && (',' !in rest ==> payload.value == rest)
  {
    var parts := Split(dataUrl, ',');
    match IndexOf(dataUrl, ',')
    case None => At(parts, 1)
    case Some(i) =>
      var rest := dataUrl[i + 1..];
      SplitHead(rest, ',');
      assert parts[1..] == Split(rest, ',');
      At(parts, 1)
  }

  /** Stripping a well-formed base64 data URL recovers its payload. */
  lemma DataUrlRoundTrip(mediaType: string, payload: string)
    requires ',' !in mediaType
    requires IsBase64(payload)
    ensures StripDataUrlPrefix(DataUrl(mediaType, payload)) == Some(payload)
  {
    var header := "data:" + mediaType + ";base64";
    assert ',' !in header by {
      assert forall i :: 0 <= i < |header| ==>
        header[i] in "data:;base64" || header[i] in mediaType;
    }
    assert DataUrl(mediaType, payload) == header + [','] + payload;
    IndexOfAfterFreePrefix(header, ',', payload);
    assert forall k :: 0 <= k < |payload| ==> payload[k] != ',' by {
      assert forall k :: 0 <= k < |payload| ==> IsBase64Char(payload[k]);
    }
    var url := DataUrl(mediaType, payload);
    assert url[|header| + 1..] == payload;
    assert ',' in url by { assert url[|header|] == ','; }
  }

  /** `fileToGenerativePart`: the reader's outcome (its data URL, or the
      error it rejects with) becomes the payload, or the same error. */
  function FileToGenerativePart(read: Outcome<string>): (r: Outcome<Option<string>>)
    ensures read.Thrown? ==> r == Thrown(read.error)
    ensures read.Returned? ==> r.Returned? && r.value == StripDataUrlPrefix(read.value)
  {
    match read
    case Thrown(e) => Thrown(e)
    case Returned(url) => Returned(StripDataUrlPrefix(url))
  }

  // ---------------------------------------------------------------------
  // The remote model, as seen by this layer.

  /** What a remote call gives back: a response whose text may be absent,
      or an error thrown by the client. */
  datatype Reply = Replied(text: Option<string>) | Failed(error: Error)

  /** A reply text that JavaScript treats as true: present and non-empty. */
  predicate HasText(reply: Reply) {
    reply.Replied? && reply.text.Some? && reply.text.value != ""
  }

  // ---------------------------------------------------------------------
  // Image analysis.

  datatype Part = InlineData(data: Option<string>, mimeType: string) | TextPart(text: string)

  /** The analysis request: the image and the prompt, in that order. The
      instruction text and the response schema are not modelled. */
  datatype AnalysisRequest = AnalysisRequest(model: string, parts: seq<Part>)

  const NoResponseText := "No response text from Gemini"

  function AnalysisRequestFor(image: Option<string>, mimeType: string, prompt: string): AnalysisRequest {
    AnalysisRequest(ModelName, [InlineData(image, mimeType), TextPart(prompt)])
  }

  /** `analyzeAuditImage`: sends the image and the prompt unchanged, and
      returns the parsed reply as it is; every failure reaches the caller. */
  function AnalyzeAuditImage(
    image: Option<string>, mimeType: string, prompt: string,
    generate: AnalysisRequest -> Reply, parseJson: string -> Outcome<AuditResponse>)
    : (r: Outcome<AuditResponse>)
    ensures
      var reply := generate(AnalysisRequestFor(image, mimeType, prompt));
      && (r.Returned? <==> HasText(reply) && parseJson(reply.text.value).Returned?)
      && (r.Returned? ==> r.value == parseJson(reply.text.value).value)
      && (reply.Failed? ==> r == Thrown(reply.error))
      && (reply.Replied? && !HasText(reply) ==> r == Thrown(Error(NoResponseText)))
      && (HasText(reply) && parseJson(reply.text.value).Thrown? ==> r == parseJson(reply.text.value))
  {
    var reply := generate(AnalysisRequestFor(image, mimeType, prompt));
    match reply
    case Failed(e) => Thrown(e)
    case Replied(text) =>
      if text.Some? && text.value != "" then parseJson(text.value)
      else Thrown(Error(NoResponseText))
  }

  /** The reply text of the mocked examples below. */
  const OkReplyText := "{\"answer\":\"ok\",\"items\":[]}"

  /** A reply `{"answer":"ok","items":[]}` gives exactly that response;
      a reply that is not JSON gives the parser's error, not a partial
      response. */
  lemma AnalyzeExamples(
    image: Option<string>, mimeType: string, prompt: string,
    generate: AnalysisRequest -> Reply, parseJson: string -> Outcome<AuditResponse>)
    requires generate(AnalysisRequestFor(image, mimeType, prompt)) == Replied(Some(OkReplyText))
    ensures parseJson(OkReplyText) == Returned(AuditResponse("ok", []))
      ==> AnalyzeAuditImage(image, mimeType, prompt, generate, parseJson)
          == Returned(AuditResponse("ok", []))
    ensures parseJson(OkReplyText).Thrown?
      ==> AnalyzeAuditImage(image, mimeType, prompt, generate, parseJson)
          == Thrown(parseJson(OkReplyText).error)
  {
  }

  // ---------------------------------------------------------------------
  // Chat.

  /** One history turn: a role and its text as a single part. */
  datatype Content = Content(role: Role, parts: seq<string>)

  /** A chat session created from the history, then sent one message. The
      instruction text is not modelled. */
  datatype ChatRequest = ChatRequest(model: string, history: seq<Content>, message: string)

  const NoReplyFallback := "I couldn't generate a response."
  const ChatApology := "Sorry, I encountered an error processing your request."

  /** `sendChatMessage`: never throws. It returns the reply text when there
      is one, a fixed fallback when the reply is empty, and a fixed apology
      when the call fails. */
  function SendChatMessage(history: seq<Content>, newMessage: string, send: ChatRequest -> Reply)
    : (r: Outcome<string>)
    ensures r.Returned? && r.value != ""
    ensures
      var reply := send(ChatRequest(ModelName, history, newMessage));
      && (HasText(reply) ==> r.value == reply.text.value)
      && (reply.Replied? && !HasText(reply) ==> r.value == NoReplyFallback)
      && (reply.Failed? ==> r.value == ChatApology)
  {
    var reply := send(ChatRequest(ModelName, history, newMessage));
    match reply
    case Failed(_) => Returned(ChatApology)
    case Replied(text) =>
      Returned(if text.Some? && text.value != "" then text.value else NoReplyFallback)
  }
}
