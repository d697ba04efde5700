/**
 * The fraud-screening verdict service (services/geminiService.ts).
 *
 * The network call, the client library and `JSON.parse` are not modelled; what
 * they produce for one invocation is an input, a `Transport` outcome. The
 * function then does what the source's single try/catch does: a successful
 * parse is returned as it is, and every failure becomes one fixed `Flagged`
 * verdict.
 */
module GeminiService {
  import opened Wrappers
  import opened Strings

  /** The object `JSON.parse` yields. Nothing checks its shape, so either field may be missing. */
  datatype Reply = Reply(status: Option<string>, reason: Option<string>)

  /** What `JSON.parse` makes of the response text. */
  datatype Parse = Malformed | Parsed(value: Reply)

  /** The outcome of the one transport attempt. */
  datatype Transport =
    | ClientUnavailable                               // constructing the client threw (no API key)
    | CallFailed                                      // `generateContent` rejected
    | Responded(text: Option<string>, parse: Parse)   // `response.text`, and how it parses

  /** The exceptions the `try` block can raise. */
  datatype Failure = NoClient | CallError | NoResponseText | SyntaxError

  /** The request `generateContent` receives. */
  datatype Request = Request(model: string, contents: string, responseMimeType: string)

  const ModelName: string := "gemini-2.5-flash"
  const ResponseMimeType: string := "application/json"

  // The fixed parts of the prompt template; the three fields go between them.
  const PromptHead: string :=
    "\n      You are a senior compliance officer for a commodities trading platform. " +
    "\n      Analyze the following document metadata and context for potential fraud or inconsistencies." +
    "\n      \n      Document Name: "
  const PromptAfterName: string := "\n      Document Type: "
  const PromptAfterType: string := "\n      Context/Extracted Text Summary: "
  const PromptTail: string :=
    "\n      \n      Rules:" +
    "\n      1. Check if the context mentions \"expired\", \"mismatch\", or \"suspicious\"." +
    "\n      2. If it seems valid, return status \"Approved\"." +
    "\n      3. If suspicious, return status \"Flagged\"." +
    "\n      4. Provide a short, professional reason." +
    "\n\n      Return ONLY a JSON object: { \"status\": \"Approved\" | \"Flagged\", \"reason\": \"string\" }" +
    "\n    "

  /** The instruction sent to the model. */
  function Prompt(docName: string, docType: string, context: string): string
  {
    PromptHead + docName + PromptAfterName + docType + PromptAfterType + context + PromptTail
  }

  /**
   * The prompt carries the document name, the type and the context verbatim,
   * in that order, each directly after its label.
   */
  lemma PromptEmbedsFieldsInOrder(docName: string, docType: string, context: string)
    ensures var p := Prompt(docName, docType, context);
            var i := |PromptHead|;
            var j := i + |docName| + |PromptAfterName|;
            var k := j + |docType| + |PromptAfterType|;
            && OccursAt(p, PromptHead, 0)
            && OccursAt(p, docName, i)
            && OccursAt(p, PromptAfterName, i + |docName|)
            && OccursAt(p, docType, j)
            && OccursAt(p, PromptAfterType, j + |docType|)
            && OccursAt(p, context, k)
            && i + |docName| < j && j + |docType| < k
            && OccursAt(p, PromptTail, k + |context|) && |p| == k + |context| + |PromptTail|
  {
    TemplateSlices(PromptHead, docName, PromptAfterName, docType, PromptAfterType, context, PromptTail);
  }

  /** Where each piece of a seven-part concatenation sits. */
  lemma TemplateSlices(h: string, x: string, a: string, y: string, b: string, z: string, t: string)
    ensures var p := h + x + a + y + b + z + t;
            var i := |h|;
            var j := i + |x| + |a|;
            var k := j + |y| + |b|;
            && |p| == k + |z| + |t|
            && p[..i] == h && p[i..i + |x|] == x && p[i + |x|..j] == a
            && p[j..j + |y|] == y && p[j + |y|..k] == b
            && p[k..k + |z|] == z && p[k + |z|..] == t
  {
    var p := h + x + a + y + b + z + t;
    var i := |h|;
    var j := i + |x| + |a|;
    var k := j + |y| + |b|;
    var hx := h + x;
    var upToY := hx + a + y;
    var upToZ := upToY + b + z;
    assert p == upToZ + t;
    assert p[..|upToZ|] == upToZ;
    assert upToZ[..|upToY|] == upToY;
    assert upToY[..|hx|] == hx;
    assert p[..i] == hx[..i] == h;
    assert p[i..i + |x|] == hx[i..] == x;
    assert p[i + |x|..j] == upToY[|hx|..j] == a;
    assert p[j..j + |y|] == upToY[j..] == y;
    assert p[j + |y|..k] == upToZ[|upToY|..k] == b;
    assert p[k..k + |z|] == upToZ[k..] == z;
  }

  /** The requests sent to the model in one invocation. */
  function SentRequests(docName: string, docType: string, context: string, t: Transport): (r: seq<Request>)
    ensures |r| <= 1
    ensures |r| == 1 <==> !t.ClientUnavailable?
    ensures forall q :: q in r ==> q == Request(ModelName, Prompt(docName, docType, context), ResponseMimeType)
  {
    if t.ClientUnavailable? then [] else [Request(ModelName, Prompt(docName, docType, context), ResponseMimeType)]
  }

  /** The body of the `try` block: each step that throws becomes a `Failure`. */
  function Attempt(t: Transport): Result<Reply, Failure>
  {
    match t
    case ClientUnavailable => Failure(NoClient)
    case CallFailed => Failure(CallError)
    case Responded(text, parse) =>
      if text == None || text == Some("") then Failure(NoResponseText)
      else
        match parse
        case Malformed => Failure(SyntaxError)
        case Parsed(v) => Success(v)
  }

  const FallbackReason: string := "AI Service unavailable for automated check. Manual review required."

  /** The verdict returned whenever the `try` block throws. */
  const Fallback: Reply := Reply(Some("Flagged"), Some(FallbackReason))

  /** `analyzeDocumentForFraud`: the parsed reply, or the fallback on any exception. */
  function AnalyzeDocumentForFraud(docName: string, docType: string, context: string, t: Transport): Reply
  {
    match Attempt(t)
    case Success(v) => v
    case Failure(_) => Fallback
  }

  /** A successful transport outcome: non-empty response text that parses. */
  predicate Delivered(t: Transport)
  {
    t.Responded? && t.text.Some? && t.text.value != "" && t.parse.Parsed?
  }

  /** Every failure (no client, failed call, missing or empty text, malformed JSON) gives the fallback. */
  lemma FailuresFallBackClosed(docName: string, docType: string, context: string, t: Transport)
    requires !Delivered(t)
    ensures AnalyzeDocumentForFraud(docName, docType, context, t) == Fallback
    ensures Attempt(t).Failure?
  {
  }

  /** Absent or empty response text is a failure, whatever the parser would have said. */
  lemma EmptyTextFallsBack(docName: string, docType: string, context: string, text: Option<string>, parse: Parse)
    requires text == None || text == Some("")
    ensures AnalyzeDocumentForFraud(docName, docType, context, Responded(text, parse)) == Fallback
  {
  }

  /** A successful parse is returned unchanged; its `status` is not checked. */
  lemma DeliveredReplyIsVerbatim(docName: string, docType: string, context: string, t: Transport)
    requires Delivered(t)
    ensures AnalyzeDocumentForFraud(docName, docType, context, t) == t.parse.value
  {
  }

  /** Fail closed: the verdict says `Approved` only if the model itself replied `Approved`. */
  lemma ApprovedOnlyFromModel(docName: string, docType: string, context: string, t: Transport)
    ensures AnalyzeDocumentForFraud(docName, docType, context, t).status == Some("Approved")
            <==> Delivered(t) && t.parse.value.status == Some("Approved")
  {
  }
}
