/** What `process_chat` does around the language-model call: it builds the
  * prompt line from the user id and language, then turns the model's raw
  * output into a reply and its metadata. A reply may be fenced as a
  * markdown code block, may be JSON, and may hold JSON again inside its
  * "reply" field. The model call is the `output` parameter (None when the
  * call raised), `json.loads` is the `parse` parameter (None when it raises a
  * decode error), and the elapsed time is passed in. */
module Agent {
  import opened Wrappers
  import opened Text
  import opened Json
  import opened Models
  import opened Classifier

  const ErrorReply: string := "I'm sorry, I encountered an error processing your request. Please try again."

  /** The metadata used when the model gives none. */
  function DefaultMetadata(): JsonObject {
    map["role" := JStr("assistant"), "sender" := JStr("assistant"), "store" := JBool(true)]
  }

  /** The metadata of the error response: not to be stored. */
  function ErrorMetadata(): JsonObject {
    map["role" := JStr("assistant"), "sender" := JStr("assistant"), "store" := JBool(false)]
  }

  datatype Analysis = Analysis(
    messageLevel: string,
    category: string,
    responseTimeMs: real,
    tokensEstimated: nat,
    language: string,
    userId: Option<string>,
    store: Json,
    failed: bool)

  datatype ChatResponse = ChatResponse(
    reply: string,
    metadata: JsonObject,
    conversationId: Option<string>,
    analysis: Analysis)

  // ------------------------------------------------------------ the prompt

  /** The user-id context line, empty without a usable user id. */
  function ContextMessage(userId: Option<string>): (r: string)
    ensures r == "" <==> !Truthy(userId)
  {
    if Truthy(userId) then "[CONTEXT: User ID is " + userId.value + ". Use this automatically for tools without asking.]"
    else ""
  }

  /** Bangla for "BN", English for every other language code. */
  function LanguageInstruction(language: string): (r: string)
    ensures language == "BN" ==> r == "[LANGUAGE: Respond in Bangla]"
    ensures language != "BN" ==> r == "[LANGUAGE: Respond in English]"
  {
    "[LANGUAGE: Respond in " + (if language == "BN" then "Bangla" else "English") + "]"
  }

  /** The text sent to the model: context, language instruction and the
    * user's message, separated by single spaces (so it starts with a space
    * when there is no context). */
  function EnhancedMessage(message: string, userId: Option<string>, language: string): (r: string)
    ensures EndsWith(r, " " + message)
    ensures StartsWith(r, ContextMessage(userId) + " " + LanguageInstruction(language) + " ")
    ensures !Truthy(userId) ==> r[0] == ' '
  {
    var head := ContextMessage(userId) + " " + LanguageInstruction(language);
    var r := head + (" " + message);
    EndsWithConcat(head, " " + message);
    StartsWithConcat(head + " ", message);
    assert r == (head + " ") + message;
    r
  }

  // -------------------------------------------------------- the raw output

  /** A leading "```json" or, failing that, "```" removed. */
  function Unfence(t: string): string {
    if StartsWith(t, "```json") then t[7..] else if StartsWith(t, "```") then t[3..] else t
  }

  /** A trailing "```" removed. */
  function Unclose(t: string): string {
    if EndsWith(t, "```") then t[..|t| - 3] else t
  }

  /** The text handed to the JSON parser: stripped, with a leading
    * "```json" or "```" and a trailing "```" removed, stripped again. */
  function StripFences(raw: string): (r: string)
    ensures NoOuterSpace(r)
  {
    StripShape(Unclose(Unfence(Strip(raw))));
    Strip(Unclose(Unfence(Strip(raw))))
  }

  /** A reply that is itself a JSON object text with a "reply" key is
    * replaced by that value; anything else the inner parse gives, or a
    * failed inner parse, leaves the reply alone. */
  function UnwrapReply(reply: Json, parse: string -> Option<Json>): (r: Json)
    ensures !reply.JStr? ==> r == reply
    ensures reply.JStr? && !StartsWith(Strip(reply.s), "{") ==> r == reply
  {
    match reply
    case JStr(s) =>
      if StartsWith(Strip(s), "{") then
        match parse(s)
        case Some(JObj(inner)) => if "reply" in inner then inner["reply"] else reply
        case _ => reply
      else reply
    case _ => reply
  }

  /** The reply and metadata found in the raw output, before their types are
    * checked. Plain text and text the parser rejects become the reply as it
    * was received, with the default metadata; a parsed value other than an
    * object is an error (it has no `get`). */
  datatype Parsed = Parsed(reply: Json, metadata: Json)

  /** The reading of the stripped text `text` of the raw output `raw`. */
  function ParseText(raw: string, text: string, parse: string -> Option<Json>): (r: Result<Parsed, string>)
    ensures !StartsWith(text, "{") ==> r == Ok(Parsed(JStr(raw), JObj(DefaultMetadata())))
    ensures StartsWith(text, "{") && parse(text).None? ==> r == Ok(Parsed(JStr(raw), JObj(DefaultMetadata())))
    ensures r.Err? <==> StartsWith(text, "{") && parse(text).Some? && !parse(text).value.JObj?
  {
    if !StartsWith(text, "{") then Ok(Parsed(JStr(raw), JObj(DefaultMetadata())))
    else
      match parse(text)
      case None => Ok(Parsed(JStr(raw), JObj(DefaultMetadata())))
      case Some(JObj(fields)) =>
        Ok(Parsed(UnwrapReply(Get(fields, "reply", JStr(raw)), parse), Get(fields, "metadata", JObj(DefaultMetadata()))))
      case Some(_) => Err("parsed output is not an object")
  }

  function ParseOutput(raw: string, parse: string -> Option<Json>): (r: Result<Parsed, string>)
    ensures !StartsWith(StripFences(raw), "{") ==> r == Ok(Parsed(JStr(raw), JObj(DefaultMetadata())))
    ensures StartsWith(StripFences(raw), "{") && parse(StripFences(raw)).None? ==>
      r == Ok(Parsed(JStr(raw), JObj(DefaultMetadata())))
    ensures r.Err? <==> StartsWith(StripFences(raw), "{") && parse(StripFences(raw)).Some? &&
                        !parse(StripFences(raw)).value.JObj?
  {
    ParseText(raw, StripFences(raw), parse)
  }

  // --------------------------------------------------------- process_chat

  /** A usable reply: its text and its metadata object. */
  datatype Reply = Reply(text: string, metadata: JsonObject)

  /** What the raw output comes to: a string reply with object metadata, or
    * None when the call to the model, the parse, or the type of the reply
    * or of the metadata fails. */
  function Outcome(output: Option<string>, parse: string -> Option<Json>): (r: Option<Reply>)
    ensures output.None? ==> r.None?
  {
    match output
    case None => None
    case Some(raw) =>
      match ParseOutput(raw, parse)
      case Err(_) => None
      case Ok(p) =>
        if p.reply.JStr? && p.metadata.JObj? then Some(Reply(p.reply.s, p.metadata.fields)) else None
  }

  /** The response when anything after the call to the model fails. */
  function ErrorResponse(conversationId: Option<string>, userId: Option<string>, language: string, elapsedMs: real): (r: ChatResponse)
    ensures r.reply == ErrorReply && r.metadata == ErrorMetadata() && r.analysis.failed
    ensures r.analysis.messageLevel == "critical" && r.analysis.category == "error"
    ensures r.analysis.tokensEstimated == 0 && r.analysis.store == JBool(false)
  {
    ChatResponse(ErrorReply, ErrorMetadata(), conversationId,
                 Analysis("critical", "error", elapsedMs, 0, language, userId, JBool(false), true))
  }

  /** `process_chat`: a usable reply is returned with the message's level
    * and category, a word-count token estimate and the metadata's store
    * flag (true when absent); otherwise the error response. */
  function ProcessChat(message: string, conversationId: Option<string>, userId: Option<string>, language: string,
                       output: Option<string>, parse: string -> Option<Json>, elapsedMs: real): (r: ChatResponse)
    ensures r.conversationId == conversationId && r.analysis.language == language && r.analysis.userId == userId
    ensures r.analysis.failed <==> Outcome(output, parse).None?
    ensures r.analysis.failed ==> r == ErrorResponse(conversationId, userId, language, elapsedMs)
    ensures !r.analysis.failed ==>
      r.reply == Outcome(output, parse).value.text &&
      r.metadata == Outcome(output, parse).value.metadata &&
      r.analysis.messageLevel == ClassifyLevel(message) &&
      r.analysis.category == DetectCategory(message) &&
      r.analysis.tokensEstimated == |Words(message)| + |Words(r.reply)| &&
      r.analysis.store == Get(r.metadata, "store", JBool(true))
  {
    match Outcome(output, parse)
    case None => ErrorResponse(conversationId, userId, language, elapsedMs)
    case Some(rep) =>
      ChatResponse(rep.text, rep.metadata, conversationId,
                   Analysis(ClassifyLevel(message), DetectCategory(message), elapsedMs,
                            |Words(message)| + |Words(rep.text)|, language, userId,
                            Get(rep.metadata, "store", JBool(true)), false))
  }

  // ------------------------------------------------------------ properties

  /** Output that is not JSON is kept as it came, unstripped, with the
    * default metadata, and so stored. */
  lemma PlainTextKept(raw: string, parse: string -> Option<Json>)
    requires !StartsWith(StripFences(raw), "{") || parse(StripFences(raw)).None?
    ensures Outcome(Some(raw), parse) == Some(Reply(raw, DefaultMetadata()))
    ensures Get(DefaultMetadata(), "store", JBool(true)) == JBool(true)
  {
  }

  /** A stripped JSON text whose last character is not a backtick. */
  predicate JsonText(j: string) {
    NoOuterSpace(j) && StartsWith(j, "{") && !EndsWith(j, "```")
  }

  /** A bare JSON text reaches the parser unchanged. */
  lemma BareJson(j: string)
    requires JsonText(j)
    ensures StripFences(j) == j
  {
    assert Strip(j) == j by {
      StripSurrounded("", j, "");
      assert "" + j + "" == j;
    }
    assert Unfence(j) == j by {
      assert j[0] == '{';
      assert !StartsWith(j, "```json") && !StartsWith(j, "```");
    }
    assert Unclose(j) == j;
  }

  /** An opening fence is recognised and removed; after a bare "```" the
    * text must not continue with "json". */
  lemma UnfenceOpening(opening: string, rest: string)
    requires opening == "```json" || (opening == "```" && rest != [] && rest[0] == '\n')
    ensures Unfence(opening + rest) == rest
  {
    StartsWithConcat(opening, rest);
    if opening == "```" {
      var f := opening + rest;
      assert f[3] == '\n';
      assert !StartsWith(f, "```json") by { assert "```json"[3] == 'j'; }
    }
  }

  /** Wrapping a JSON text in a "```json" or a bare "```" fence, each on its
    * own line, hands the parser exactly the text it would get bare. */
  lemma FenceRoundTrip(opening: string, j: string)
    requires JsonText(j) && (opening == "```json" || opening == "```")
    ensures StripFences(opening + (("\n" + j + "\n") + "```")) == j
    ensures StripFences(opening + (("\n" + j + "\n") + "```")) == StripFences(j)
  {
    var rest := ("\n" + j + "\n") + "```";
    assert opening[0] == '`' && rest[|rest| - 1] == '`';
    FencedUnstripped(opening, rest);
    UnfenceOpening(opening, rest);
    ClosedBody(j);
    BareJson(j);
  }

  /** A fenced text has no outer whitespace for `strip` to remove. */
  lemma FencedUnstripped(opening: string, rest: string)
    requires opening != [] && opening[0] == '`'
    requires rest != [] && rest[|rest| - 1] == '`'
    ensures Strip(opening + rest) == opening + rest
  {
    var f := opening + rest;
    assert f[0] == '`' && f[|f| - 1] == '`';
    StripClean(f);
  }

  /** The closing fence and the newlines around the JSON text go. */
  lemma ClosedBody(j: string)
    requires NoOuterSpace(j)
    ensures Strip(Unclose(("\n" + j + "\n") + "```")) == j
  {
    var body := "\n" + j + "\n";
    EndsWithConcat(body, "```");
    StripSurrounded("\n", j, "\n");
  }

  /** The answer shape the prompt asks for: a string reply that is not
    * itself JSON and object metadata come back as they are, whatever other
    * keys the object has. */
  lemma WellFormedAnswer(raw: string, parse: string -> Option<Json>, fields: JsonObject, reply: string, meta: JsonObject)
    requires StartsWith(StripFences(raw), "{") && parse(StripFences(raw)) == Some(JObj(fields))
    requires "reply" in fields && fields["reply"] == JStr(reply) && !StartsWith(Strip(reply), "{")
    requires "metadata" in fields && fields["metadata"] == JObj(meta)
    ensures Outcome(Some(raw), parse) == Some(Reply(reply, meta))
  {
    WellFormedText(raw, StripFences(raw), parse, fields, reply, meta);
  }

  lemma WellFormedText(raw: string, text: string, parse: string -> Option<Json>, fields: JsonObject, reply: string, meta: JsonObject)
    requires StartsWith(text, "{") && parse(text) == Some(JObj(fields))
    requires "reply" in fields && fields["reply"] == JStr(reply) && !StartsWith(Strip(reply), "{")
    requires "metadata" in fields && fields["metadata"] == JObj(meta)
    ensures ParseText(raw, text, parse) == Ok(Parsed(JStr(reply), JObj(meta)))
  {
    assert UnwrapReply(JStr(reply), parse) == JStr(reply);
  }

  /** A reply that is JSON text with its own "reply" string is replaced by
    * that inner string. */
  lemma DoubleEncodedReply(raw: string, parse: string -> Option<Json>, fields: JsonObject, outer: string,
                           innerFields: JsonObject, inner: string, meta: JsonObject)
    requires StartsWith(StripFences(raw), "{") && parse(StripFences(raw)) == Some(JObj(fields))
    requires "reply" in fields && fields["reply"] == JStr(outer) && StartsWith(Strip(outer), "{")
    requires "metadata" in fields && fields["metadata"] == JObj(meta)
    requires parse(outer) == Some(JObj(innerFields)) && "reply" in innerFields && innerFields["reply"] == JStr(inner)
    ensures Outcome(Some(raw), parse) == Some(Reply(inner, meta))
  {
    DoubleEncodedText(raw, StripFences(raw), parse, fields, outer, innerFields, inner, meta);
  }

  lemma DoubleEncodedText(raw: string, text: string, parse: string -> Option<Json>, fields: JsonObject, outer: string,
                          innerFields: JsonObject, inner: string, meta: JsonObject)
    requires StartsWith(text, "{") && parse(text) == Some(JObj(fields))
    requires "reply" in fields && fields["reply"] == JStr(outer) && StartsWith(Strip(outer), "{")
    requires "metadata" in fields && fields["metadata"] == JObj(meta)
    requires parse(outer) == Some(JObj(innerFields)) && "reply" in innerFields && innerFields["reply"] == JStr(inner)
    ensures ParseText(raw, text, parse) == Ok(Parsed(JStr(inner), JObj(meta)))
  {
    assert UnwrapReply(JStr(outer), parse) == JStr(inner);
  }

  /** A JSON answer with neither key falls back to the whole raw output as
    * the reply, with the default metadata. The fallback reply is then
    * itself checked for double encoding: a fenced output does not start
    * with "{", and a bare one parses again to the same object, which has no
    * "reply". */
  lemma MissingReplyKey(raw: string, parse: string -> Option<Json>, fields: JsonObject)
    requires StartsWith(StripFences(raw), "{") && parse(StripFences(raw)) == Some(JObj(fields))
    requires "reply" !in fields && "metadata" !in fields
    requires !StartsWith(Strip(raw), "{") || parse(raw) == parse(StripFences(raw))
    ensures Outcome(Some(raw), parse) == Some(Reply(raw, DefaultMetadata()))
  {
    MissingReplyText(raw, StripFences(raw), parse, fields);
  }

  lemma MissingReplyText(raw: string, text: string, parse: string -> Option<Json>, fields: JsonObject)
    requires StartsWith(text, "{") && parse(text) == Some(JObj(fields))
    requires "reply" !in fields && "metadata" !in fields
    requires !StartsWith(Strip(raw), "{") || parse(raw) == parse(text)
    ensures ParseText(raw, text, parse) == Ok(Parsed(JStr(raw), JObj(DefaultMetadata())))
  {
    assert UnwrapReply(JStr(raw), parse) == JStr(raw);
  }

  /** The commonest fallback: bare JSON text without a "reply" key is kept
    * whole as the reply, with the default metadata. */
  lemma MissingReplyBare(j: string, parse: string -> Option<Json>, fields: JsonObject)
    requires JsonText(j) && parse(j) == Some(JObj(fields))
    requires "reply" !in fields && "metadata" !in fields
    ensures Outcome(Some(j), parse) == Some(Reply(j, DefaultMetadata()))
  {
    BareJson(j);
    MissingReplyKey(j, parse, fields);
  }

  /** A reply that is not a string (a number, say) or metadata that is not an
    * object makes the turn fail although the output parsed. */
  lemma WrongTypesFail(raw: string, parse: string -> Option<Json>, fields: JsonObject)
    requires StartsWith(StripFences(raw), "{") && parse(StripFences(raw)) == Some(JObj(fields))
    requires ("reply" in fields && !fields["reply"].JStr?) || ("metadata" in fields && !fields["metadata"].JObj?)
    ensures Outcome(Some(raw), parse).None?
  {
    WrongTypesText(raw, StripFences(raw), parse, fields);
    assert ParseOutput(raw, parse) == ParseText(raw, StripFences(raw), parse);
  }

  lemma WrongTypesText(raw: string, text: string, parse: string -> Option<Json>, fields: JsonObject)
    requires StartsWith(text, "{") && parse(text) == Some(JObj(fields))
    requires ("reply" in fields && !fields["reply"].JStr?) || ("metadata" in fields && !fields["metadata"].JObj?)
    ensures ParseText(raw, text, parse).Ok?
    ensures !ParseText(raw, text, parse).value.reply.JStr? || !ParseText(raw, text, parse).value.metadata.JObj?
  {
  }
}
