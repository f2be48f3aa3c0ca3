/** The `/webhook` handler of index.js: the signature gate, the extraction of
    the chat message from the body, the ordered cascade that decides what to
    do with it, and, for an incoming message on a lead, the prompt sent for
    analysis and the note written back to the CRM. The HTTP exchanges the
    handler awaits are abstracted as their outcomes (`World`), and the reply
    together with the sequence of external calls it makes is the result. */
module Webhook {
  import opened JsText
  import opened OutgoingLog
  import opened ChatHistory

  /** The parsed request body: its top-level form fields, and `message.add`
      when the body has a nested `message` object with an `add` array. */
  datatype Body = Body(form: JsObject, messageAdd: Option<seq<JsObject>>)

  /** The `x-signature` header and the body. */
  datatype Request = Request(signature: Option<string>, body: Body)

  /** KOMMO_SECRET, KOMMO_DOMAIN and KOMMO_TOKEN. */
  datatype Config = Config(secret: Option<string>, domain: string, token: string)

  /** `result.keywords`: an array, or anything else. */
  datatype Keywords = NotAnArray | KeywordList(items: seq<string>)

  /** The analysis service's answer; a field it leaves out is undefined. */
  datatype AnalysisResult = AnalysisResult(
    language: Option<string>,
    keywords: Keywords,
    analysis: Option<string>,
    reply: Option<string>,
    salesRecommendation: Option<string>)

  /** What `await analyzeMessage(prompt)` came to: it threw, or it resolved to
      `res.data`, which is None when that is null or undefined. */
  datatype Analysis = AnalysisFailed | Analysed(result: Option<AnalysisResult>)

  /** The body and headers of the legacy note/add POST. */
  datatype NoteRequest = NoteRequest(
    url: string,
    authorization: string,
    noteType: string,
    elementType: string,
    elementId: string,
    text: string)

  /** The collaborators of the handler. `digest(secret, body)` is the hex
      HMAC-SHA1 of the re-serialised body; `postNote(n)` is false when the
      POST throws; `now` is the clock in milliseconds. */
  datatype World = World(
    digest: (string, Body) -> string,
    fetchHistory: Query -> Fetch,
    analyze: string -> Analysis,
    postNote: NoteRequest -> bool,
    now: nat)

  /** Where the decision cascade ends. */
  datatype Outcome =
    | Forbidden
    | NoValidMessage
    | OutgoingLogged(record: LogRecord)
    | NotIncoming
    | Invalid
    | Analyze(entityId: string, prompt: string)

  /** An external call the handler makes, in the order it makes them. */
  datatype Effect =
    | LoggedOutgoing(record: LogRecord)
    | FetchedHistory(query: Query)
    | CalledAnalysis(prompt: string)
    | PostedNote(note: NoteRequest)

  datatype Reply = Reply(status: nat, text: string)

  datatype Exchange = Exchange(reply: Reply, effects: seq<Effect>)

  // Signature gate

  /** The request is refused only when both a signature and a secret are
      present and the digest differs from the signature. */
  predicate SignatureRejects(signature: Option<string>, secret: Option<string>, digest: (string, Body) -> string, body: Body) {
    Truthy(signature) && Truthy(secret) && digest(secret.value, body) != signature.value
  }

  // Message extraction

  const MessageFields: set<string> := {"text", "type", "entity_id", "entity_type"}

  function FlatKey(field: string): string {
    "message[add][0][" + field + "]"
  }

  /** The message object built from the flat form keys: exactly the four
      message fields, each the flat key's value where that key is present. */
  function FlatMessage(form: JsObject): (m: JsObject)
    ensures m.Keys <= MessageFields
    ensures forall f :: f in MessageFields ==> Lookup(m, f) == Lookup(form, FlatKey(f))
  {
    map f | f in MessageFields && FlatKey(f) in form :: form[FlatKey(f)]
  }

  /** `body['message[add][0][text]'] ? {…flat keys…} : body.message?.add?.[0]`. */
  function Extract(body: Body): Option<JsObject> {
    if Truthy(Lookup(body.form, FlatKey("text"))) then Some(FlatMessage(body.form))
    else if body.messageAdd.Some? && |body.messageAdd.value| > 0 then Some(body.messageAdd.value[0])
    else None
  }

  // Classification

  const Lead := "lead"

  /** `"Контекст переписки:\n" + history + "\n\nНовое сообщение клиента: " + text`. */
  const PromptHead := "Контекст переписки:\n"
  const PromptJoint := "\n\nНовое сообщение клиента: "

  /** The prompt: the context header, the history right after it, and the
      client's new text at the very end. */
  function Prompt(history: string, text: string): (p: string)
    ensures |p| == |PromptHead| + |history| + |PromptJoint| + |text|
    ensures p[..|PromptHead|] == PromptHead
    ensures p[|PromptHead|..|PromptHead| + |history|] == history
    ensures p[|PromptHead| + |history|..|p| - |text|] == PromptJoint
    ensures p[|p| - |text|..] == text
  {
    PromptHead + history + PromptJoint + text
  }

  /** The early-return cascade of index.js on the extracted message, up to the
      prompt sent for analysis. */
  function Classify(msg: Option<JsObject>, cfg: Config, world: World): Outcome {
    if msg.None? || !Truthy(Lookup(msg.value, "text")) || !Truthy(Lookup(msg.value, "type")) then NoValidMessage
    else
      var m := msg.value;
      if m["type"] == "outgoing" then OutgoingLogged(RecordOf(m, world.now))
      else if m["type"] != "incoming" then NotIncoming
      else if !Truthy(Lookup(m, "text")) || !Truthy(Lookup(m, "entity_id")) || Lookup(m, "entity_type") != Some(Lead) then Invalid
      else
        var id := m["entity_id"];
        Analyze(id, Prompt(GetChatHistory(world.fetchHistory, cfg.domain, cfg.token, id, None), m["text"]))
  }

  /** The decision made for a request up to the analysis call; for an eligible
      message it includes the awaited history fetch the prompt is built from. */
  function Gate(req: Request, cfg: Config, world: World): Outcome {
    if SignatureRejects(req.signature, cfg.secret, world.digest, req.body) then Forbidden
    else Classify(Extract(req.body), cfg, world)
  }

  /** The messages that may be analysed, stated independently of the cascade:
      an incoming message with text, on a lead, with a non-empty id. */
  predicate Eligible(msg: Option<JsObject>) {
    msg.Some?
    && Truthy(Lookup(msg.value, "text"))
    && Lookup(msg.value, "type") == Some("incoming")
    && Truthy(Lookup(msg.value, "entity_id"))
    && Lookup(msg.value, "entity_type") == Some(Lead)
  }

  // Note text

  const NoteHeader := "🤖 *AI-анализ переписки:*"
  const LanguageLabel := "• 🌐 Язык: "
  const KeywordsLabel := "• 🧩 Ключевые параметры: "
  const AnalysisLabel := "• 📊 Анализ: "
  const ReplyLabel := "• 💬 Ответ: "
  const RecommendationLabel := "• 📈 Рекомендация: "

  /** `Array.isArray(k) ? k.join(', ') : '-'`. */
  function KeywordText(k: Keywords): string {
    match k
    case NotAnArray => "-"
    case KeywordList(items) => Join(", ", items)
  }

  /** The note's lines as the template writes them, before trimming. */
  function NoteBody(r: AnalysisResult): string {
    NoteHeader + NoteDetails(r)
  }

  /** The lines after the header, each on its own line. */
  function NoteDetails(r: AnalysisResult): string {
    "\n" + LanguageLabel + Show(r.language)
    + "\n" + KeywordsLabel + KeywordText(r.keywords)
    + "\n" + AnalysisLabel + Show(r.analysis)
    + "\n" + ReplyLabel + Show(r.reply)
    + "\n" + RecommendationLabel + Show(r.salesRecommendation)
  }

  /** The note's template literal in index.js, trimmed. */
  function NoteText(r: AnalysisResult): string {
    Trim("\n" + NoteBody(r) + "\n    ")
  }

  function NoteFor(cfg: Config, entityId: string, r: AnalysisResult): NoteRequest {
    NoteRequest("https://" + cfg.domain + "/private/api/v2/json/leads/note/add", cfg.token, "4", "2", entityId, NoteText(r))
  }

  // The handler

  const ServerError := Reply(500, "Internal Server Error")

  /** The reply the handler sends and the external calls it makes. */
  function Handle(req: Request, cfg: Config, world: World): Exchange {
    match Gate(req, cfg, world)
    case Forbidden => Exchange(Reply(403, "Invalid signature"), [])
    case NoValidMessage => Exchange(Reply(200, "No valid message"), [])
    case OutgoingLogged(record) => Exchange(Reply(200, "Outgoing logged"), [LoggedOutgoing(record)])
    case NotIncoming => Exchange(Reply(200, "Not incoming"), [])
    case Invalid => Exchange(Reply(200, "Invalid"), [])
    case Analyze(id, prompt) =>
      var asked := [FetchedHistory(QueryFor(cfg.domain, cfg.token, id, None)), CalledAnalysis(prompt)];
      match world.analyze(prompt)
      case AnalysisFailed => Exchange(ServerError, asked)
      case Analysed(None) => Exchange(ServerError, asked)
      case Analysed(Some(result)) =>
        var note := NoteFor(cfg, id, result);
        var reply := if world.postNote(note) then Reply(200, "OK") else ServerError;
        Exchange(reply, asked + [PostedNote(note)])
  }

  /** The handler with the outgoing log as the file it appends to; `writable`
      says whether that append succeeds. */
  method Serve(log: Log, req: Request, cfg: Config, world: World, writable: bool) returns (reply: Reply)
    modifies log
    ensures reply == Handle(req, cfg, world).reply
    ensures Gate(req, cfg, world).OutgoingLogged? && writable ==>
              log.lines == old(log.lines) + [EncodeLine(Gate(req, cfg, world).record)]
    ensures !(Gate(req, cfg, world).OutgoingLogged? && writable) ==> log.lines == old(log.lines)
    ensures old(log.Valid()) ==> log.Valid()
  {
    var outcome := Gate(req, cfg, world);
    if outcome.OutgoingLogged? {
      OutgoingRecord(req, cfg, world);
      log.HandleOutgoingMessage(Extract(req.body).value, world.now, writable);
    }
    reply := Handle(req, cfg, world).reply;
  }

  // Properties of the gate

  /** The logged record is built from the extracted message and the clock. */
  lemma OutgoingRecord(req: Request, cfg: Config, world: World)
    requires Gate(req, cfg, world).OutgoingLogged?
    ensures Extract(req.body).Some?
    ensures Gate(req, cfg, world).record == RecordOf(Extract(req.body).value, world.now)
  {
  }

  /** 403 exactly when a signature and a secret are both present and the
      digest differs from the signature. */
  lemma ForbiddenExactly(req: Request, cfg: Config, world: World)
    ensures Gate(req, cfg, world) == Forbidden <==>
      (Truthy(req.signature) && Truthy(cfg.secret) && world.digest(cfg.secret.value, req.body) != req.signature.value)
  {
  }

  /** Unless the signature is refused, processing goes on exactly as if there
      were no signature at all; and when a signature or a secret is missing the
      digest is never consulted. */
  lemma UnverifiedContinues(req: Request, cfg: Config, world: World, other: (string, Body) -> string)
    ensures Gate(req, cfg, world) != Forbidden ==>
      Gate(req, cfg, world) == Gate(req.(signature := None), cfg, world)
    ensures !(Truthy(req.signature) && Truthy(cfg.secret)) ==>
      Gate(req, cfg, world) == Gate(req, cfg, world.(digest := other))
  {
  }

  /** A non-empty flat `message[add][0][text]` wins: the message is the four
      flat fields, whatever `message.add` holds. Otherwise it is the first
      element of `message.add`, if any. */
  lemma FlatFormWins(body: Body, nested: Option<seq<JsObject>>)
    ensures Truthy(Lookup(body.form, FlatKey("text"))) ==>
      Extract(body) == Extract(body.(messageAdd := nested)) == Some(FlatMessage(body.form))
    ensures !Truthy(Lookup(body.form, FlatKey("text"))) ==>
      Extract(body) == (if body.messageAdd.Some? && body.messageAdd.value != [] then Some(body.messageAdd.value[0]) else None)
  {
  }

  /** Past the signature gate: no message, no text or no type gives
      "No valid message" and no external call. */
  lemma NoValidMessageExactly(req: Request, cfg: Config, world: World)
    requires !SignatureRejects(req.signature, cfg.secret, world.digest, req.body)
    ensures var msg := Extract(req.body);
      Gate(req, cfg, world) == NoValidMessage <==>
        (msg.None? || !Truthy(Lookup(msg.value, "text")) || !Truthy(Lookup(msg.value, "type")))
    ensures Gate(req, cfg, world) == NoValidMessage ==>
      Handle(req, cfg, world) == Exchange(Reply(200, "No valid message"), [])
  {
  }

  /** An outgoing message with text is always logged and answered "Outgoing
      logged", whatever its entity fields; logging is the only call made. */
  lemma OutgoingAlwaysLogged(req: Request, cfg: Config, world: World)
    requires !SignatureRejects(req.signature, cfg.secret, world.digest, req.body)
    requires Extract(req.body).Some?
    requires Truthy(Lookup(Extract(req.body).value, "text"))
    requires Lookup(Extract(req.body).value, "type") == Some("outgoing")
    ensures Gate(req, cfg, world) == OutgoingLogged(RecordOf(Extract(req.body).value, world.now))
    ensures Handle(req, cfg, world) ==
      Exchange(Reply(200, "Outgoing logged"), [LoggedOutgoing(RecordOf(Extract(req.body).value, world.now))])
  {
  }

  /** A message with text and a type other than "outgoing" and "incoming"
      gives "Not incoming". */
  lemma NotIncomingExactly(req: Request, cfg: Config, world: World)
    requires !SignatureRejects(req.signature, cfg.secret, world.digest, req.body)
    requires Extract(req.body).Some?
    requires Truthy(Lookup(Extract(req.body).value, "text")) && Truthy(Lookup(Extract(req.body).value, "type"))
    ensures var t := Extract(req.body).value["type"];
      Gate(req, cfg, world) == NotIncoming <==> (t != "outgoing" && t != "incoming")
  {
  }

  /** An incoming message with text but an empty id or a record other than a
      lead gives "Invalid". */
  lemma InvalidExactly(req: Request, cfg: Config, world: World)
    requires !SignatureRejects(req.signature, cfg.secret, world.digest, req.body)
    requires Extract(req.body).Some?
    requires Truthy(Lookup(Extract(req.body).value, "text"))
    requires Lookup(Extract(req.body).value, "type") == Some("incoming")
    ensures var m := Extract(req.body).value;
      Gate(req, cfg, world) == Invalid <==>
        (!Truthy(Lookup(m, "entity_id")) || Lookup(m, "entity_type") != Some(Lead))
  {
  }

  /** Only an eligible message past the signature gate reaches the analysis,
      and every such message does: with the lead's id and a prompt made of
      the lead's chat history and the client's text. */
  lemma AnalyzeExactly(req: Request, cfg: Config, world: World)
    ensures Gate(req, cfg, world).Analyze? <==>
      (!SignatureRejects(req.signature, cfg.secret, world.digest, req.body) && Eligible(Extract(req.body)))
    ensures Gate(req, cfg, world).Analyze? ==>
      var m := Extract(req.body).value;
      var history := GetChatHistory(world.fetchHistory, cfg.domain, cfg.token, m["entity_id"], None);
      Gate(req, cfg, world) == Analyze(m["entity_id"], Prompt(history, m["text"]))
  {
  }

  /** The cascade reaches exactly one outcome for every message, and the
      eligible ones are exactly those it sends to analysis. */
  lemma ClassifyPartition(msg: Option<JsObject>, cfg: Config, world: World)
    ensures Classify(msg, cfg, world) != Forbidden
    ensures Classify(msg, cfg, world).Analyze? <==> Eligible(msg)
    ensures Classify(msg, cfg, world).OutgoingLogged? ==> !Eligible(msg) && msg.value["type"] == "outgoing"
  {
  }

  // Properties of the note

  /** Trimming the template removes its opening line feed and the trailing
      whitespace only: the note starts with the header and is the template's
      lines with any whitespace at the very end dropped. */
  lemma NoteTextShape(r: AnalysisResult)
    ensures NoteText(r) == TrimEnd(NoteBody(r))
    ensures |NoteText(r)| >= |NoteHeader| && NoteText(r)[..|NoteHeader|] == NoteHeader
  {
    var body := NoteBody(r);
    var tail := "\n    ";
    assert body[0] == NoteHeader[0];
    assert "\n" + body + tail == ['\n'] + (body + tail);
    TrimStartOne('\n', body + tail);
    TrimEndSpaces(body, tail);
    TrimEndKeepsVisiblePrefix(NoteHeader, NoteDetails(r));
  }

  /** When the recommendation ends in a visible character the note is exactly
      the template's lines. */
  lemma NoteTextExact(r: AnalysisResult)
    requires var rec := Show(r.salesRecommendation); rec != [] && !IsJsSpace(rec[|rec| - 1])
    ensures NoteText(r) == NoteBody(r)
  {
    NoteTextShape(r);
    var body := NoteBody(r);
    var rec := Show(r.salesRecommendation);
    assert body[|body| - 1] == NoteDetails(r)[|NoteDetails(r)| - 1] == rec[|rec| - 1];
  }

  /** Keywords are shown as "-" unless they are an array, and an array's
      items appear in order separated by ", ". */
  lemma KeywordsShown(items: seq<string>, last: string)
    ensures KeywordText(NotAnArray) == "-"
    ensures KeywordText(KeywordList([])) == ""
    ensures KeywordText(KeywordList([last])) == last
    ensures items != [] ==>
      KeywordText(KeywordList(items + [last])) == KeywordText(KeywordList(items)) + ", " + last
  {
    if items != [] {
      JoinSnoc(", ", items, last);
    }
  }

  // Properties of the handler

  /** 403 for a refused signature, 500 exactly when the analysis throws,
      resolves to nothing, or the note POST throws, and 200 otherwise. */
  lemma StatusCodes(req: Request, cfg: Config, world: World)
    ensures var o := Gate(req, cfg, world);
      var st := Handle(req, cfg, world).reply.status;
      (st == 403 <==> o == Forbidden)
      && (st == 500 <==>
           (o.Analyze? &&
             (world.analyze(o.prompt).AnalysisFailed?
              || world.analyze(o.prompt).result.None?
              || !world.postNote(NoteFor(cfg, o.entityId, world.analyze(o.prompt).result.value)))))
      && (st == 200 || st == 403 || st == 500)
  {
  }

  /** A filtered request makes no history fetch, analysis call or note post:
      an outgoing message makes the logging call alone, any other filtered
      request makes no call at all. */
  lemma NoCallsUnlessAnalyzed(req: Request, cfg: Config, world: World)
    requires !Gate(req, cfg, world).Analyze?
    ensures forall e :: e in Handle(req, cfg, world).effects ==> e.LoggedOutgoing?
    ensures Handle(req, cfg, world).effects ==
      (if Gate(req, cfg, world).OutgoingLogged? then [LoggedOutgoing(Gate(req, cfg, world).record)] else [])
  {
  }

  /** A note is posted only after the history and the analysis, only against
      the lead the message came from, and holds the note text of the result
      the analysis returned. */
  lemma NotePostedAfterAnalysis(req: Request, cfg: Config, world: World, n: NoteRequest)
    requires PostedNote(n) in Handle(req, cfg, world).effects
    ensures Gate(req, cfg, world).Analyze?
    ensures var o := Gate(req, cfg, world);
      && world.analyze(o.prompt).Analysed?
      && world.analyze(o.prompt).result.Some?
      && Handle(req, cfg, world).effects ==
           [FetchedHistory(QueryFor(cfg.domain, cfg.token, o.entityId, None)), CalledAnalysis(o.prompt), PostedNote(n)]
      && n.elementId == Extract(req.body).value["entity_id"]
      && n.text == NoteText(world.analyze(o.prompt).result.value)
  {
    AnalyzeExactly(req, cfg, world);
  }
}
