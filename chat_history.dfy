/** getChatHistory (utils/getChatHistory.js): the last messages of a lead's
    chat, fetched from the CRM and rendered as one "who: text" line each. The
    HTTP GET itself is abstracted as its outcome. */
module ChatHistory {
  import opened JsText

  /** One chat message of the CRM's response. A missing `text` is interpolated
      as "undefined". */
  datatype ChatMessage = ChatMessage(direction: Option<string>, text: Option<string>)

  /** `response.data`: its `_embedded` object, and that object's `messages`. */
  datatype Embedded = Embedded(messages: Option<seq<ChatMessage>>)
  datatype ResponseData = ResponseData(embedded: Option<Embedded>)

  /** What the GET came to: it threw (network error, non-2xx status), or it
      answered with some `data`, possibly missing. */
  datatype Fetch = Failed | Answered(data: Option<ResponseData>)

  /** The request getChatHistory sends. */
  datatype Query = Query(url: string, authorization: string, limit: int, sort: string)

  const DefaultLimit := 10
  const EmptyHistory := "Переписка пуста."
  const FailedHistory := "Не удалось получить переписку."
  const Manager := "Менеджер"
  const Client := "Клиент"

  /** The GET for lead `leadId`; an undefined `limit` takes its default. */
  function QueryFor(domain: string, token: string, leadId: string, limit: Option<int>): (q: Query)
    ensures limit.None? ==> q.limit == DefaultLimit
    ensures limit.Some? ==> q.limit == limit.value
    ensures q.sort == "created_at" && q.authorization == token
  {
    Query("https://" + domain + "/api/v4/leads/" + leadId + "/chats/messages", token,
          if limit.Some? then limit.value else DefaultLimit, "created_at")
  }

  /** `response.data?._embedded?.messages || []`. */
  function MessagesOf(data: Option<ResponseData>): (ms: seq<ChatMessage>)
    ensures (data.None? || data.value.embedded.None? || data.value.embedded.value.messages.None?) ==> ms == []
    ensures data.Some? && data.value.embedded.Some? && data.value.embedded.value.messages.Some? ==>
              ms == data.value.embedded.value.messages.value
  {
    match data
    case None => []
    case Some(d) =>
      match d.embedded
      case None => []
      case Some(e) => if e.messages.Some? then e.messages.value else []
  }

  /** Who wrote a message: the manager exactly when its direction is "out". */
  function Speaker(m: ChatMessage): (who: string)
    ensures who == Manager <==> m.direction == Some("out")
    ensures who != Manager ==> who == Client
  {
    if m.direction == Some("out") then Manager else Client
  }

  function Line(m: ChatMessage): string {
    Speaker(m) + ": " + Show(m.text)
  }

  function Lines(ms: seq<ChatMessage>): (ls: seq<string>)
    ensures |ls| == |ms| && forall i :: 0 <= i < |ms| ==> ls[i] == Line(ms[i])
  {
    seq(|ms|, i requires 0 <= i < |ms| => Line(ms[i]))
  }

  /** The text getChatHistory resolves to for a given outcome of the GET. */
  function Render(f: Fetch): string {
    match f
    case Failed => FailedHistory
    case Answered(data) =>
      var ms := MessagesOf(data);
      if |ms| == 0 then EmptyHistory else Join("\n", Lines(ms))
  }

  /** getChatHistory(leadId, limit) against a CRM that answers query `q` with `fetch(q)`. */
  function GetChatHistory(fetch: Query -> Fetch, domain: string, token: string, leadId: string, limit: Option<int>): string {
    Render(fetch(QueryFor(domain, token, leadId, limit)))
  }

  /** A failed GET, or a response without messages, gives the fixed placeholders;
      no outcome of the GET escapes as an error. */
  lemma RenderPlaceholders(f: Fetch)
    ensures f.Failed? ==> Render(f) == FailedHistory
    ensures f.Answered? && MessagesOf(f.data) == [] ==> Render(f) == EmptyHistory
  {
  }

  /** A line never contains a line feed unless the message text does. */
  lemma LineWithoutNewline(m: ChatMessage)
    requires '\n' !in Show(m.text)
    ensures '\n' !in Line(m)
  {
  }

  /** With at least one message, the history is one line per message, in
      response order, each "<who>: <text>", separated by single line feeds
      and with no trailing one: splitting it on line feeds gives those lines
      back whenever no message text itself holds a line feed. */
  lemma {:induction false} RenderLines(ms: seq<ChatMessage>)
    requires |ms| > 0
    requires forall i :: 0 <= i < |ms| ==> '\n' !in Show(ms[i].text)
    ensures Split(Render(Answered(Some(ResponseData(Some(Embedded(Some(ms))))))), '\n') == Lines(ms)
    ensures forall i :: 0 <= i < |ms| ==>
              Lines(ms)[i] == (if ms[i].direction == Some("out") then Manager else Client) + ": " + Show(ms[i].text)
  {
    var ls := Lines(ms);
    forall i | 0 <= i < |ls| ensures '\n' !in ls[i] {
      LineWithoutNewline(ms[i]);
    }
    SplitJoin(ls, '\n');
  }
}
