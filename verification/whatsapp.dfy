/** The WhatsApp webhook handler: pick the first message of the payload,
    keep it only if it is a non-blank text message, find the tenant behind
    the sender, check the tenant's limit, run the pipeline, persist the chat
    and the usage, and reply. The database, the limit check, the pipeline
    and the sender are parameters; what the handler does with them is the
    trace of effects it produces. */
module WhatsApp {
  import opened Wrappers
  import opened PyValues
  import opened Accounts
  import opened Generator
  import opened Pipeline

  /** What the payload filtering decides, before any session is opened. */
  datatype Parsed =
    | Ignored                                // returns without effect
    | Raised                                 // raises out of the handler
    | Message(sender: Value, text: string)   // a text message to answer

  /** `message.get("text", {}).get("body", "").strip()`, or `None` when a
      `.get` or the `.strip()` is applied to a value that lacks it. */
  function BodyText(message: Record): (t: Option<string>)
    ensures "text" !in message ==> t == Some("")
    ensures "text" in message && !message["text"].VDict? ==> t == None
    ensures "text" in message && message["text"].VDict? ==>
      var inner := message["text"].fields;
      && ("body" !in inner ==> t == Some(""))
      && ("body" in inner && inner["body"].VStr? ==> t == Some(Strip(inner["body"].s)))
      && ("body" in inner && !inner["body"].VStr? ==> t == None)
  {
    match GetOr(message, "text", VDict(map[]))
    case VDict(inner) =>
      (match GetOr(inner, "body", VStr(""))
       case VStr(body) => Some(Strip(body))
       case _ => None)
    case _ => None
  }

  /** `messages` is a non-empty list whose first element is a dict. */
  predicate FirstIsDict(payload: Record) {
    && "messages" in payload && payload["messages"].VList?
    && |payload["messages"].items| > 0 && payload["messages"].items[0].VDict?
  }

  /** The first message, when it is a dict. */
  function FirstMessage(payload: Record): Record
    requires FirstIsDict(payload)
  {
    payload["messages"].items[0].fields
  }

  /** `message.get("type") == "text"`. */
  predicate IsTextType(message: Record) {
    GetOr(message, "type", VNone) == VStr("text")
  }

  /** The filtering before the session opens. Only `messages[0]` is looked
      at; nothing here is inside the handler's `try`. A message is answered
      exactly when it is a dict of type "text" whose stripped body is
      non-empty; another type or a blank body is ignored; a first message
      that is not a dict, or a `text`/`body` of the wrong kind, raises. */
  function ParsePayload(payload: Record): (p: Parsed)
    ensures "messages" !in payload ==> p == Ignored
    ensures "messages" in payload && !Truthy(payload["messages"]) ==> p == Ignored
    ensures p.Message? <==>
      && FirstIsDict(payload) && IsTextType(FirstMessage(payload))
      && BodyText(FirstMessage(payload)).Some? && BodyText(FirstMessage(payload)).value != []
    ensures p.Message? ==>
      && p.sender == GetOr(FirstMessage(payload), "from", VNone)
      && BodyText(FirstMessage(payload)) == Some(p.text)
      && !IsBlank(p.text)
      && p.text == Strip(p.text)
    ensures FirstIsDict(payload) && !IsTextType(FirstMessage(payload)) ==> p == Ignored
    ensures FirstIsDict(payload) && BodyText(FirstMessage(payload)) == Some("") ==> p == Ignored
    ensures p == Raised <==>
      || ("messages" in payload && Truthy(payload["messages"]) && !FirstIsDict(payload))
      || (FirstIsDict(payload) && IsTextType(FirstMessage(payload)) && BodyText(FirstMessage(payload)).None?)
  {
    // `messages[0]` of a truthy value that is not a list of dicts raises,
    // and a missing or falsy `messages` returns early
    if !FirstIsDict(payload) then
      if "messages" in payload && Truthy(payload["messages"]) then Raised else Ignored
    else
      var message := FirstMessage(payload);
      if !IsTextType(message) then Ignored
      else match BodyText(message)
        case None => Raised
        case Some(text) =>
          if text == [] then Ignored
          else
            StripIdempotent(text, message);
            Message(GetOr(message, "from", VNone), text)
  }

  /** A text message whose body is blank (empty or only whitespace) is
      ignored, like a message of another type. */
  lemma BlankBodyIgnored(payload: Record)
    requires FirstIsDict(payload)
    requires "text" in FirstMessage(payload) && FirstMessage(payload)["text"].VDict?
    requires var inner := FirstMessage(payload)["text"].fields;
      "body" in inner && inner["body"].VStr? && IsBlank(inner["body"].s)
    ensures ParsePayload(payload) == Ignored
  {
  }

  /** A stripped body stripped again is unchanged. */
  lemma StripIdempotent(text: string, message: Record)
    requires BodyText(message) == Some(text) && text != []
    ensures text == Strip(text)
    ensures !IsBlank(text)
  {
    assert !IsSpace(text[0]);
    assert TrimLeft(text) == text;
    assert TrimRight(text) == text;
  }

  /** What the contact lookup (`one_or_none`) gives: no contact, the
      tenant behind the one contact, or an exception (several rows, a
      database error). */
  datatype Lookup = NoContact | Contact(client: Client) | LookupFailed

  /** The handler's effects, in order. */
  datatype Effect =
    | OpenSession
    | FindContact(sender: Value)
    | CheckLimit(clientId: string)
    | CallPipeline(query: string, planType: string)
    | AddChatLog(clientId: string, query: string, answer: string, confidence: real, latencyMs: int)
    | AddUsageLog(clientId: string, usage: Usage, latencyMs: int)
    | Commit
    | SendReply(to: Value, message: string)
    | Rollback
    | CloseSession

  /** The outside world of one call: the contact lookup, whether the limit
      check returns rather than raises (the handler ignores what it
      returns, even `False`), the pipeline's result (`None` when it raises), and
      whether the commit and the send succeed. */
  datatype World = World(lookup: Lookup, limitCheckReturns: bool, pipeline: Option<PipelineResult>, commitOk: bool, sendOk: bool)

  /** A run of the handler: its effects, and whether it raised. */
  datatype HandlerRun = HandlerRun(effects: seq<Effect>, raised: bool)

  /** The effects inside the `try`, for a found tenant, ending with the
      rollback when some step raised. */
  function Answering(c: Client, sender: Value, text: string, w: World): (es: seq<Effect>)
    ensures |es| >= 1 && es[0] == CheckLimit(c.id)
    ensures Rollback in es <==> !w.limitCheckReturns || w.pipeline.None? || !w.commitOk || !w.sendOk
    ensures CloseSession !in es && OpenSession !in es
  {
    if !w.limitCheckReturns then [CheckLimit(c.id), Rollback]
    else
      var calls := [CheckLimit(c.id), CallPipeline(text, c.planType)];
      match w.pipeline
      case None => calls + [Rollback]
      case Some(res) =>
        var logged := calls + [AddChatLog(c.id, text, res.answer, res.confidence, res.latencyMs),
                               AddUsageLog(c.id, res.usage, res.latencyMs), Commit];
        if !w.commitOk then logged + [Rollback]
        else if !w.sendOk then logged + [SendReply(sender, res.answer), Rollback]
        else logged + [SendReply(sender, res.answer)]
  }

  /** The handler once the payload is filtered: the session part, whose
      every exception is rolled back and swallowed, and whose session is
      always closed. */
  function Handle(p: Parsed, w: World): (r: HandlerRun)
    ensures r.raised <==> p.Raised?
    ensures !p.Message? ==> r.effects == []
    ensures p.Message? ==>
      && |r.effects| >= 3
      && r.effects[0] == OpenSession
      && r.effects[1] == FindContact(p.sender)
      && r.effects[|r.effects| - 1] == CloseSession
      && CloseSession !in r.effects[..|r.effects| - 1]
      && (Rollback in r.effects <==>
            (w.lookup.LookupFailed? || (w.lookup.Contact? &&
              (!w.limitCheckReturns || w.pipeline.None? || !w.commitOk || !w.sendOk))))
  {
    match p
    case Ignored => HandlerRun([], false)
    case Raised => HandlerRun([], true)
    case Message(sender, text) =>
      var begun := [OpenSession, FindContact(sender)];
      match w.lookup
      case LookupFailed =>
        var es := begun + [Rollback, CloseSession];
        assert es[..|es| - 1] == begun + [Rollback];
        HandlerRun(es, false)
      case NoContact =>
        var es := begun + [CloseSession];
        assert es[..|es| - 1] == begun;
        HandlerRun(es, false)
      case Contact(c) =>
        var ans := Answering(c, sender, text, w);
        var es := begun + ans + [CloseSession];
        assert es[..|es| - 1] == begun + ans;
        assert Rollback in es <==> Rollback in ans;
        HandlerRun(es, false)
  }

  /** `process_whatsapp_message`: a payload without messages does nothing,
      and the handler raises only when the filtering itself does. */
  function ProcessWhatsAppMessage(payload: Record, w: World): (r: HandlerRun)
    ensures "messages" !in payload ==> r == HandlerRun([], false)
    ensures r.raised <==> ParsePayload(payload).Raised?
  {
    Handle(ParsePayload(payload), w)
  }

  /** The pipeline is reached only for a known sender whose tenant passed
      the limit check, right after that check, with the stripped text and
      the tenant's plan; the text is never blank, so the pipeline never
      answers with its canned reply to an empty question. */
  lemma PipelineOnlyAfterLimitCheck(payload: Record, w: World, j: int)
    requires 0 <= j < |ProcessWhatsAppMessage(payload, w).effects|
    requires ProcessWhatsAppMessage(payload, w).effects[j].CallPipeline?
    ensures var es := ProcessWhatsAppMessage(payload, w).effects;
      && ParsePayload(payload).Message?
      && w.lookup.Contact? && w.limitCheckReturns
      && j == 3 && es[2] == CheckLimit(w.lookup.client.id)
      && es[j] == CallPipeline(ParsePayload(payload).text, w.lookup.client.planType)
      && !IsBlank(es[j].query)
  {
    var p := ParsePayload(payload);
    PipelineCallInHandle(p, w, j);
  }

  /** `PipelineOnlyAfterLimitCheck`, for a filtered payload. */
  lemma PipelineCallInHandle(p: Parsed, w: World, j: int)
    requires 0 <= j < |Handle(p, w).effects|
    requires Handle(p, w).effects[j].CallPipeline?
    ensures var es := Handle(p, w).effects;
      && p.Message? && w.lookup.Contact? && w.limitCheckReturns
      && j == 3 && es[2] == CheckLimit(w.lookup.client.id)
      && es[j] == CallPipeline(p.text, w.lookup.client.planType)
  {
    var es := Handle(p, w).effects;
    assert p.Message?;
    var begun := [OpenSession, FindContact(p.sender)];
    if w.lookup.Contact? {
      var ans := Answering(w.lookup.client, p.sender, p.text, w);
      assert es == begun + ans + [CloseSession];
      assert 2 <= j < 2 + |ans| && es[j] == ans[j - 2];
    } else {
      assert false;
    }
  }

  /** A reply is sent only after the chat and the usage were committed,
      and it carries the pipeline's answer to the sender. */
  lemma ReplyOnlyAfterCommit(payload: Record, w: World, j: int)
    requires 0 <= j < |ProcessWhatsAppMessage(payload, w).effects|
    requires ProcessWhatsAppMessage(payload, w).effects[j].SendReply?
    ensures var es := ProcessWhatsAppMessage(payload, w).effects;
      && w.lookup.Contact? && w.limitCheckReturns && w.pipeline.Some? && w.commitOk
      && j == 7 && es[6] == Commit
      && es[j] == SendReply(ParsePayload(payload).sender, w.pipeline.value.answer)
  {
    ReplyInHandle(ParsePayload(payload), w, j);
  }

  /** `ReplyOnlyAfterCommit`, for a filtered payload. */
  lemma ReplyInHandle(p: Parsed, w: World, j: int)
    requires 0 <= j < |Handle(p, w).effects|
    requires Handle(p, w).effects[j].SendReply?
    ensures var es := Handle(p, w).effects;
      && p.Message? && w.lookup.Contact? && w.limitCheckReturns && w.pipeline.Some? && w.commitOk
      && j == 7 && es[6] == Commit
      && es[j] == SendReply(p.sender, w.pipeline.value.answer)
  {
    var es := Handle(p, w).effects;
    assert p.Message?;
    var begun := [OpenSession, FindContact(p.sender)];
    if w.lookup.Contact? {
      var ans := Answering(w.lookup.client, p.sender, p.text, w);
      assert es == begun + ans + [CloseSession];
      assert 2 <= j < 2 + |ans| && es[j] == ans[j - 2];
    } else {
      assert false;
    }
  }

  /** A message from an unknown number opens and closes a session and does
      nothing else: no limit check, no pipeline, no reply. */
  lemma UnknownSenderIsSilent(payload: Record, w: World)
    requires ParsePayload(payload).Message? && w.lookup.NoContact?
    ensures ProcessWhatsAppMessage(payload, w).effects
         == [OpenSession, FindContact(ParsePayload(payload).sender), CloseSession]
  {
    UnknownSenderInHandle(ParsePayload(payload), w);
  }

  /** `UnknownSenderIsSilent`, for a filtered payload. */
  lemma UnknownSenderInHandle(p: Parsed, w: World)
    requires p.Message? && w.lookup.NoContact?
    ensures Handle(p, w).effects == [OpenSession, FindContact(p.sender), CloseSession]
  {
    assert [OpenSession, FindContact(p.sender)] + [CloseSession] == [OpenSession, FindContact(p.sender), CloseSession];
  }

  /** Surrounding blanks of a body are dropped. */
  lemma StripHello()
    ensures Strip("  Hello ") == "Hello"
  {
    TrimLeftHello("  Hello ");
    TrimRightHello("Hello ");
  }

  /** The leading blanks of "  Hello " are dropped, on a string that is not
      a literal so that `TrimLeft` unfolds one step at a time. */
  lemma TrimLeftHello(s: string)
    requires s == "  Hello "
    ensures TrimLeft(s) == "Hello "
  {
    var t, u := s[1..], s[2..];
    assert s[0] == ' ' && t[0] == ' ' && u[0] == 'H';
    assert t[1..] == u;
    TrimLeftSkips(s);
    TrimLeftSkips(t);
    TrimLeftStops(u);
  }

  /** `TrimLeft` drops a leading blank. */
  lemma TrimLeftSkips(s: string)
    requires |s| > 0 && IsSpace(s[0])
    ensures TrimLeft(s) == TrimLeft(s[1..])
  {
  }

  /** `TrimLeft` keeps a string that does not start with a blank. */
  lemma TrimLeftStops(s: string)
    requires |s| > 0 && !IsSpace(s[0])
    ensures TrimLeft(s) == s
  {
  }

  /** The trailing blank of "Hello " is dropped. */
  lemma TrimRightHello(s: string)
    requires s == "Hello "
    ensures TrimRight(s) == "Hello"
  {
    assert s[5] == ' ' && s[4] == 'o';
    var t := s[..5];
    assert t == "Hello";
    assert TrimRight(s) == TrimRight(t);
  }

  /** A payload whose only message is a text message with a non-blank
      body is answered, from the message's sender, with the stripped
      body. */
  lemma SingleTextMessageParses(message: Record, text: string)
    requires GetOr(message, "type", VNone) == VStr("text")
    requires BodyText(message) == Some(text) && text != []
    ensures ParsePayload(map["messages" := VList([VDict(message)])])
         == Message(GetOr(message, "from", VNone), text)
  {
    var payload := map["messages" := VList([VDict(message)])];
    SingleMessageIsFirst(payload, message);
    var p := ParsePayload(payload);
    assert p.Message? && p.text == text;
  }

  /** The only message of a payload is its first message. */
  lemma SingleMessageIsFirst(payload: Record, message: Record)
    requires payload == map["messages" := VList([VDict(message)])]
    ensures FirstIsDict(payload) && FirstMessage(payload) == message
  {
  }

  /** A text message "  Hello " from 1234567890. */
  function HelloMessage(): Record {
    map["from" := VStr("1234567890"), "type" := VStr("text"),
        "text" := VDict(map["body" := VStr("  Hello ")])]
  }

  /** The fields of that message the handler reads. */
  lemma HelloFields(message: Record)
    requires message == HelloMessage()
    ensures GetOr(message, "from", VNone) == VStr("1234567890")
    ensures GetOr(message, "type", VNone) == VStr("text")
    ensures GetOr(message, "text", VDict(map[])) == VDict(map["body" := VStr("  Hello ")])
  {
  }

  /** A payload carrying just such a message is a message to answer:
      "Hello", from 1234567890. */
  lemma HelloParses(message: Record)
    requires GetOr(message, "from", VNone) == VStr("1234567890")
    requires GetOr(message, "type", VNone) == VStr("text")
    requires GetOr(message, "text", VDict(map[])) == VDict(map["body" := VStr("  Hello ")])
    ensures ParsePayload(map["messages" := VList([VDict(message)])]) == Message(VStr("1234567890"), "Hello")
  {
    HelloBody(message);
    SingleTextMessageParses(message, "Hello");
  }

  /** The body of that message, stripped. */
  lemma HelloBody(message: Record)
    requires GetOr(message, "text", VDict(map[])) == VDict(map["body" := VStr("  Hello ")])
    ensures BodyText(message) == Some("Hello")
  {
    StripHello();
  }

  /** Within its limit, the tenant of a known sender gets the message's
      text, with the tenant's plan, as the fourth effect. */
  lemma MessageReachesPipeline(c: Client, w: World, p: Parsed)
    requires p.Message? && w.lookup == Contact(c) && w.limitCheckReturns
    ensures |Handle(p, w).effects| > 3 && Handle(p, w).effects[3] == CallPipeline(p.text, c.planType)
  {
    var ans := Answering(c, p.sender, p.text, w);
    assert ans[1] == CallPipeline(p.text, c.planType);
    assert Handle(p, w).effects == [OpenSession, FindContact(p.sender)] + ans + [CloseSession];
  }

  /** End to end: that payload from a known number within its limit makes
      the pipeline answer "Hello" on the tenant's plan. */
  lemma TextMessageExample(c: Client, w: World, message: Record)
    requires message == HelloMessage()
    requires w.lookup == Contact(c) && w.limitCheckReturns
    ensures var es := ProcessWhatsAppMessage(map["messages" := VList([VDict(message)])], w).effects;
      |es| > 3 && es[3] == CallPipeline("Hello", c.planType)
  {
    HelloFields(message);
    HelloParses(message);
    MessageReachesPipeline(c, w, Message(VStr("1234567890"), "Hello"));
  }
}
