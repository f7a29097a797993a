/** The notification webhook of `supabase/functions/send-notification/index.ts`:
    its own copy of the HTML escape (four characters, no `'`), its own
    formatters (the raw name in the subject), and the request handler's
    decision table up to the mail API call and from its response. */
module SendNotification {
  import opened Wrappers
  import opened Text
  import opened JsValues
  import opened NotificationFormat

  /** The entity this copy of `escapeHtml` writes for one character. */
  function EscapeChar4(c: char): string {
    match c
    case '&' => "&amp;"
    case '<' => "&lt;"
    case '>' => "&gt;"
    case '"' => "&quot;"
    case _ => [c]
  }

  /** This copy of `escapeHtml`: four global replacements, `&` first. */
  function EscapeHtml4(s: string): string {
    ReplaceAll(ReplaceAll(ReplaceAll(ReplaceAll(s, '&', "&amp;"), '<', "&lt;"), '>', "&gt;"), '"', "&quot;")
  }

  function EscapeEach4(s: string): string {
    if s == [] then [] else EscapeChar4(s[0]) + EscapeEach4(s[1..])
  }

  lemma Escape4MarkupChar(c: char)
    requires c == '<' || c == '>' || c == '"'
    ensures EscapeHtml4([c]) == EscapeChar4(c)
  {
    var s1 := ReplaceAll([c], '&', "&amp;");
    assert s1 == [c] by { assert '&' !in [c]; }
    var s2 := if c == '<' then "&lt;" else [c];
    assert ReplaceAll(s1, '<', "&lt;") == s2 by { ReplaceAllOne(c, '<', "&lt;"); }
    var s3 := if c == '>' then "&gt;" else s2;
    assert ReplaceAll(s2, '>', "&gt;") == s3 by { ChainStep(c, s2, '>', "&gt;"); }
    var s4 := if c == '"' then "&quot;" else s3;
    assert ReplaceAll(s3, '"', "&quot;") == s4 by { ChainStep(c, s3, '"', "&quot;"); }
  }

  lemma Escape4ByChain(c: char)
    ensures EscapeHtml4([c]) == EscapeChar4(c)
  {
    if c == '&' {
      ReplaceAllOne('&', '&', "&amp;");
      assert '<' !in "&amp;" && '>' !in "&amp;" && '"' !in "&amp;";
    } else if c == '<' || c == '>' || c == '"' {
      Escape4MarkupChar(c);
    } else {
      assert '&' !in [c] && '<' !in [c] && '>' !in [c] && '"' !in [c];
    }
  }

  /** As in the library copy, the chain escapes character by character. */
  lemma {:induction false} EscapeHtml4PerChar(s: string)
    ensures EscapeHtml4(s) == EscapeEach4(s)
  {
    if s != [] {
      var c, rest := s[0], s[1..];
      assert s == [c] + rest;
      ReplaceAllConcat([c], rest, '&', "&amp;");
      var s1, t1 := ReplaceAll([c], '&', "&amp;"), ReplaceAll(rest, '&', "&amp;");
      ReplaceAllConcat(s1, t1, '<', "&lt;");
      var s2, t2 := ReplaceAll(s1, '<', "&lt;"), ReplaceAll(t1, '<', "&lt;");
      ReplaceAllConcat(s2, t2, '>', "&gt;");
      var s3, t3 := ReplaceAll(s2, '>', "&gt;"), ReplaceAll(t2, '>', "&gt;");
      ReplaceAllConcat(s3, t3, '"', "&quot;");
      EscapeHtml4PerChar(rest);
      Escape4ByChain(c);
    }
  }

  /** The two escapes agree on a string exactly when it holds no `'`. */
  lemma {:induction false} EscapeEachAgree(s: string)
    ensures EscapeEach4(s) == EscapeEach(s) <==> '\'' !in s
    ensures |EscapeEach4(s)| <= |EscapeEach(s)|
  {
    if s != [] {
      EscapeEachAgree(s[1..]);
      var a, b := EscapeChar4(s[0]), EscapeChar(s[0]);
      assert EscapeEach4(s) == a + EscapeEach4(s[1..]);
      assert EscapeEach(s) == b + EscapeEach(s[1..]);
      assert ('\'' in s) == (s[0] == '\'' || '\'' in s[1..]);
      var x, y := EscapeEach4(s[1..]), EscapeEach(s[1..]);
      if s[0] == '\'' {
        assert |a| < |b|;
        assert |a + x| < |b + y|;
      } else {
        assert a == b;
        assert (a + x)[|a|..] == x && (b + y)[|b|..] == y;
      }
    }
  }

  /** The webhook's escape matches the library's on every string without a
      `'`, and differs from it on every string with one. */
  lemma EscapesAgree(s: string)
    ensures EscapeHtml4(s) == EscapeHtml(s) <==> '\'' !in s
  {
    EscapeHtml4PerChar(s);
    EscapeHtmlPerChar(s);
    EscapeEachAgree(s);
  }

  /** The characters that end element content or a double-quoted attribute. */
  predicate IsTagChar(c: char) {
    c == '<' || c == '>' || c == '"'
  }

  lemma {:induction false} EscapeEach4NoTag(s: string)
    ensures Filter(EscapeEach4(s), IsTagChar) == []
  {
    if s != [] {
      EscapeEach4NoTag(s[1..]);
      var e := EscapeChar4(s[0]);
      assert forall i :: 0 <= i < |e| ==> !IsTagChar(e[i]);
      FilterNone(e, IsTagChar);
      FilterConcat(e, EscapeEach4(s[1..]), IsTagChar);
    }
  }

  /** This escape still removes every `<`, `>` and `"`; only `'` survives. */
  lemma Escaped4HasNoTagChar(s: string)
    ensures Filter(EscapeHtml4(s), IsTagChar) == []
    ensures EscapeHtml4("'") == "'"
  {
    EscapeHtml4PerChar(s);
    EscapeEach4NoTag(s);
    EscapeHtml4PerChar("'");
    assert "'"[1..] == [];
  }

  /** The webhook's `formatContactEmail`: the name is not sanitised. */
  function EdgeContactEmail(rec: JsRecord): (e: Email)
    ensures e.subject == "[JEN Site] New contact: " + TextOf(Get(rec, "name"))
  {
    ContactEmailWith(TextOf(Get(rec, "name")), rec, EscapeHtml4)
  }

  /** The webhook's `formatReviewEmail`. */
  function EdgeReviewEmail(rec: JsRecord): (e: Email)
    ensures e.subject == "[JEN Site] New review from " + TextOf(Get(rec, "name"))
  {
    ReviewEmailWith(TextOf(Get(rec, "name")), rec, EscapeHtml4)
  }

  /** A name with a line break reaches the webhook's subject as it is, and
      the subject has no length cap. */
  lemma EdgeSubjectKeepsLineBreaks(rec: JsRecord)
    requires Get(rec, "name") == Str("a\r\nBcc: x")
    ensures '\r' in EdgeContactEmail(rec).subject
    ensures '\r' !in FormatContactEmail(rec).subject
  {
    var sub := EdgeContactEmail(rec).subject;
    assert sub[25] == '\r';
    SubjectsHaveNoLineBreak(rec);
  }

  lemma EdgeSubjectUncapped(rec: JsRecord, n: string)
    requires Get(rec, "name") == Str(n)
    ensures |EdgeContactEmail(rec).subject| == 24 + |n|
  {
  }

  lemma Optional4NoTag(v: JsValue)
    ensures Filter(if OptText(v) != "" then EscapeHtml4(OptText(v)) else "", IsTagChar) == []
  {
    Escaped4HasNoTagChar(OptText(v));
  }

  lemma EdgeContactHolesNoTag(name: string, rec: JsRecord)
    ensures NoneIn(ContactHoles(name, rec, EscapeHtml4), IsTagChar)
  {
    var email := TextOf(Get(rec, "email"));
    var pt := OptText(Get(rec, "project_type"));
    var budget := OptText(Get(rec, "budget"));
    var timeline := OptText(Get(rec, "timeline"));
    var phone, pc := TextOf(Get(rec, "phone")), TextOf(Get(rec, "preferred_contact"));
    var service, message := TextOf(Get(rec, "service")), TextOf(Get(rec, "message"));
    Escaped4HasNoTagChar(name);
    Escaped4HasNoTagChar(email);
    Escaped4HasNoTagChar(phone);
    Escaped4HasNoTagChar(pc);
    Escaped4HasNoTagChar(service);
    Optional4NoTag(Get(rec, "project_type"));
    Optional4NoTag(Get(rec, "budget"));
    Optional4NoTag(Get(rec, "timeline"));
    Escaped4HasNoTagChar(message);
    NoneIn10(EscapeHtml4(name), EscapeHtml4(email), EscapeHtml4(email), EscapeHtml4(phone),
      EscapeHtml4(pc), EscapeHtml4(service),
      if pt != "" then EscapeHtml4(pt) else "",
      if budget != "" then EscapeHtml4(budget) else "",
      if timeline != "" then EscapeHtml4(timeline) else "",
      EscapeHtml4(message), IsTagChar);
  }

  /** Without the `'` escape the webhook's contact e-mail still keeps its
      tags and its double-quoted `href` intact: two submissions with the
      same optional fields present give the same `<`, `>` and `"`. */
  lemma EdgeContactTagsIndependent(r1: JsRecord, r2: JsRecord)
    requires Truthy(Get(r1, "project_type")) == Truthy(Get(r2, "project_type"))
    requires Truthy(Get(r1, "budget")) == Truthy(Get(r2, "budget"))
    requires Truthy(Get(r1, "timeline")) == Truthy(Get(r2, "timeline"))
    ensures Filter(EdgeContactEmail(r1).html, IsTagChar) == Filter(EdgeContactEmail(r2).html, IsTagChar)
  {
    var n1, n2 := TextOf(Get(r1, "name")), TextOf(Get(r2, "name"));
    assert ContactLitsFor(r1) == ContactLitsFor(r2);
    ContactLitsShape(r1);
    EdgeContactHolesNoTag(n1, r1);
    EdgeContactHolesNoTag(n2, r2);
    TemplateClassFixed(ContactLitsFor(r1), ContactHoles(n1, r1, EscapeHtml4), ContactHoles(n2, r2, EscapeHtml4), IsTagChar);
  }

  /** The event types the handler accepts. */
  datatype EventType = Insert | Update | Delete {
    function Text(): string {
      match this
      case Insert => "INSERT"
      case Update => "UPDATE"
      case Delete => "DELETE"
    }
  }

  /** `type !== 'INSERT' && type !== 'UPDATE' && type !== 'DELETE'` */
  function ParseEventType(v: JsValue): (r: Option<EventType>)
    ensures r.Some? <==> v in {Str("INSERT"), Str("UPDATE"), Str("DELETE")}
    ensures r.Some? ==> v == Str(r.value.Text())
  {
    if v == Str("INSERT") then Some(Insert)
    else if v == Str("UPDATE") then Some(Update)
    else if v == Str("DELETE") then Some(Delete)
    else None
  }

  /** The parsed webhook body; a record that is absent or `null` is `None`. */
  datatype Payload = Payload(eventType: JsValue, table: JsValue,
                             record: Option<JsRecord>, oldRecord: Option<JsRecord>)

  /** The request body as `req.json()` leaves it: not JSON at all, the JSON
      value `null`, or any other JSON value. Destructuring a value that is
      not an object reads every field as `undefined`, so such a value is a
      `Payload` whose fields are all `Undefined`. */
  datatype RequestBody = NotJson | JsonNull | Parsed(payload: Payload)

  /** What the handler returns. `Crashed` is the runtime's own answer when
      the handler throws instead of returning. */
  datatype Body = NoBody | ErrorBody(error: string) | FailedToSend | SentOk(id: JsValue) | Crashed
  datatype Response = Response(status: int, body: Body)

  /** The mail API's answer: whether it was OK and the id it returned. */
  datatype MailReply = MailReply(ok: bool, id: JsValue)

  /** `!RESEND_API_KEY || !NOTIFICATION_EMAIL` fails: both secrets are set
      and non-empty. */
  predicate Configured(apiKey: Option<string>, notifyTo: Option<string>) {
    apiKey.Some? && apiKey.value != "" && notifyTo.Some? && notifyTo.value != ""
  }

  /** The generic body: `<p>Table: …, Event: …</p><pre>…</pre>`, with the
      serialised data given as `dataJson`. */
  function GenericHtml(table: JsValue, t: EventType, dataJson: string): string {
    "<p>Table: " + ToStr(table) + ", Event: " + t.Text() + "</p><pre>" + dataJson + "</pre>"
  }

  /** The subject of the last branch. Its dash is the three characters the
      source file holds there (an en dash read back in the wrong encoding). */
  function GenericSubject(table: JsValue, t: EventType): string {
    "[JEN Site] " + ToStr(Coalesce(table, Str("unknown"))) + " â€“ " + t.Text()
  }

  /** The subject prefixes of the update and change notices. */
  const CONTACT_UPDATED := "[JEN Site] Contact updated: "
  const REVIEW_UPDATED := "[JEN Site] Review updated: "
  const TABLE_CHANGED := "[JEN Site] Change: "

  /** The e-mail the handler chooses for an accepted event. */
  function ChooseEmail(t: EventType, table: JsValue, data: Option<JsRecord>, dataJson: string): Email {
    if table == Str("contact_submissions") && data.Some? && t != Delete then ContactNotice(t, data.value)
    else if table == Str("reviews") && data.Some? && t != Delete then ReviewNotice(t, data.value)
    else if table == Str("projects") || table == Str("project_images") then ChangeNotice(t, table, dataJson)
    else Email(GenericSubject(table, t), GenericHtml(table, t, dataJson))
  }

  /** A new or updated contact submission: the contact template, with its
      own subject for an update. */
  function ContactNotice(t: EventType, rec: JsRecord): Email {
    var f := EdgeContactEmail(rec);
    Email(if t == Insert then f.subject else CONTACT_UPDATED + ToStr(Get(rec, "name")), f.html)
  }

  /** A new or updated review, likewise. */
  function ReviewNotice(t: EventType, rec: JsRecord): Email {
    var f := EdgeReviewEmail(rec);
    Email(if t == Insert then f.subject else REVIEW_UPDATED + ToStr(Get(rec, "name")), f.html)
  }

  /** Any change to `projects` or `project_images`. */
  function ChangeNotice(t: EventType, table: JsValue, dataJson: string): Email {
    Email(TABLE_CHANGED + ToStr(table) + " " + t.Text(), GenericHtml(table, t, dataJson))
  }

  /** The subject rows of the decision table. */
  lemma ChooseEmailTable(t: EventType, table: JsValue, data: Option<JsRecord>, dataJson: string)
    ensures var e := ChooseEmail(t, table, data, dataJson);
      && (table == Str("contact_submissions") && data.Some? && t == Insert ==>
            e == EdgeContactEmail(data.value))
      && (table == Str("contact_submissions") && data.Some? && t == Update ==>
            e.subject == CONTACT_UPDATED + ToStr(Get(data.value, "name"))
            && e.html == EdgeContactEmail(data.value).html)
      && (table == Str("reviews") && data.Some? && t == Insert ==>
            e == EdgeReviewEmail(data.value))
      && (table == Str("reviews") && data.Some? && t == Update ==>
            e.subject == REVIEW_UPDATED + ToStr(Get(data.value, "name"))
            && e.html == EdgeReviewEmail(data.value).html)
      && (table in {Str("projects"), Str("project_images")} ==>
            e == Email(TABLE_CHANGED + ToStr(table) + " " + t.Text(), GenericHtml(table, t, dataJson)))
      && (t == Delete && table !in {Str("projects"), Str("project_images")} ==>
            e == Email(GenericSubject(table, t), GenericHtml(table, t, dataJson)))
      && (table !in {Str("contact_submissions"), Str("reviews"), Str("projects"), Str("project_images")} ==>
            e == Email(GenericSubject(table, t), GenericHtml(table, t, dataJson)))
      && (table in {Str("contact_submissions"), Str("reviews")} && data.None? ==>
            e == Email(GenericSubject(table, t), GenericHtml(table, t, dataJson)))
  {
    ContactRoute(t, table, data, dataJson);
    ReviewRoute(t, table, data, dataJson);
    ProjectTablesRoute(t, table, data, dataJson);
    DeleteRoutesGeneric(t, table, data, dataJson);
    OtherTablesGeneric(t, table, data, dataJson);
    MissingDataGeneric(t, table, dataJson);
  }

  lemma ContactRoute(t: EventType, table: JsValue, data: Option<JsRecord>, dataJson: string)
    ensures table == Str("contact_submissions") && data.Some? && t == Insert ==>
      ChooseEmail(t, table, data, dataJson) == EdgeContactEmail(data.value)
    ensures table == Str("contact_submissions") && data.Some? && t == Update ==>
      ChooseEmail(t, table, data, dataJson).subject == CONTACT_UPDATED + ToStr(Get(data.value, "name"))
      && ChooseEmail(t, table, data, dataJson).html == EdgeContactEmail(data.value).html
  {
    if table == Str("contact_submissions") && data.Some? {
      if t == Insert {
        ContactInsertRoute(data.value, dataJson);
      } else if t == Update {
        ContactUpdateRoute(data.value, dataJson);
      }
    }
  }

  lemma ContactInsertRoute(rec: JsRecord, dataJson: string)
    ensures ChooseEmail(Insert, Str("contact_submissions"), Some(rec), dataJson) == EdgeContactEmail(rec)
  {
  }

  lemma ContactUpdateRoute(rec: JsRecord, dataJson: string)
    ensures ChooseEmail(Update, Str("contact_submissions"), Some(rec), dataJson).subject
            == CONTACT_UPDATED + ToStr(Get(rec, "name"))
    ensures ChooseEmail(Update, Str("contact_submissions"), Some(rec), dataJson).html == EdgeContactEmail(rec).html
  {
    ContactNoticeUpdate(rec);
  }

  lemma ContactNoticeUpdate(rec: JsRecord)
    ensures ContactNotice(Update, rec).subject == CONTACT_UPDATED + ToStr(Get(rec, "name"))
    ensures ContactNotice(Update, rec).html == EdgeContactEmail(rec).html
  {
  }

  lemma ReviewRoute(t: EventType, table: JsValue, data: Option<JsRecord>, dataJson: string)
    ensures table == Str("reviews") && data.Some? && t == Insert ==>
      ChooseEmail(t, table, data, dataJson) == EdgeReviewEmail(data.value)
    ensures table == Str("reviews") && data.Some? && t == Update ==>
      ChooseEmail(t, table, data, dataJson).subject == REVIEW_UPDATED + ToStr(Get(data.value, "name"))
      && ChooseEmail(t, table, data, dataJson).html == EdgeReviewEmail(data.value).html
  {
    if table == Str("reviews") {
      var contacts, reviews := "contact_submissions", "reviews";
      assert |contacts| == 19 && |reviews| == 7;
      assert table != Str(contacts);
    }
  }


  lemma ProjectTablesRoute(t: EventType, table: JsValue, data: Option<JsRecord>, dataJson: string)
    ensures table in {Str("projects"), Str("project_images")} ==>
      ChooseEmail(t, table, data, dataJson)
      == Email(TABLE_CHANGED + ToStr(table) + " " + t.Text(), GenericHtml(table, t, dataJson))
  {
    if table in {Str("projects"), Str("project_images")} {
      var contacts, reviews := "contact_submissions", "reviews";
      assert |contacts| == 19 && |reviews| == 7 && |table.s| in {8, 14};
      assert table != Str(contacts) && table != Str(reviews);
    }
  }

  lemma DeleteRoutesGeneric(t: EventType, table: JsValue, data: Option<JsRecord>, dataJson: string)
    ensures t == Delete && table !in {Str("projects"), Str("project_images")} ==>
      ChooseEmail(t, table, data, dataJson) == Email(GenericSubject(table, t), GenericHtml(table, t, dataJson))
  {
  }

  lemma OtherTablesGeneric(t: EventType, table: JsValue, data: Option<JsRecord>, dataJson: string)
    ensures table !in {Str("contact_submissions"), Str("reviews"), Str("projects"), Str("project_images")} ==>
      ChooseEmail(t, table, data, dataJson) == Email(GenericSubject(table, t), GenericHtml(table, t, dataJson))
  {
  }

  lemma MissingDataGeneric(t: EventType, table: JsValue, dataJson: string)
    ensures table in {Str("contact_submissions"), Str("reviews")} ==>
      ChooseEmail(t, table, None, dataJson) == Email(GenericSubject(table, t), GenericHtml(table, t, dataJson))
  {
    if table in {Str("contact_submissions"), Str("reviews")} {
      var contacts, reviews := "contact_submissions", "reviews";
      assert |contacts| == 19 && |reviews| == 7 && |table.s| in {19, 7};
      assert table != Str("projects") && table != Str("project_images");
    }
  }

  /** The request handler, from the method check to the mail API's answer.
      `body` is what parsing the request body gave; `dataJson`
      stands for `JSON.stringify(data ?? {}, null, 2)`; `reply` is what the
      mail API answers. `sent` is the e-mail posted to the mail API, if the
      handler gets that far. Destructuring a `null` body throws outside the
      handler's `try`, and the runtime answers 500. */
  method HandleRequest(reqMethod: string, apiKey: Option<string>, notifyTo: Option<string>,
                       body: RequestBody, dataJson: string, reply: MailReply)
    returns (resp: Response, sent: Option<Email>)
    ensures reqMethod == "OPTIONS" ==> resp == Response(204, NoBody) && sent == None
    ensures reqMethod != "OPTIONS" && !Configured(apiKey, notifyTo) ==>
      resp == Response(500, ErrorBody("Server configuration missing")) && sent == None
    ensures reqMethod != "OPTIONS" && Configured(apiKey, notifyTo) && body.NotJson? ==>
      resp == Response(400, ErrorBody("Invalid JSON")) && sent == None
    ensures reqMethod != "OPTIONS" && Configured(apiKey, notifyTo) && body.JsonNull? ==>
      resp == Response(500, Crashed) && sent == None
    ensures reqMethod != "OPTIONS" && Configured(apiKey, notifyTo) && body.Parsed?
            && ParseEventType(body.payload.eventType).None? ==>
      resp == Response(400, ErrorBody("Unsupported event type")) && sent == None
    ensures reqMethod != "OPTIONS" && Configured(apiKey, notifyTo) && body.Parsed?
            && ParseEventType(body.payload.eventType).Some?
            && ParseEventType(body.payload.eventType).value != Delete && body.payload.record.None? ==>
      resp == Response(400, ErrorBody("No record in payload")) && sent == None
    ensures sent.Some? <==>
      && reqMethod != "OPTIONS" && Configured(apiKey, notifyTo) && body.Parsed?
      && ParseEventType(body.payload.eventType).Some?
      && (ParseEventType(body.payload.eventType).value == Delete || body.payload.record.Some?)
    ensures sent.Some? ==>
      var t := ParseEventType(body.payload.eventType).value;
      && sent.value == ChooseEmail(t, body.payload.table,
                                   if t == Delete then body.payload.oldRecord else body.payload.record, dataJson)
      && resp == (if reply.ok then Response(200, SentOk(reply.id)) else Response(502, FailedToSend))
  {
    if reqMethod == "OPTIONS" {
      return Response(204, NoBody), None;
    }
    if !Configured(apiKey, notifyTo) {
      return Response(500, ErrorBody("Server configuration missing")), None;
    }
    if body.NotJson? {
      return Response(400, ErrorBody("Invalid JSON")), None;
    }
    if body.JsonNull? {
      return Response(500, Crashed), None;
    }
    var payload := body.payload;
    var t := ParseEventType(payload.eventType);
    if t.None? {
      return Response(400, ErrorBody("Unsupported event type")), None;
    }
    var data := if t.value == Delete then payload.oldRecord else payload.record;
    if data.None? && t.value != Delete {
      return Response(400, ErrorBody("No record in payload")), None;
    }

    sent := Some(ChooseEmail(t.value, payload.table, data, dataJson));

    if !reply.ok {
      return Response(502, FailedToSend), sent;
    }
    return Response(200, SentOk(reply.id)), sent;
  }
}
