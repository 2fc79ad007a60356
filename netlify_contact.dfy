/**
 * The hosted contact relay: the Netlify function `exports.handler`, as a total
 * function from the event, the environment, JSON parsing and the outcome of
 * the SMTP send to the response it returns.
 */
module NetlifyContact {
  import opened Wrappers
  import opened JsText
  import opened Inquiry

  /** The parts of the Netlify event the handler reads. */
  datatype Event = Event(httpMethod: string, body: Option<string>)

  /** What `JSON.parse(...)` followed by the destructuring of the four fields
      gives: the fields, or an exception (malformed JSON, or a JSON `null`). */
  datatype Parsed = Malformed | Parsed(fields: Fields)

  type Header = (string, string)

  datatype Response = Response(statusCode: int, headers: seq<Header>, reply: Reply)

  /** The response, and the delivery the handler attempted on the way (if any). */
  datatype Outcome = Outcome(response: Response, delivery: Option<Delivery>)

  const AllowOrigin: Header := ("Access-Control-Allow-Origin", "*")
  const PreflightHeaders: seq<Header> :=
    [AllowOrigin, ("Access-Control-Allow-Headers", "Content-Type"), ("Access-Control-Allow-Methods", "POST, OPTIONS")]
  const JsonHeaders: seq<Header> := [AllowOrigin, ("Content-Type", "application/json")]

  const MethodNotAllowed: string := "Method not allowed"
  const ConfigurationError: string := "Server configuration error."
  const SendFailed: string := "Failed to send inquiry."

  /** The template layout of this relay: text closes with six spaces, HTML lines
      are indented by eight and the HTML closes with six. */
  const NetlifyLayout: Layout := Layout("\n      ", "        ", "\n      ")

  /** `event.body || "{}"` */
  function BodyText(body: Option<string>): (text: string)
    ensures text != ""
    ensures Truthy(body) ==> text == body.value
    ensures !Truthy(body) ==> text == "{}"
  {
    if Truthy(body) then body.value else "{}"
  }

  /** `!smtpHost || !smtpUser || !smtpPass || !contactRecipient`, negated. */
  predicate Configured(env: Env)
  {
    Truthy(env.smtpHost) && Truthy(env.smtpUser) && Truthy(env.smtpPass) && Truthy(env.contactRecipient)
  }

  /** The transport options the handler creates. */
  function SmtpTransport(env: Env): (t: Transport)
    ensures t.port == SmtpPort(env.smtpPort)
    ensures t.secure <==> t.port == ImplicitTlsPort
    ensures t.requireTLS == Some(t.port == DefaultPort)
    ensures !(t.secure && t.requireTLS == Some(true))
    ensures env.smtpPort.None? ==> !t.secure && t.requireTLS == Some(true)
  {
    var port := SmtpPort(env.smtpPort);
    Transport(env.smtpHost, port, port == ImplicitTlsPort, env.smtpUser, env.smtpPass,
              Some(port == DefaultPort), Some(20000), Some(20000), Some(20000), Some(false))
  }

  function JsonResponse(status: int, reply: Reply): Response
  {
    Response(status, JsonHeaders, reply)
  }

  /** The handler. `parse` stands for `JSON.parse` and `sendOk` for whether
      `transporter.sendMail` resolves. */
  function Handle(event: Event, env: Env, parse: string -> Parsed, sendOk: bool): Outcome
  {
    if event.httpMethod != "POST" then
      Outcome(Response(405, PreflightHeaders, ErrorReply(MethodNotAllowed)), None)
    else if event.httpMethod == "OPTIONS" then
      Outcome(Response(200, PreflightHeaders, EmptyReply), None)
    else match parse(BodyText(event.body))
      case Malformed =>
        Outcome(JsonResponse(500, ErrorReply(SendFailed)), None)
      case Parsed(f) =>
        if !Complete(f) then
          Outcome(JsonResponse(400, ErrorReply(MissingFields)), None)
        else if !Configured(env) then
          Outcome(JsonResponse(500, ErrorReply(ConfigurationError)), None)
        else
          var d := Delivery(SmtpTransport(env), ComposeMail(Sender(env), env.contactRecipient, f, NetlifyLayout));
          if sendOk then Outcome(JsonResponse(200, SuccessReply(true, SentMessage)), Some(d))
          else Outcome(JsonResponse(500, ErrorReply(SendFailed)), Some(d))
  }

  // ---------------------------------------------------------------------------
  // Properties of the handler

  /** Every method but POST, OPTIONS included, is answered 405 without further work. */
  lemma NonPostIsRejected(event: Event, env: Env, parse: string -> Parsed, sendOk: bool)
    ensures var o := Handle(event, env, parse, sendOk);
      (o.response.statusCode == 405 <==> event.httpMethod != "POST")
      && (event.httpMethod != "POST" ==> o.response.reply == ErrorReply(MethodNotAllowed) && o.delivery.None?)
  {
  }

  /** The CORS preflight branch cannot be reached: an OPTIONS request gets 405,
      and no request is ever answered with the empty preflight body. */
  lemma PreflightIsUnreachable(event: Event, env: Env, parse: string -> Parsed, sendOk: bool)
    ensures var o := Handle(event, env, parse, sendOk);
      o.response.reply != EmptyReply
      && (event.httpMethod == "OPTIONS" ==> o.response.statusCode == 405)
  {
  }

  /** A POST whose body lacks a field (or has it empty) is answered 400, whatever the configuration. */
  lemma MissingFieldIsRejected(event: Event, env: Env, parse: string -> Parsed, sendOk: bool)
    requires event.httpMethod == "POST"
    requires parse(BodyText(event.body)).Parsed? && !Complete(parse(BodyText(event.body)).fields)
    ensures var o := Handle(event, env, parse, sendOk);
      o.response == Response(400, JsonHeaders, ErrorReply(MissingFields)) && o.delivery.None?
  {
  }

  /** A POST without a body (or with an empty one) is parsed as `{}` and so answered 400. */
  lemma AbsentBodyIsRejected(body: Option<string>, env: Env, parse: string -> Parsed, sendOk: bool)
    requires !Truthy(body)
    requires parse("{}") == Parsed(NoFields)
    ensures Handle(Event("POST", body), env, parse, sendOk).response.statusCode == 400
  {
  }

  /** The configuration error is answered, always with status 500, exactly when a
      POST carries all four fields and one of SMTP_HOST, SMTP_USER, SMTP_PASS,
      CONTACT_RECIPIENT is missing. */
  lemma ConfigurationErrorOnlyAfterFields(event: Event, env: Env, parse: string -> Parsed, sendOk: bool)
    ensures var r := Handle(event, env, parse, sendOk).response;
      (r.reply == ErrorReply(ConfigurationError)
       <==> event.httpMethod == "POST" && parse(BodyText(event.body)).Parsed?
            && Complete(parse(BodyText(event.body)).fields) && !Configured(env))
      && (r.reply == ErrorReply(ConfigurationError) ==> r.statusCode == 500 && r.headers == JsonHeaders)
  {
  }

  /** A POST with all four fields and a missing SMTP_HOST, SMTP_USER, SMTP_PASS
      or CONTACT_RECIPIENT is answered 500 "Server configuration error." and nothing is sent. */
  lemma MissingConfigurationIsServerError(event: Event, env: Env, parse: string -> Parsed, sendOk: bool, f: Fields)
    requires event.httpMethod == "POST" && parse(BodyText(event.body)) == Parsed(f)
    requires Complete(f) && !Configured(env)
    ensures Handle(event, env, parse, sendOk) == Outcome(Response(500, JsonHeaders, ErrorReply(ConfigurationError)), None)
  {
  }

  /** A body that is not JSON throws inside the `try`, so the catch answers 500. */
  lemma MalformedBodyIsServerError(event: Event, env: Env, parse: string -> Parsed, sendOk: bool)
    requires event.httpMethod == "POST" && parse(BodyText(event.body)) == Malformed
    ensures var o := Handle(event, env, parse, sendOk);
      o.response == Response(500, JsonHeaders, ErrorReply(SendFailed)) && o.delivery.None?
  {
  }

  /** A mail is attempted exactly when every check passed, and it is the mail the
      relay promises: from the sender (or the recipient), to the recipient,
      reply-to the submitter, with the prefixed subject and the message's line
      feeds replaced in the HTML; the transport's flags follow the port. */
  lemma DeliveryIsWellFormed(event: Event, env: Env, parse: string -> Parsed, sendOk: bool)
    ensures var o := Handle(event, env, parse, sendOk);
      var p := parse(BodyText(event.body));
      (o.delivery.Some? <==> event.httpMethod == "POST" && p.Parsed? && Complete(p.fields) && Configured(env))
      && (o.delivery.Some? ==>
            var m := o.delivery.value.mail;
            var t := o.delivery.value.transport;
            var f := p.fields;
            m.from == (if Truthy(env.contactSender) then env.contactSender else env.contactRecipient)
            && Truthy(m.from)
            && m.to == env.contactRecipient && Truthy(m.to)
            && m.replyTo == f.email.value
            && m.subject == SubjectPrefix + f.subject.value
            && Contains(m.html, "<p>" + ReplaceNewlines(f.message.value) + "</p>")
            && (t.secure <==> t.port == ImplicitTlsPort)
            && (t.requireTLS == Some(true) <==> t.port == DefaultPort))
  {
    var o := Handle(event, env, parse, sendOk);
    var p := parse(BodyText(event.body));
    if o.delivery.Some? {
      var f := p.fields;
      HtmlBodyHoldsMessage(f.name.value, f.email.value, f.subject.value, f.message.value, NetlifyLayout);
    }
  }

  /** The delivery the handler attempts is the one built from the parsed fields
      under this relay's layout, and the answer then depends on the send alone. */
  lemma HandleDelivery(event: Event, env: Env, parse: string -> Parsed, sendOk: bool, f: Fields)
    requires event.httpMethod == "POST" && parse(BodyText(event.body)) == Parsed(f)
    requires Complete(f) && Configured(env)
    ensures var o := Handle(event, env, parse, sendOk);
      o.delivery == Some(Delivery(SmtpTransport(env), ComposeMail(Sender(env), env.contactRecipient, f, NetlifyLayout)))
      && o.response.statusCode == (if sendOk then 200 else 500)
  {
  }

  /** A sent mail is answered 200 with `success: true`, a failed one 500; these
      are the only 200 answers, and the only statuses are 200, 400, 405 and 500.
      Every answer allows any origin. */
  lemma OutcomeMapping(event: Event, env: Env, parse: string -> Parsed, sendOk: bool)
    ensures var o := Handle(event, env, parse, sendOk);
      var r := o.response;
      (r.statusCode == 200 <==> o.delivery.Some? && sendOk)
      && (r.statusCode == 200 ==> r.reply == SuccessReply(true, SentMessage))
      && (o.delivery.Some? && !sendOk ==> r.statusCode == 500 && r.reply == ErrorReply(SendFailed))
      && r.statusCode in {200, 400, 405, 500}
      && AllowOrigin in r.headers
  {
  }

  // ---------------------------------------------------------------------------
  // The preflight answer as evidently intended

  /** The handler with the CORS preflight answered before the method gate, as
      the headers ("POST, OPTIONS") and the comment on the branch intend. */
  function HandleCorrected(event: Event, env: Env, parse: string -> Parsed, sendOk: bool): (o: Outcome)
    ensures event.httpMethod != "OPTIONS" ==> o == Handle(event, env, parse, sendOk)
  {
    if event.httpMethod == "OPTIONS" then Outcome(Response(200, PreflightHeaders, EmptyReply), None)
    else Handle(event, env, parse, sendOk)
  }

  /** With the correction a preflight gets 200 with an empty body and the CORS
      headers, while every other method but POST is still refused with 405. */
  lemma CorrectedAnswersPreflight(event: Event, env: Env, parse: string -> Parsed, sendOk: bool)
    ensures var o := HandleCorrected(event, env, parse, sendOk);
      (event.httpMethod == "OPTIONS" <==> o.response == Response(200, PreflightHeaders, EmptyReply))
      && (o.response.statusCode == 405 <==> event.httpMethod != "POST" && event.httpMethod != "OPTIONS")
      && (event.httpMethod == "OPTIONS" ==> o.delivery.None?)
  {
    OutcomeMapping(event, env, parse, sendOk);
    PreflightIsUnreachable(event, env, parse, sendOk);
  }
}
