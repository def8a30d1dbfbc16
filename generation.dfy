/**
 * The request handler shared by the three generation edge functions
 * (generate-mcq, generate-paper, process-voice-notes). A request is checked
 * in a fixed order: the body's fields (400), the gateway key (500), the
 * Authorization header (401), the signed-in user (401), the per-isolate
 * rate limit (429) and the increment_usage quota (403); only then is the
 * AI gateway asked, and its reply is cut to a JSON span and parsed.
 *
 * The handler is first a function (Handle) of the request, the outside
 * services, the rate-limit map and the clock, returning the response, the
 * new map and the calls made to the outside; EdgeFunction.Serve is the same
 * handler written as the source runs it, against a RateLimiter object.
 */
module Generation {
  import opened Text
  import opened Sanitizer
  import opened Validation
  import opened Extraction
  import RateLimit

  /** Which of the three edge functions. */
  datatype Kind = Mcq | Paper | Voice

  /** The `_type` argument of increment_usage. */
  function UsageType(k: Kind): string {
    match k
    case Mcq => "mcq"
    case Paper => "paper"
    case Voice => "voice"
  }

  /** The system message sent ahead of the prompt. */
  function SystemMessage(k: Kind): string {
    match k
    case Mcq => "You are an expert educator who creates high-quality MCQ questions. Always respond with valid JSON only."
    case Paper => "You are an expert educator. Return valid JSON only."
    case Voice => "You are an expert note-taker. Return valid JSON only."
  }

  const Model: string := "google/gemini-3-flash-preview"

  /** The text used when the gateway's reply has no content: an empty array for MCQs, an empty object otherwise. */
  function Fallback(k: Kind): string {
    if k == Mcq then "[]" else "{}"
  }

  /** The bracket pair the reply is searched for: [ ] for MCQs, { } otherwise. */
  function Open(k: Kind): char {
    if k == Mcq then '[' else '{'
  }

  function Close(k: Kind): char {
    if k == Mcq then ']' else '}'
  }

  /** The validated parameters of one request. */
  datatype Params = McqInput(mcq: McqParams) | PaperInput(paper: PaperParams) | VoiceInput(text: string)

  /** The body validation of each edge function. */
  function ValidateBody(k: Kind, body: Body): (r: Checked<Params>)
    ensures r.Valid? ==> (k == Mcq <==> r.value.McqInput?) && (k == Paper <==> r.value.PaperInput?)
  {
    match k
    case Mcq =>
      (match ValidateMcqBody(body)
       case Invalid(e) => Invalid(e)
       case Valid(p) => Valid(McqInput(p)))
    case Paper =>
      (match ValidatePaperBody(body)
       case Invalid(e) => Invalid(e)
       case Valid(p) => Valid(PaperInput(p)))
    case Voice =>
      (match ValidateVoiceBody(body)
       case Invalid(e) => Invalid(e)
       case Valid(t) => Valid(VoiceInput(t)))
  }

  /**
   * The chat-completions request sent to the gateway: the kind's system
   * message and the prompt rendered from the validated parameters, for the
   * model Model.
   */
  datatype Chat = Chat(kind: Kind, params: Params)

  function ChatSystem(c: Chat): string {
    SystemMessage(c.kind)
  }

  function ChatPrompt(c: Chat): string {
    RenderPrompt(c.params)
  }

  /** The user prompt, built from the sanitized fields only. */
  function RenderPrompt(p: Params): string {
    match p
    case McqInput(m) =>
      "Generate " + IntString(m.count) + " multiple choice questions about " + m.topic + " in " + m.subject
      + ". Difficulty: " + m.difficulty + ".\n\nReturn a JSON array with this exact format:\n[\n  {\n"
      + "    \"question\": \"The question text\",\n"
      + "    \"options\": [\"Option A\", \"Option B\", \"Option C\", \"Option D\"],\n"
      + "    \"answer\": \"The correct option text (must match one of the options exactly)\",\n"
      + "    \"explanation\": \"Brief explanation of why this is correct\"\n  }\n]\n\nRequirements:\n"
      + "- Each question must have exactly 4 options\n"
      + "- The answer must be the full text of the correct option\n"
      + "- Make questions appropriate for " + m.difficulty + " difficulty level\n"
      + "- Questions should be educational and accurate\n"
      + "- Return ONLY the JSON array, no other text"
    case PaperInput(q) =>
      "Create a question paper for " + q.subject + " covering: " + q.topics
      + ".\n\nReturn JSON with this format:\n{\n"
      + "  \"oneMarks\": [{\"question\": \"...\", \"marks\": 1, \"answer\": \"...\"}],\n"
      + "  \"twoMarks\": [{\"question\": \"...\", \"marks\": 2, \"answer\": \"...\"}],\n"
      + "  \"fiveMarks\": [{\"question\": \"...\", \"marks\": 5, \"answer\": \"...\"}]\n}\n\n"
      + "Generate 5 one-mark, 4 two-mark, and 3 five-mark questions. Return ONLY JSON."
    case VoiceInput(t) =>
      "Analyze this lecture/note content and provide:\n1. A clear, concise summary\n2. 5 MCQs based on the content\n\n"
      + "Content: \"" + t + "\"\n\nReturn JSON:\n{\n"
      + "  \"summary\": \"The summarized content...\",\n"
      + "  \"mcqs\": [{\"question\": \"...\", \"options\": [\"A\", \"B\", \"C\", \"D\"], \"answer\": \"correct option\"}]\n}\n\n"
      + "Return ONLY valid JSON."
  }

  /** A JSON value, as JSON.parse returns it (numbers are kept integral here). */
  datatype Json =
    | JNull
    | JBool(b: bool)
    | JNumber(n: int)
    | JString(s: string)
    | JArray(items: seq<Json>)
    | JObject(fields: map<string, Json>)

  /** The answer of increment_usage: whether the call errored, and the boolean it returned. */
  datatype UsageReply = UsageReply(failed: bool, allowed: bool)

  /** The gateway's answer: not ok, or the message content of the first choice (absent when missing). */
  datatype AiReply = AiFailed | AiAnswered(content: Option<string>)

  /**
   * The world outside the handler: the LOVABLE_API_KEY variable, the auth
   * service (Authorization header to user id), the increment_usage RPC
   * (user id and type to its reply), the AI gateway (the chat request to
   * its reply) and JSON.parse (None when it throws).
   */
  datatype Services = Services(
    apiKey: string,
    getUser: string -> Option<string>,
    incrementUsage: (string, string) -> UsageReply,
    complete: Chat -> AiReply,
    parse: string -> Option<Json>)

  /**
   * The request: its JSON body (None when req.json() throws or the body is
   * null, so that destructuring it throws) and its Authorization header.
   */
  datatype Request = Request(body: Option<Body>, authorization: Option<string>)

  /** A call from the handler to something outside its own code, in the order made. */
  datatype Event =
    | GetUser(authorization: string)
    | RateCheck(userId: string)
    | IncrementUsage(userId: string, usageType: string)
    | AiCall(chat: Chat)

  /** Why a request was refused, one case per error response the handler writes. */
  datatype Failure =
    | BadField(field: FieldError)
    | AuthenticationRequired
    | InvalidAuthentication
    | TooManyRequests
    | UsageLimitExceeded
    | Internal

  /** The `error` string of each refusal. */
  function FailureText(f: Failure): string {
    match f
    case BadField(e) => Message(e)
    case AuthenticationRequired => "Authentication required"
    case InvalidAuthentication => "Invalid authentication"
    case TooManyRequests => "Too many requests. Please wait a minute before trying again."
    case UsageLimitExceeded => "Usage limit exceeded. Please upgrade your plan."
    case Internal => "An error occurred. Please try again."
  }

  /** The HTTP status of each refusal. */
  function FailureStatus(f: Failure): int {
    match f
    case BadField(_) => 400
    case AuthenticationRequired => 401
    case InvalidAuthentication => 401
    case TooManyRequests => 429
    case UsageLimitExceeded => 403
    case Internal => 500
  }

  /** The JSON object of the response: `{error}`, `{mcqs}`, `{paper}` or the parsed result itself. */
  datatype Payload =
    | ErrorBody(error: Failure)
    | McqsBody(mcqs: Json)
    | PaperBody(paper: Json)
    | ResultBody(result: Json)

  datatype Response = Response(status: int, payload: Payload)

  function Refuse(f: Failure): Response {
    Response(FailureStatus(f), ErrorBody(f))
  }

  /** What the handler answered, the rate-limit map it leaves and the outside calls it made. */
  datatype Outcome = Outcome(response: Response, store: RateLimit.Store, trace: seq<Event>)

  /** The 200 response of each edge function around the parsed reply. */
  function Success(k: Kind, j: Json): Payload {
    match k
    case Mcq => McqsBody(j)
    case Paper => PaperBody(j)
    case Voice => ResultBody(j)
  }

  /** An empty header or key is falsy, as a missing one. */
  predicate Present(s: Option<string>) {
    s.Some? && s.value != ""
  }

  /** The text handed to JSON.parse for a given gateway content. */
  function ReplyJsonText(k: Kind, content: Option<string>): string {
    Span(ReplyText(content, Fallback(k)), Open(k), Close(k))
  }

  /**
   * One request through the handler, at time `now`, with the isolate's
   * rate-limit map `store`: a body that cannot be read is a 500, otherwise
   * the validation result goes on to Respond.
   */
  function Handle(k: Kind, req: Request, env: Services, store: RateLimit.Store, now: int): Outcome {
    if req.body.None? then Outcome(Refuse(Internal), store, [])
    else Respond(k, ValidateBody(k, req.body.value), req.authorization, env, store, now)
  }

  /** The handler once the body's fields were checked (`v`), given the Authorization header `auth`. */
  function Respond(k: Kind, v: Checked<Params>, auth: Option<string>, env: Services,
                   store: RateLimit.Store, now: int): Outcome
  {
    match v
    case Invalid(e) => Outcome(Refuse(BadField(e)), store, [])
    case Valid(params) =>
      if env.apiKey == "" then Outcome(Refuse(Internal), store, [])
      else if !Present(auth) then Outcome(Refuse(AuthenticationRequired), store, [])
      else
        match env.getUser(auth.value)
        case None => Outcome(Refuse(InvalidAuthentication), store, [GetUser(auth.value)])
        case Some(userId) =>
          var d := RateLimit.Step(store, userId, now);
          var t2 := [GetUser(auth.value), RateCheck(userId)];
          if !d.allowed then Outcome(Refuse(TooManyRequests), d.store, t2)
          else
            var usage := env.incrementUsage(userId, UsageType(k));
            var t3 := t2 + [IncrementUsage(userId, UsageType(k))];
            if usage.failed || !usage.allowed then Outcome(Refuse(UsageLimitExceeded), d.store, t3)
            else
              var chat := Chat(k, params);
              var t4 := t3 + [AiCall(chat)];
              match env.complete(chat)
              case AiFailed => Outcome(Refuse(Internal), d.store, t4)
              case AiAnswered(content) =>
                match env.parse(ReplyJsonText(k, content))
                case None => Outcome(Refuse(Internal), d.store, t4)
                case Some(j) => Outcome(Response(200, Success(k, j)), d.store, t4)
  }

  /** The request passes every check up to the signed-in user. */
  predicate SignedIn(v: Checked<Params>, auth: Option<string>, env: Services) {
    v.Valid? && env.apiKey != "" && Present(auth) && env.getUser(auth.value).Some?
  }

  function UserOf(v: Checked<Params>, auth: Option<string>, env: Services): string
    requires SignedIn(v, auth, env)
  {
    env.getUser(auth.value).value
  }

  /** A signed-in request the rate limiter lets through. */
  predicate RateAllowed(v: Checked<Params>, auth: Option<string>, env: Services, store: RateLimit.Store, now: int) {
    SignedIn(v, auth, env) && RateLimit.Step(store, UserOf(v, auth, env), now).allowed
  }

  /** A request that also passes the usage quota: the gateway is asked. */
  predicate QuotaAllowed(k: Kind, v: Checked<Params>, auth: Option<string>, env: Services,
                         store: RateLimit.Store, now: int) {
    && RateAllowed(v, auth, env, store, now)
    && var usage := env.incrementUsage(UserOf(v, auth, env), UsageType(k));
       !usage.failed && usage.allowed
  }

  /**
   * A 400 is answered exactly when the body's fields are invalid, with the
   * first failing check's error, before any outside call and without
   * touching the rate-limit map: an unauthenticated or over-limit request
   * with a bad body still gets 400.
   */
  lemma BadRequestFirst(k: Kind, v: Checked<Params>, auth: Option<string>, env: Services,
                        store: RateLimit.Store, now: int)
    ensures var o := Respond(k, v, auth, env, store, now);
      o.response.status == 400 <==> v.Invalid?
    ensures var o := Respond(k, v, auth, env, store, now);
      v.Invalid? ==> o.response.payload == ErrorBody(BadField(v.error)) && o.trace == [] && o.store == store
  {
  }

  /**
   * A valid body without a gateway key is the catch-all 500, before the
   * Authorization header is looked at: no outside call is made and the
   * rate-limit map is untouched.
   */
  lemma KeyBeforeAuth(k: Kind, v: Checked<Params>, auth: Option<string>, env: Services,
                      store: RateLimit.Store, now: int)
    requires v.Valid? && env.apiKey == ""
    ensures Respond(k, v, auth, env, store, now) == Outcome(Refuse(Internal), store, [])
  {
  }

  /**
   * A 401 is answered exactly when a valid request has no (or an empty)
   * Authorization header, or the auth service knows no user for it; the
   * rate limiter and the quota are not consulted.
   */
  lemma UnauthorizedBeforeLimits(k: Kind, v: Checked<Params>, auth: Option<string>, env: Services,
                                 store: RateLimit.Store, now: int)
    ensures var o := Respond(k, v, auth, env, store, now);
      o.response.status == 401 <==> v.Valid? && env.apiKey != "" && !SignedIn(v, auth, env)
    ensures var o := Respond(k, v, auth, env, store, now);
      o.response.status == 401 ==>
        && o.store == store && |o.trace| <= 1
        && (o.trace == [] <==> !Present(auth))
        && (o.response.payload == ErrorBody(AuthenticationRequired) <==> !Present(auth))
  {
  }

  /**
   * A 429 is answered exactly when the limiter refuses a signed-in user; the
   * map is unchanged and increment_usage is never called, so a refused
   * request costs no quota.
   */
  lemma RateLimitBeforeQuota(k: Kind, v: Checked<Params>, auth: Option<string>, env: Services,
                             store: RateLimit.Store, now: int)
    ensures var o := Respond(k, v, auth, env, store, now);
      o.response.status == 429 <==> SignedIn(v, auth, env) && !RateAllowed(v, auth, env, store, now)
    ensures var o := Respond(k, v, auth, env, store, now);
      o.response.status == 429 ==>
        o.store == store && o.trace == [GetUser(auth.value), RateCheck(UserOf(v, auth, env))]
  {
  }

  /**
   * A 403 is answered exactly when increment_usage errs or refuses after the
   * limiter allowed; the gateway is not asked.
   */
  lemma QuotaBeforeGateway(k: Kind, v: Checked<Params>, auth: Option<string>, env: Services,
                           store: RateLimit.Store, now: int)
    ensures var o := Respond(k, v, auth, env, store, now);
      o.response.status == 403 <==> RateAllowed(v, auth, env, store, now) && !QuotaAllowed(k, v, auth, env, store, now)
    ensures var o := Respond(k, v, auth, env, store, now);
      o.response.status == 403 ==> |o.trace| == 3 && o.trace[2] == IncrementUsage(UserOf(v, auth, env), UsageType(k))
  {
  }

  /**
   * The gateway is asked exactly when every check passed: once, last, with
   * the kind's system message and the prompt of the validated (sanitized)
   * parameters.
   */
  lemma GatewayOnlyAfterQuota(k: Kind, v: Checked<Params>, auth: Option<string>, env: Services,
                              store: RateLimit.Store, now: int)
    ensures var o := Respond(k, v, auth, env, store, now);
      (exists e :: e in o.trace && e.AiCall?) <==> QuotaAllowed(k, v, auth, env, store, now)
    ensures var o := Respond(k, v, auth, env, store, now);
      QuotaAllowed(k, v, auth, env, store, now) ==>
        o.trace == [GetUser(auth.value), RateCheck(UserOf(v, auth, env)),
                    IncrementUsage(UserOf(v, auth, env), UsageType(k)), AiCall(Chat(k, v.value))]
  {
    var o := Respond(k, v, auth, env, store, now);
    if QuotaAllowed(k, v, auth, env, store, now) {
      assert o.trace[3].AiCall?;
    } else {
      assert |o.trace| <= 3;
      assert forall i :: 0 <= i < |o.trace| ==> !o.trace[i].AiCall?;
    }
  }

  /**
   * Whatever the outcome, the outside calls made are a prefix of get-user,
   * rate check, increment_usage, gateway, in that order, and the rate-limit
   * map changes only through one limiter step for the signed-in user.
   */
  lemma CallOrder(k: Kind, v: Checked<Params>, auth: Option<string>, env: Services,
                  store: RateLimit.Store, now: int)
    ensures var o := Respond(k, v, auth, env, store, now);
      && |o.trace| <= 4
      && (|o.trace| >= 1 ==> Present(auth) && o.trace[0] == GetUser(auth.value))
      && (|o.trace| >= 2 ==> SignedIn(v, auth, env) && o.trace[1] == RateCheck(UserOf(v, auth, env)))
      && (|o.trace| >= 3 ==> RateAllowed(v, auth, env, store, now) && o.trace[2].IncrementUsage?)
      && (|o.trace| == 4 ==> QuotaAllowed(k, v, auth, env, store, now) && o.trace[3].AiCall?)
    ensures var o := Respond(k, v, auth, env, store, now);
      && (|o.trace| < 2 ==> o.store == store)
      && (|o.trace| >= 2 ==> o.store == RateLimit.Step(store, UserOf(v, auth, env), now).store)
  {
  }

  /**
   * A 200 is answered exactly when the gateway answered and the extracted
   * span parsed; the response carries what JSON.parse returned for the span
   * of the reply (or of the fallback) under the kind's key.
   */
  lemma SuccessShape(k: Kind, v: Checked<Params>, auth: Option<string>, env: Services,
                     store: RateLimit.Store, now: int)
    ensures var o := Respond(k, v, auth, env, store, now);
      o.response.status == 200 <==>
        && QuotaAllowed(k, v, auth, env, store, now)
        && var reply := env.complete(Chat(k, v.value));
           reply.AiAnswered? && env.parse(ReplyJsonText(k, reply.content)).Some?
    ensures var o := Respond(k, v, auth, env, store, now);
      o.response.status == 200 ==>
        var reply := env.complete(Chat(k, v.value));
        reply.AiAnswered? && o.response.payload == Success(k, env.parse(ReplyJsonText(k, reply.content)).value)
  {
  }

  /** Every answer is one of the statuses the handler writes, and only a 200 carries no error. */
  lemma StatusCodes(k: Kind, v: Checked<Params>, auth: Option<string>, env: Services,
                    store: RateLimit.Store, now: int)
    ensures Respond(k, v, auth, env, store, now).response.status in {200, 400, 401, 403, 429, 500}
    ensures Respond(k, v, auth, env, store, now).response.status != 200 <==>
              Respond(k, v, auth, env, store, now).response.payload.ErrorBody?
  {
  }

  /** A body that cannot be read is a 500 before anything else happens. */
  lemma UnreadableBody(k: Kind, req: Request, env: Services, store: RateLimit.Store, now: int)
    requires req.body.None?
    ensures Handle(k, req, env, store, now) == Outcome(Response(500, ErrorBody(Internal)), store, [])
  {
  }

  /**
   * When the gateway is asked, the request it gets carries the sanitized
   * fields of the body: subject and topic (or topics) for the generators,
   * the text for the note processor.
   */
  lemma PromptFromSanitizedFields(k: Kind, req: Request, env: Services, store: RateLimit.Store, now: int)
    requires req.body.Some?
    ensures var o := Handle(k, req, env, store, now);
      |o.trace| == 4 ==>
        && o.trace[3].AiCall? && o.trace[3].chat.kind == k
        && match o.trace[3].chat.params
           case McqInput(p) =>
             Get(req.body.value, "subject").Str? && p.subject == Sanitize(Get(req.body.value, "subject").s)
             && Get(req.body.value, "topic").Str? && p.topic == Sanitize(Get(req.body.value, "topic").s)
           case PaperInput(p) =>
             Get(req.body.value, "subject").Str? && p.subject == Sanitize(Get(req.body.value, "subject").s)
             && Get(req.body.value, "topics").Str? && p.topics == Sanitize(Get(req.body.value, "topics").s)
           case VoiceInput(t) =>
             Get(req.body.value, "text").Str? && t == Sanitize(Get(req.body.value, "text").s)
  {
    var body := req.body.value;
    var v := ValidateBody(k, body);
    var o := Respond(k, v, req.authorization, env, store, now);
    CallOrder(k, v, req.authorization, env, store, now);
    if |o.trace| == 4 {
      GatewayOnlyAfterQuota(k, v, req.authorization, env, store, now);
      assert o.trace[3] == AiCall(Chat(k, v.value));
      match k {
        case Mcq => McqBodyAccepted(body, v.value.mcq);
        case Paper => PaperBodyAccepted(body, v.value.paper);
        case Voice => VoiceBodyAccepted(body);
      }
    }
  }

  /** With no content, MCQ generation parses "[]" and the others "{}". */
  lemma ReplyFallbacks(k: Kind)
    ensures ReplyJsonText(k, None) == Fallback(k)
    ensures ReplyJsonText(k, Some("")) == Fallback(k)
  {
    var f := Fallback(k);
    assert f[0] == Open(k) && f[1] == Close(k) && |f| == 2;
    assert FirstIndex(f, Open(k)) == Some(0);
    assert LastIndex(f, Close(k)) == Some(1);
    assert f[0..2] == f;
  }

  /** One isolate of an edge function: its kind and its module-level rate-limit map. */
  class EdgeFunction {
    const kind: Kind
    const limiter: RateLimit.RateLimiter

    constructor (kind: Kind)
      ensures this.kind == kind && fresh(limiter) && limiter.store == map[]
    {
      this.kind := kind;
      limiter := new RateLimit.RateLimiter();
    }

    /** serve's callback: answers one request, updating the limiter in place. */
    method Serve(req: Request, env: Services, now: int) returns (res: Response, trace: seq<Event>)
      modifies limiter
      ensures Handle(kind, req, env, old(limiter.store), now) == Outcome(res, limiter.store, trace)
    {
      if req.body.None? {
        return Refuse(Internal), [];
      }
      var checked := ValidateBody(kind, req.body.value);
      res, trace := Proceed(checked, req.authorization, env, now);
    }

    /** The handler's steps after the body's fields were checked. */
    method Proceed(v: Checked<Params>, auth: Option<string>, env: Services, now: int)
      returns (res: Response, trace: seq<Event>)
      modifies limiter
      ensures Respond(kind, v, auth, env, old(limiter.store), now) == Outcome(res, limiter.store, trace)
    {
      trace := [];
      if v.Invalid? {
        return Refuse(BadField(v.error)), trace;
      }
      if env.apiKey == "" {
        return Refuse(Internal), trace;
      }
      if !Present(auth) {
        return Refuse(AuthenticationRequired), trace;
      }
      var user := env.getUser(auth.value);
      trace := trace + [GetUser(auth.value)];
      if user.None? {
        return Refuse(InvalidAuthentication), trace;
      }
      var userId := user.value;
      var allowed := limiter.Check(userId, now);
      trace := trace + [RateCheck(userId)];
      if !allowed {
        return Refuse(TooManyRequests), trace;
      }
      var usage := env.incrementUsage(userId, UsageType(kind));
      trace := trace + [IncrementUsage(userId, UsageType(kind))];
      if usage.failed || !usage.allowed {
        return Refuse(UsageLimitExceeded), trace;
      }
      var chat := Chat(kind, v.value);
      var reply := env.complete(chat);
      trace := trace + [AiCall(chat)];
      if reply.AiFailed? {
        return Refuse(Internal), trace;
      }
      var parsed := env.parse(ReplyJsonText(kind, reply.content));
      if parsed.None? {
        return Refuse(Internal), trace;
      }
      return Response(200, Success(kind, parsed.value)), trace;
    }
  }
}
