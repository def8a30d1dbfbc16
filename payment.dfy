/**
 * The verify-razorpay-payment edge function. A signed-in user posts the
 * Razorpay order id, payment id and signature together with the plan
 * bought; the function recomputes the HMAC-SHA256 signature of
 * `orderId|paymentId` under the Razorpay key secret, writes it as lowercase
 * base 16 (section 8 of RFC 4648) and compares it with the posted one by
 * exact string equality. Only a request that passes the Authorization
 * header, the claims, the field presence, the secret and the signature
 * checks reaches the two database writes: a subscription row, then the
 * profile's plan.
 *
 * Handle is the handler as a function of the request, the outside
 * services, the two tables and the start time; Serve is the same handler
 * run step by step against a Database object.
 */
module Payment {
  import opened Text

  /** An octet of the HMAC digest. */
  newtype byte = x: int | 0 <= x < 256

  /* ---------------------------------------------------------------- */
  /* Base 16                                                           */
  /* ---------------------------------------------------------------- */

  predicate IsLowerHexDigit(c: char) {
    '0' <= c <= '9' || 'a' <= c <= 'f'
  }

  /** The digit of value d in `Number.prototype.toString(16)`: lowercase. */
  function HexDigit(d: int): (c: char)
    requires 0 <= d < 16
    ensures IsLowerHexDigit(c)
    ensures DigitValue(c) == Some(d)
  {
    if d < 10 then (48 + d) as char else (87 + d) as char
  }

  /** The value of a lowercase base-16 digit; anything else has none. */
  function DigitValue(c: char): Option<int> {
    if '0' <= c <= '9' then Some(c as int - 48)
    else if 'a' <= c <= 'f' then Some(c as int - 87)
    else None
  }

  /** `n.toString(16)`: the base-16 digits of n, without leading zeros. */
  function Radix16(n: nat): string
    decreases n
  {
    if n < 16 then [HexDigit(n)] else Radix16(n / 16) + [HexDigit(n % 16)]
  }

  /** `s.padStart(width, c)`. */
  function PadStart(s: string, width: nat, c: char): (r: string)
    ensures |r| == if |s| >= width then |s| else width
    ensures r[|r| - |s|..] == s
    ensures forall k :: 0 <= k < |r| - |s| ==> r[k] == c
  {
    if |s| >= width then s else seq(width - |s|, _ => c) + s
  }

  /** `b.toString(16).padStart(2, '0')` for one digest byte. */
  function ByteHex(b: byte): string {
    PadStart(Radix16(b as nat), 2, '0')
  }

  /** Every byte becomes exactly its high and its low digit, a zero high digit included. */
  lemma ByteHexDigits(b: byte)
    ensures ByteHex(b) == [HexDigit(b as int / 16), HexDigit(b as int % 16)]
  {
    if b < 16 {
      assert Radix16(b as nat) == [HexDigit(b as int)];
      assert HexDigit(0) == '0';
    } else {
      assert Radix16(b as nat / 16) == [HexDigit(b as int / 16)];
    }
  }

  /** `Array.from(bytes).map(ByteHex).join('')`. */
  function HexEncode(bytes: seq<byte>): (r: string)
    ensures |r| == 2 * |bytes|
    ensures forall k :: 0 <= k < |r| ==> IsLowerHexDigit(r[k])
  {
    if bytes == [] then ""
    else
      ByteHexDigits(bytes[0]);
      ByteHex(bytes[0]) + HexEncode(bytes[1..])
  }

  /** Two lowercase base-16 digits read as one byte, high digit first. */
  function DecodePair(high: char, low: char): Option<byte> {
    match (DigitValue(high), DigitValue(low))
    case (Some(h), Some(l)) => if 0 <= 16 * h + l < 256 then Some((16 * h + l) as byte) else None
    case _ => None
  }

  /** Reads lowercase base 16 back into bytes: the inverse of HexEncode. */
  function HexDecode(s: string): Option<seq<byte>>
    decreases |s|
  {
    if s == [] then Some([])
    else if |s| < 2 then None
    else match (DecodePair(s[0], s[1]), HexDecode(s[2..]))
      case (Some(b), Some(rest)) => Some([b] + rest)
      case _ => None
  }

  /** A byte's two digits read back as the byte. */
  lemma PairRoundTrip(b: byte)
    ensures DecodePair(HexDigit(b as int / 16), HexDigit(b as int % 16)) == Some(b)
  {
  }

  /** Two digits that read as a byte are that byte's two digits. */
  lemma PairCanonical(high: char, low: char, b: byte)
    requires DecodePair(high, low) == Some(b)
    ensures HexDigit(b as int / 16) == high && HexDigit(b as int % 16) == low
  {
    var h, l := DigitValue(high).value, DigitValue(low).value;
    assert b as int == 16 * h + l && 0 <= l < 16;
    assert b as int / 16 == h && b as int % 16 == l;
  }

  /** The encoding of a non-empty digest: the first byte's two digits, then the rest. */
  lemma HexEncodeFirst(bytes: seq<byte>)
    requires bytes != []
    ensures HexEncode(bytes) == [HexDigit(bytes[0] as int / 16), HexDigit(bytes[0] as int % 16)] + HexEncode(bytes[1..])
  {
    ByteHexDigits(bytes[0]);
  }

  /** Decoding an encoding gives back the digest. */
  lemma {:induction false} HexRoundTrip(bytes: seq<byte>)
    ensures HexDecode(HexEncode(bytes)) == Some(bytes)
  {
    if bytes != [] {
      var b, s := bytes[0], HexEncode(bytes);
      HexEncodeFirst(bytes);
      assert s[0] == HexDigit(b as int / 16) && s[1] == HexDigit(b as int % 16);
      assert s[2..] == HexEncode(bytes[1..]);
      PairRoundTrip(b);
      HexRoundTrip(bytes[1..]);
      assert [b] + bytes[1..] == bytes;
    }
  }

  /** A text that decodes is the encoding of what it decodes to: only one text spells a digest. */
  lemma {:induction false} HexDecodeCanonical(s: string, bytes: seq<byte>)
    requires HexDecode(s) == Some(bytes)
    ensures HexEncode(bytes) == s
    decreases |s|
  {
    if s != [] {
      var b, rest := DecodePair(s[0], s[1]).value, HexDecode(s[2..]).value;
      assert bytes == [b] + rest;
      assert bytes[0] == b && bytes[1..] == rest;
      HexDecodeCanonical(s[2..], rest);
      PairCanonical(s[0], s[1], b);
      HexEncodeFirst(bytes);
      calc {
        HexEncode(bytes);
        [s[0], s[1]] + HexEncode(rest);
        [s[0], s[1]] + s[2..];
        s;
      }
    }
  }

  /** Two digests with the same text are the same digest. */
  lemma HexEncodeInjective(a: seq<byte>, b: seq<byte>)
    ensures HexEncode(a) == HexEncode(b) <==> a == b
  {
    HexRoundTrip(a);
    HexRoundTrip(b);
  }

  /* ---------------------------------------------------------------- */
  /* The signature                                                     */
  /* ---------------------------------------------------------------- */

  /** The signed text `${orderId}|${paymentId}`. */
  function SignedMessage(orderId: string, paymentId: string): (m: string)
    ensures |m| == |orderId| + 1 + |paymentId|
    ensures m[|orderId|] == '|' && m[..|orderId|] == orderId && m[|orderId| + 1..] == paymentId
  {
    orderId + "|" + paymentId
  }

  /** Order ids without a bar are read back from the message: the pair is determined by it. */
  lemma SignedMessageInjective(o1: string, p1: string, o2: string, p2: string)
    requires '|' !in o1 && '|' !in o2
    ensures SignedMessage(o1, p1) == SignedMessage(o2, p2) <==> o1 == o2 && p1 == p2
  {
  }

  /**
   * HMAC-SHA256 (RFC 2104 over FIPS 180-4) of the UTF-8 encoded message
   * under the UTF-8 encoded secret, as crypto.subtle computes it.
   */
  type Hmac = (string, string) -> seq<byte>

  /** verifySignature: the lowercase hex of the expected digest equals the posted signature. */
  function VerifySignature(orderId: string, paymentId: string, signature: string,
                           secret: string, hmac: Hmac): bool
  {
    HexEncode(hmac(secret, SignedMessage(orderId, paymentId))) == signature
  }

  /**
   * A signature is accepted exactly when it decodes to the expected digest;
   * so one with an uppercase digit, a wrong length or any other character
   * is refused, even when it names the right digest.
   */
  lemma SignatureAcceptance(orderId: string, paymentId: string, signature: string,
                            secret: string, hmac: Hmac)
    ensures VerifySignature(orderId, paymentId, signature, secret, hmac)
            <==> HexDecode(signature) == Some(hmac(secret, SignedMessage(orderId, paymentId)))
    ensures VerifySignature(orderId, paymentId, signature, secret, hmac) ==>
              |signature| == 2 * |hmac(secret, SignedMessage(orderId, paymentId))|
              && forall k :: 0 <= k < |signature| ==> IsLowerHexDigit(signature[k])
  {
    var digest := hmac(secret, SignedMessage(orderId, paymentId));
    HexRoundTrip(digest);
    if HexDecode(signature) == Some(digest) {
      HexDecodeCanonical(signature, digest);
    }
  }

  /* ---------------------------------------------------------------- */
  /* Plans                                                             */
  /* ---------------------------------------------------------------- */

  /** PLAN_AMOUNTS[planId]: undefined for any other plan id. */
  function PlanAmount(planId: string): Option<int> {
    if planId == "monthly" then Some(4900)
    else if planId == "lifetime" then Some(9900)
    else None
  }

  /** expiresAt: one calendar month after the start for `monthly` (`addMonth`), null otherwise. */
  function Expiry(planId: string, startsAt: int, addMonth: int -> int): Option<int> {
    if planId == "monthly" then Some(addMonth(startsAt)) else None
  }

  /** A row of the subscriptions table. */
  datatype Subscription = Subscription(
    userId: string,
    plan: string,
    amount: Option<int>,
    orderId: string,
    paymentId: string,
    startsAt: int,
    expiresAt: Option<int>,
    status: string)

  /** The subscriptions table and the plan column of the profiles table, by user id. */
  datatype Tables = Tables(subscriptions: seq<Subscription>, plans: map<string, string>)

  /** `update({plan}).eq('user_id', userId)`: the matching profile, if any, gets the plan. */
  function UpdatePlans(plans: map<string, string>, userId: string, plan: string): (r: map<string, string>)
    ensures r.Keys == plans.Keys
    ensures forall u :: u in r ==> r[u] == if u == userId then plan else plans[u]
  {
    if userId in plans then plans[userId := plan] else plans
  }

  /* ---------------------------------------------------------------- */
  /* The handler                                                       */
  /* ---------------------------------------------------------------- */

  const BearerPrefix: string := "Bearer "

  /** `s.startsWith(p)`. */
  predicate StartsWith(s: string, p: string) {
    |p| <= |s| && s[..|p|] == p
  }

  /** `s.replace(p, '')`: the first occurrence of p removed. */
  function RemoveFirst(s: string, p: string): string
    decreases |s|
  {
    if StartsWith(s, p) then s[|p|..]
    else if s == [] then s
    else [s[0]] + RemoveFirst(s[1..], p)
  }

  /** The posted JSON, each field None when absent (or not a string). */
  datatype PaymentBody = PaymentBody(
    orderId: Option<string>,
    paymentId: Option<string>,
    signature: Option<string>,
    planId: Option<string>)

  /** The request: its Authorization header and its body (None when req.json() throws). */
  datatype PaymentRequest = PaymentRequest(authorization: Option<string>, body: Option<PaymentBody>)

  /**
   * The outside world: auth.getClaims (token to the `sub` claim, None on an
   * error or no claims), the RAZORPAY_KEY_SECRET variable ("" when unset),
   * the HMAC, the month arithmetic of Date, and whether the database
   * refuses the insert or the update.
   */
  datatype Services = Services(
    claims: string -> Option<string>,
    keySecret: string,
    hmac: Hmac,
    addMonth: int -> int,
    insertFails: Subscription -> bool,
    updateFails: (string, string) -> bool)

  /** A call from the handler to something outside its own code. */
  datatype Event =
    | GetClaims(token: string)
    | Sign(secret: string, message: string)
    | InsertRow(row: Subscription)
    | UpdatePlan(userId: string, plan: string)

  predicate IsWrite(e: Event) {
    e.InsertRow? || e.UpdatePlan?
  }

  /** Why a request was refused, one case per error response. */
  datatype Failure =
    | Unauthorized
    | MissingDetails
    | NotConfigured
    | InvalidSignature
    | SaveFailed
    | UpdateFailed
    | ServerError

  function FailureText(f: Failure): string {
    match f
    case Unauthorized => "Unauthorized"
    case MissingDetails => "Missing payment details"
    case NotConfigured => "Payment gateway not configured"
    case InvalidSignature => "Invalid payment signature"
    case SaveFailed => "Failed to save subscription"
    case UpdateFailed => "Failed to update plan"
    case ServerError => "Internal server error"
  }

  function FailureStatus(f: Failure): int {
    match f
    case Unauthorized => 401
    case MissingDetails => 400
    case NotConfigured => 500
    case InvalidSignature => 400
    case SaveFailed => 500
    case UpdateFailed => 500
    case ServerError => 500
  }

  /** `{error}` or `{success: true, message, plan}`. */
  datatype Payload = ErrorBody(error: Failure) | Upgraded(plan: string)

  function UpgradeMessage(plan: string): string {
    "Successfully upgraded to " + plan + " plan!"
  }

  datatype Response = Response(status: int, payload: Payload)

  function Refuse(f: Failure): Response {
    Response(FailureStatus(f), ErrorBody(f))
  }

  datatype Outcome = Outcome(response: Response, tables: Tables, trace: seq<Event>)

  /** `!x`: a missing or empty field is falsy. */
  predicate Filled(f: Option<string>) {
    f.Some? && f.value != ""
  }

  predicate Complete(body: PaymentBody) {
    Filled(body.orderId) && Filled(body.paymentId) && Filled(body.signature) && Filled(body.planId)
  }

  /** The row the handler inserts. */
  function NewSubscription(userId: string, body: PaymentBody, startsAt: int, env: Services): Subscription
    requires Complete(body)
  {
    var planId := body.planId.value;
    Subscription(userId, planId, PlanAmount(planId), body.orderId.value, body.paymentId.value,
                 startsAt, Expiry(planId, startsAt, env.addMonth), "active")
  }

  /**
   * One request at start time `startsAt`: the Authorization header must
   * start with "Bearer " and its token have claims (401, before the body is
   * read); an unreadable body is the catch-all 500; the rest is Settle.
   */
  function Handle(req: PaymentRequest, env: Services, tables: Tables, startsAt: int): Outcome {
    if req.authorization.None? || !StartsWith(req.authorization.value, BearerPrefix) then
      Outcome(Refuse(Unauthorized), tables, [])
    else
      var token := RemoveFirst(req.authorization.value, BearerPrefix);
      match env.claims(token)
      case None => Outcome(Refuse(Unauthorized), tables, [GetClaims(token)])
      case Some(userId) =>
        if req.body.None? then Outcome(Refuse(ServerError), tables, [GetClaims(token)])
        else
          var o := Settle(userId, req.body.value, env, tables, startsAt);
          o.(trace := [GetClaims(token)] + o.trace)
  }

  /**
   * The handler once the user is known and the body read: fields (400),
   * secret (500), signature (400), then the insert and the profile update,
   * each of which may fail with a 500.
   */
  function Settle(userId: string, body: PaymentBody, env: Services, tables: Tables, startsAt: int): Outcome {
    if !Complete(body) then Outcome(Refuse(MissingDetails), tables, [])
    else if env.keySecret == "" then Outcome(Refuse(NotConfigured), tables, [])
    else
      var sign := [Sign(env.keySecret, SignedMessage(body.orderId.value, body.paymentId.value))];
      if !VerifySignature(body.orderId.value, body.paymentId.value, body.signature.value,
                          env.keySecret, env.hmac) then
        Outcome(Refuse(InvalidSignature), tables, sign)
      else
        var row := NewSubscription(userId, body, startsAt, env);
        var planId := body.planId.value;
        if env.insertFails(row) then Outcome(Refuse(SaveFailed), tables, sign + [InsertRow(row)])
        else
          var inserted := tables.(subscriptions := tables.subscriptions + [row]);
          var trace := sign + [InsertRow(row), UpdatePlan(userId, planId)];
          if env.updateFails(userId, planId) then Outcome(Refuse(UpdateFailed), inserted, trace)
          else Outcome(Response(200, Upgraded(planId)),
                       inserted.(plans := UpdatePlans(tables.plans, userId, planId)), trace)
  }

  /* ---------------------------------------------------------------- */
  /* What the handler guarantees                                       */
  /* ---------------------------------------------------------------- */

  /** The Authorization header is a bearer token with claims. */
  predicate Authenticated(req: PaymentRequest, env: Services) {
    && req.authorization.Some?
    && StartsWith(req.authorization.value, BearerPrefix)
    && env.claims(RemoveFirst(req.authorization.value, BearerPrefix)).Some?
  }

  function UserOf(req: PaymentRequest, env: Services): string
    requires Authenticated(req, env)
  {
    env.claims(RemoveFirst(req.authorization.value, BearerPrefix)).value
  }

  /** Every check before the writes passes. */
  predicate Verified(req: PaymentRequest, env: Services) {
    && Authenticated(req, env)
    && req.body.Some?
    && Complete(req.body.value)
    && env.keySecret != ""
    && VerifySignature(req.body.value.orderId.value, req.body.value.paymentId.value,
                       req.body.value.signature.value, env.keySecret, env.hmac)
  }

  function RowOf(req: PaymentRequest, env: Services, startsAt: int): Subscription
    requires Verified(req, env)
  {
    NewSubscription(UserOf(req, env), req.body.value, startsAt, env)
  }

  /** The token is the header without its "Bearer " prefix. */
  lemma {:induction false} BearerToken(h: string)
    requires StartsWith(h, BearerPrefix)
    ensures RemoveFirst(h, BearerPrefix) == h[7..]
    ensures BearerPrefix + RemoveFirst(h, BearerPrefix) == h
  {
    assert h == h[..7] + h[7..];
  }

  /**
   * Without a bearer header with claims the answer is 401, nothing is
   * written, and the body is never looked at: any other body gets the
   * same outcome.
   */
  lemma UnauthorizedBeforeBody(req: PaymentRequest, env: Services, tables: Tables, startsAt: int,
                               other: Option<PaymentBody>)
    requires !Authenticated(req, env)
    ensures Handle(req, env, tables, startsAt).response == Refuse(Unauthorized)
    ensures Handle(req, env, tables, startsAt).tables == tables
    ensures |Handle(req, env, tables, startsAt).trace| <= 1
    ensures Handle(req.(body := other), env, tables, startsAt) == Handle(req, env, tables, startsAt)
  {
  }

  /** A signed-in request with any missing or empty field is a 400, before the secret or the signature. */
  lemma MissingFieldsRejected(req: PaymentRequest, env: Services, tables: Tables, startsAt: int)
    requires Authenticated(req, env) && req.body.Some?
    ensures Handle(req, env, tables, startsAt).response == Refuse(MissingDetails)
            <==> !Complete(req.body.value)
    ensures !Complete(req.body.value) ==>
              Handle(req, env, tables, startsAt).tables == tables
              && Handle(req, env, tables, startsAt).trace
                 == [GetClaims(RemoveFirst(req.authorization.value, BearerPrefix))]
  {
  }

  /** A missing secret is a 500 and an invalid signature a 400; neither writes anything. */
  lemma RejectedWithoutWrites(req: PaymentRequest, env: Services, tables: Tables, startsAt: int)
    requires Authenticated(req, env) && req.body.Some? && Complete(req.body.value)
    ensures env.keySecret == "" ==> Handle(req, env, tables, startsAt).response == Refuse(NotConfigured)
    ensures env.keySecret != "" && !Verified(req, env) ==>
              Handle(req, env, tables, startsAt).response == Refuse(InvalidSignature)
    ensures !Verified(req, env) ==>
              Handle(req, env, tables, startsAt).tables == tables
              && forall k :: 0 <= k < |Handle(req, env, tables, startsAt).trace| ==>
                   !IsWrite(Handle(req, env, tables, startsAt).trace[k])
  {
  }

  /** No table changes and no write is attempted unless every check before the writes passed. */
  lemma NoWriteUnlessVerified(req: PaymentRequest, env: Services, tables: Tables, startsAt: int)
    ensures var o := Handle(req, env, tables, startsAt);
            (o.tables != tables || exists k :: 0 <= k < |o.trace| && IsWrite(o.trace[k]))
            ==> Verified(req, env)
  {
    var o := Handle(req, env, tables, startsAt);
    if !Verified(req, env) {
      if !Authenticated(req, env) {
        UnauthorizedBeforeBody(req, env, tables, startsAt, req.body);
      } else if req.body.Some? && !Complete(req.body.value) {
        MissingFieldsRejected(req, env, tables, startsAt);
      } else if req.body.Some? {
        RejectedWithoutWrites(req, env, tables, startsAt);
      }
    }
  }

  /**
   * The profile is updated only after the subscription insert succeeded:
   * an update is the last call, right after an accepted insert; a refused
   * insert is a 500 that leaves both tables as they were.
   */
  lemma WriteOrder(req: PaymentRequest, env: Services, tables: Tables, startsAt: int)
    ensures var o := Handle(req, env, tables, startsAt);
            forall k :: 0 <= k < |o.trace| && o.trace[k].UpdatePlan? ==>
              k == |o.trace| - 1 && k >= 1 && o.trace[k - 1].InsertRow?
              && !env.insertFails(o.trace[k - 1].row)
    ensures Verified(req, env) && env.insertFails(RowOf(req, env, startsAt)) ==>
              var o := Handle(req, env, tables, startsAt);
              o.response == Refuse(SaveFailed) && o.tables == tables
              && o.trace[|o.trace| - 1] == InsertRow(RowOf(req, env, startsAt))
              && forall k :: 0 <= k < |o.trace| ==> !o.trace[k].UpdatePlan?
  {
  }

  /**
   * A refused profile update is a 500, but the subscription row stays
   * inserted: the two writes are not one transaction.
   */
  lemma UpdateFailureKeepsSubscription(req: PaymentRequest, env: Services, tables: Tables, startsAt: int)
    requires Verified(req, env) && !env.insertFails(RowOf(req, env, startsAt))
    requires env.updateFails(UserOf(req, env), req.body.value.planId.value)
    ensures Handle(req, env, tables, startsAt).response == Refuse(UpdateFailed)
    ensures Handle(req, env, tables, startsAt).tables
            == Tables(tables.subscriptions + [RowOf(req, env, startsAt)], tables.plans)
  {
  }

  /**
   * The answer is 200 exactly when every check passed and both writes were
   * accepted; it then names the plan asked for, one row was appended and
   * the user's profile (if any) carries that plan. The plan id is only
   * checked for presence, so any non-empty id gets here.
   */
  lemma Upgrade(req: PaymentRequest, env: Services, tables: Tables, startsAt: int)
    ensures Handle(req, env, tables, startsAt).response.status == 200
            <==> Verified(req, env) && !env.insertFails(RowOf(req, env, startsAt))
                 && !env.updateFails(UserOf(req, env), req.body.value.planId.value)
    ensures Handle(req, env, tables, startsAt).response.status == 200 ==>
              var planId := req.body.value.planId.value;
              var o := Handle(req, env, tables, startsAt);
              && o.response.payload == Upgraded(planId)
              && o.tables.subscriptions == tables.subscriptions + [RowOf(req, env, startsAt)]
              && o.tables.plans == UpdatePlans(tables.plans, UserOf(req, env), planId)
  {
    var o := Handle(req, env, tables, startsAt);
    if o.response.status == 200 {
      NoWriteUnlessVerified(req, env, tables, startsAt);
      assert Verified(req, env);
    }
  }

  /**
   * The inserted row: the signed-in user, the plan asked for, the ids
   * posted, status active, the amount of PLAN_AMOUNTS (4900 monthly, 9900
   * lifetime, none for any other id) and an expiry exactly for monthly.
   */
  lemma RowTerms(req: PaymentRequest, env: Services, startsAt: int)
    requires Verified(req, env)
    ensures var row := RowOf(req, env, startsAt);
            var body := req.body.value;
            && row.userId == UserOf(req, env)
            && row.plan == body.planId.value
            && row.orderId == body.orderId.value && row.paymentId == body.paymentId.value
            && row.startsAt == startsAt && row.status == "active"
            && (row.amount == Some(4900) <==> row.plan == "monthly")
            && (row.amount == Some(9900) <==> row.plan == "lifetime")
            && (row.amount.None? <==> row.plan != "monthly" && row.plan != "lifetime")
            && (row.expiresAt.Some? <==> row.plan == "monthly")
  {
  }

  /* ---------------------------------------------------------------- */
  /* The handler as it runs                                            */
  /* ---------------------------------------------------------------- */

  /** The two tables the handler writes. */
  class Database {
    var subscriptions: seq<Subscription>
    var plans: map<string, string>

    constructor (plans: map<string, string>)
      ensures subscriptions == [] && this.plans == plans
    {
      subscriptions := [];
      this.plans := plans;
    }

    function Snapshot(): Tables
      reads this
    {
      Tables(subscriptions, plans)
    }

    /** An accepted insert appends the row. */
    method Insert(row: Subscription)
      modifies this
      ensures subscriptions == old(subscriptions) + [row]
      ensures plans == old(plans)
    {
      subscriptions := subscriptions + [row];
    }

    /** An accepted update sets the plan of the user's profile. */
    method SetPlan(userId: string, plan: string)
      modifies this
      ensures subscriptions == old(subscriptions)
      ensures plans == UpdatePlans(old(plans), userId, plan)
    {
      if userId in plans {
        plans := plans[userId := plan];
      }
    }
  }

  /** Deno.serve's callback: each awaited step in turn, writing to `db`. */
  method Serve(req: PaymentRequest, env: Services, db: Database, startsAt: int)
    returns (res: Response, trace: seq<Event>)
    modifies db
    ensures Handle(req, env, old(db.Snapshot()), startsAt) == Outcome(res, db.Snapshot(), trace)
  {
    trace := [];
    if req.authorization.None? || !StartsWith(req.authorization.value, BearerPrefix) {
      return Refuse(Unauthorized), trace;
    }
    var token := RemoveFirst(req.authorization.value, BearerPrefix);
    var claims := env.claims(token);
    trace := trace + [GetClaims(token)];
    if claims.None? {
      return Refuse(Unauthorized), trace;
    }
    var userId := claims.value;
    if req.body.None? {
      return Refuse(ServerError), trace;
    }
    var body := req.body.value;
    if !Filled(body.orderId) || !Filled(body.paymentId) || !Filled(body.signature) || !Filled(body.planId) {
      return Refuse(MissingDetails), trace;
    }
    var keySecret := env.keySecret;
    if keySecret == "" {
      return Refuse(NotConfigured), trace;
    }
    var orderId, paymentId, planId := body.orderId.value, body.paymentId.value, body.planId.value;
    var isValid := VerifySignature(orderId, paymentId, body.signature.value, keySecret, env.hmac);
    trace := trace + [Sign(keySecret, SignedMessage(orderId, paymentId))];
    if !isValid {
      return Refuse(InvalidSignature), trace;
    }
    var expiresAt: Option<int> := None;
    if planId == "monthly" {
      expiresAt := Some(env.addMonth(startsAt));
    }
    var row := Subscription(userId, planId, PlanAmount(planId), orderId, paymentId,
                            startsAt, expiresAt, "active");
    trace := trace + [InsertRow(row)];
    if env.insertFails(row) {
      return Refuse(SaveFailed), trace;
    }
    db.Insert(row);
    trace := trace + [UpdatePlan(userId, planId)];
    if env.updateFails(userId, planId) {
      return Refuse(UpdateFailed), trace;
    }
    db.SetPlan(userId, planId);
    return Response(200, Upgraded(planId)), trace;
  }
}
