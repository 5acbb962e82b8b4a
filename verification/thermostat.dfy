/**
 * The request-construction layer of the thermostat client.
 *
 * A client is an immutable value: the device's base address and the table
 * from weekday abbreviation to the device's weekday index. Every operation
 * first decides, without touching the network, what it will do: issue one
 * request (a method, a URL and perhaps a JSON body), fail inside its
 * error-catching block before any request, or fail before that block.
 * Perform then runs that plan against an abstract transport, which stands
 * for opening the URL, reading the reply and re-encoding it as JSON text.
 */
module Thermostat {
  import opened Wrappers
  import opened Json
  import opened PyText
  import opened Schedule

  /** The weekday abbreviations, Monday first. */
  const Weekdays: seq<string> := ["mon", "tue", "wed", "thu", "fri", "sat", "sun"]

  datatype Client = Client(urladdress: string, dayNum: map<string, string>)

  /** Constructing the client: the base address as given and the fixed day table. */
  function NewClient(url: string): (c: Client)
    ensures c.urladdress == url
    ensures forall d :: d in c.dayNum <==> d in Weekdays
    ensures forall i :: 0 <= i < |Weekdays| ==> c.dayNum[Weekdays[i]] == [DigitChar(i)]
  {
    Client(url, map["mon" := "0", "tue" := "1", "wed" := "2", "thu" := "3",
                    "fri" := "4", "sat" := "5", "sun" := "6"])
  }

  /** No two weekdays share an index, and every index names exactly one weekday. */
  lemma DayTableIsOneToOne(url: string, d1: string, d2: string)
    requires d1 in NewClient(url).dayNum && d2 in NewClient(url).dayNum
    ensures NewClient(url).dayNum[d1] == NewClient(url).dayNum[d2] <==> d1 == d2
  {
  }

  datatype HttpMethod = Get | Post

  datatype Request = Request(verb: HttpMethod, url: string, body: Option<Value>)

  /** What the client raises or catches. */
  datatype Error =
    | AttributeError(name: string)
    | KeyError(key: string)
    | TypeError
    | ValueError
    | TransportError(reason: string)

  /** What the device, reached through the transport, gives back for one request. */
  datatype Delivery = Delivered(text: string) | Failed(reason: string)

  /** What a method of the client returns: the device's reply as JSON text, or the caught error. */
  datatype Reply = Response(text: string) | Caught(error: Error)

  datatype Outcome = Returned(reply: Reply) | Raised(error: Error)

  /** The requests a call issued, in order, and how the call ended. */
  datatype Effect = Effect(issued: seq<Request>, outcome: Outcome)

  datatype Plan =
    | Issue(request: Request)
    | FailInside(error: Error)
    | FailBefore(error: Error)

  /**
   * Running a plan: a request is handed to the transport exactly once and
   * whatever goes wrong inside the error-catching block is returned, not raised.
   */
  function Perform(p: Plan, send: Request -> Delivery): (e: Effect)
    ensures |e.issued| <= 1
    ensures e.issued != [] <==> p.Issue?
    ensures p.Issue? ==> e.issued == [p.request]
    ensures e.outcome.Raised? <==> p.FailBefore?
    ensures p.FailBefore? ==> e.outcome.error == p.error
    ensures p.FailInside? ==> e.outcome == Returned(Caught(p.error))
    ensures p.Issue? && send(p.request).Delivered? ==>
      e.outcome == Returned(Response(send(p.request).text))
    ensures p.Issue? && send(p.request).Failed? ==>
      e.outcome == Returned(Caught(TransportError(send(p.request).reason)))
  {
    match p
    case Issue(request) =>
      var reply := match send(request)
        case Delivered(text) => Response(text)
        case Failed(reason) => Caught(TransportError(reason));
      Effect([request], Returned(reply))
    case FailInside(error) => Effect([], Returned(Caught(error)))
    case FailBefore(error) => Effect([], Raised(error))
  }

  /** The plan POSTs a JSON object to `url`. */
  predicate PostsObject(p: Plan, url: string)
  {
    && p.Issue?
    && p.request.verb == Post
    && p.request.url == url
    && p.request.body.Some?
    && p.request.body.value.JObj?
  }

  /** The plan GETs `url` with no body. */
  predicate Reads(p: Plan, url: string)
  {
    p.Issue? && p.request == Request(Get, url, None)
  }

  /** The entries of the object a plan POSTs. */
  function Sent(p: Plan): (fs: Fields)
    requires p.Issue? && p.request.body.Some? && p.request.body.value.JObj?
  {
    p.request.body.value.fields
  }

  /** The sent object is exactly `{key: data}`: one entry, no key repeated. */
  predicate SendsOnly(p: Plan, key: string, data: Value)
    requires p.Issue? && p.request.body.Some? && p.request.body.value.JObj?
  {
    DistinctKeys(Sent(p)) && KeySet(Sent(p)) == {key} && Lookup(Sent(p), key) == Some(data)
  }

  function PostObject(url: string, fs: Fields): (p: Plan)
  {
    Issue(Request(Post, url, Some(JObj(fs))))
  }

  /** A one-entry dict `{key: data}`. */
  function Single(key: string, data: Value): (fs: Fields)
    ensures DistinctKeys(fs) && KeySet(fs) == {key} && Lookup(fs, key) == Some(data)
  {
    Put([], key, data)
  }

  /** A two-entry dict display `{k1: v1, k2: v2}`; a repeated key keeps the second value. */
  function Pair(k1: string, v1: Value, k2: string, v2: Value): (fs: Fields)
    ensures DistinctKeys(fs) && KeySet(fs) == {k1, k2}
    ensures Lookup(fs, k2) == Some(v2)
    ensures k1 != k2 ==> Lookup(fs, k1) == Some(v1)
  {
    PutLookup(Single(k1, v1), k2, v2, k1);
    PutLookup(Single(k1, v1), k2, v2, k2);
    PutDistinct(Single(k1, v1), k2, v2);
    Put(Single(k1, v1), k2, v2)
  }

  /**
   * `t_setpoint(data, point, tmode='')`: POST to the base address; the object
   * holds only `point: data` when `tmode` is the empty text, and otherwise
   * also `"tmode": tmode`.
   */
  function SetpointPlan(c: Client, data: Value, point: string, tmode: Value): (p: Plan)
    ensures PostsObject(p, c.urladdress) && DistinctKeys(Sent(p))
    ensures Lookup(Sent(p), point) == Some(data)
    ensures tmode == JStr("") ==> KeySet(Sent(p)) == {point}
    ensures tmode != JStr("") ==> KeySet(Sent(p)) == {"tmode", point}
    ensures tmode != JStr("") && point != "tmode" ==> Lookup(Sent(p), "tmode") == Some(tmode)
  {
    if tmode == JStr("") then PostObject(c.urladdress, Single(point, data))
    else PostObject(c.urladdress, Pair("tmode", tmode, point, data))
  }

  /** `t_cool(data)`: POST `{"tmode": 2, "t_cool": data}` to the base address. */
  function CoolPlan(c: Client, data: Value): (p: Plan)
    ensures PostsObject(p, c.urladdress)
    ensures DistinctKeys(Sent(p)) && KeySet(Sent(p)) == {"tmode", "t_cool"}
    ensures Lookup(Sent(p), "tmode") == Some(JInt(2)) && Lookup(Sent(p), "t_cool") == Some(data)
  {
    PostObject(c.urladdress, Pair("tmode", JInt(2), "t_cool", data))
  }

  /** `t_heat(data)`: POST `{"tmode": 1, "t_heat": data}` to the base address. */
  function HeatPlan(c: Client, data: Value): (p: Plan)
    ensures PostsObject(p, c.urladdress)
    ensures DistinctKeys(Sent(p)) && KeySet(Sent(p)) == {"tmode", "t_heat"}
    ensures Lookup(Sent(p), "tmode") == Some(JInt(1)) && Lookup(Sent(p), "t_heat") == Some(data)
  {
    PostObject(c.urladdress, Pair("tmode", JInt(1), "t_heat", data))
  }

  /** `over(data)`: POST `{"override": data}` to the base address. */
  function OverridePlan(c: Client, data: Value): (p: Plan)
    ensures PostsObject(p, c.urladdress) && SendsOnly(p, "override", data)
  {
    PostObject(c.urladdress, Single("override", data))
  }

  /** `hold(data)`: POST `{"hold": data}` to the base address. */
  function HoldPlan(c: Client, data: Value): (p: Plan)
    ensures PostsObject(p, c.urladdress) && SendsOnly(p, "hold", data)
  {
    PostObject(c.urladdress, Single("hold", data))
  }

  /** `fmode(data)`: POST `{"fmode": data}` to the base address. */
  function FanModePlan(c: Client, data: Value): (p: Plan)
    ensures PostsObject(p, c.urladdress) && SendsOnly(p, "fmode", data)
  {
    PostObject(c.urladdress, Single("fmode", data))
  }

  /** `mode(data)`: POST `{"tmode": data}` to the base address. */
  function ModePlan(c: Client, data: Value): (p: Plan)
    ensures PostsObject(p, c.urladdress) && SendsOnly(p, "tmode", data)
  {
    PostObject(c.urladdress, Single("tmode", data))
  }

  /** The setpoint writes of fixed mode and the one-field writes are all instances of `t_setpoint`. */
  lemma WritesAreSetpoints(c: Client, data: Value)
    ensures CoolPlan(c, data) == SetpointPlan(c, data, "t_cool", JInt(2))
    ensures HeatPlan(c, data) == SetpointPlan(c, data, "t_heat", JInt(1))
    ensures OverridePlan(c, data) == SetpointPlan(c, data, "override", JStr(""))
    ensures HoldPlan(c, data) == SetpointPlan(c, data, "hold", JStr(""))
    ensures FanModePlan(c, data) == SetpointPlan(c, data, "fmode", JStr(""))
    ensures ModePlan(c, data) == SetpointPlan(c, data, "tmode", JStr(""))
  {
  }

  /**
   * `model()` as written: it reads an attribute the client never sets, before
   * its error-catching block, so it raises on every call.
   */
  function DeviceModelAsWritten(c: Client): (p: Plan)
    ensures p.FailBefore? && p.error.AttributeError?
  {
    FailBefore(AttributeError("address"))
  }

  /** Whatever the client and the transport, `model()` as written issues nothing and raises. */
  lemma DeviceModelAlwaysRaises(c: Client, send: Request -> Delivery)
    ensures Perform(DeviceModelAsWritten(c), send) == Effect([], Raised(AttributeError("address")))
  {
  }

  /** `model()` with the base address the other operations use: GET base + "/model". */
  function DeviceModelPlan(c: Client): (p: Plan)
    ensures Reads(p, c.urladdress + "/model")
  {
    Issue(Request(Get, c.urladdress + "/model", None))
  }

  /** `tstat()`: GET the base address. */
  function StatusPlan(c: Client): (p: Plan)
    ensures Reads(p, c.urladdress)
  {
    Issue(Request(Get, c.urladdress, None))
  }

  /**
   * `energy_led(data)`: POST `{"energy_led": int(data)}` to base + "/led". The
   * conversion comes before the error-catching block, so a value `int()`
   * rejects makes the call raise instead of returning the error.
   */
  function EnergyLedPlan(c: Client, data: Value): (p: Plan)
    ensures p.Issue? <==> IntOf(data).IntValue?
    ensures !p.Issue? ==> p.FailBefore?
    ensures IntOf(data).WrongType? ==> p == FailBefore(TypeError)
    ensures IntOf(data).BadLiteral? ==> p == FailBefore(ValueError)
    ensures p.Issue? ==>
      PostsObject(p, c.urladdress + "/led") && SendsOnly(p, "energy_led", JInt(IntOf(data).n))
  {
    match IntOf(data)
    case IntValue(n) => PostObject(c.urladdress + "/led", Single("energy_led", JInt(n)))
    case WrongType => FailBefore(TypeError)
    case BadLiteral => FailBefore(ValueError)
  }

  /** `energy_led(2)` and `energy_led("2")` both send `{"energy_led": 2}`. */
  lemma EnergyLedCoercesText(c: Client)
    ensures EnergyLedPlan(c, JStr("2")) == EnergyLedPlan(c, JInt(2))
    ensures SendsOnly(EnergyLedPlan(c, JInt(2)), "energy_led", JInt(2))
  {
    IntOfDecimal(2);
  }

  datatype ProgramKind = Heat | Cool

  function ProgramPath(kind: ProgramKind): (path: string)
  {
    match kind
    case Heat => "/program/heat"
    case Cool => "/program/cool"
  }

  /**
   * `get_heat_pgm(day='')` and `get_cool_pgm(day='')`: GET the whole-week
   * program, or one day's when a day is given; the day goes into the URL as
   * written and is never looked up.
   */
  function GetProgramPlan(c: Client, kind: ProgramKind, day: string): (p: Plan)
    ensures day == "" ==> Reads(p, c.urladdress + ProgramPath(kind))
    ensures day != "" ==> Reads(p, c.urladdress + ProgramPath(kind) + "/" + day)
  {
    if day == "" then Issue(Request(Get, c.urladdress + ProgramPath(kind), None))
    else Issue(Request(Get, c.urladdress + ProgramPath(kind) + "/" + day, None))
  }

  /**
   * `set_heat_pgm(schedules, day='')` and `set_cool_pgm(schedules, day='')`.
   * Without a day the schedules go, unmodified, to the whole-week path. With
   * a day, the day is looked up in the table inside the error-catching block
   * (an unknown day is caught as a KeyError before any request), and the
   * object sent maps the day's index to the list converted from `str(schedules)`;
   * the URL carries the day name, not its index.
   */
  function SetProgramPlan(c: Client, kind: ProgramKind, schedules: Value, day: string): (p: Plan)
    ensures day == "" ==> p == Issue(Request(Post, c.urladdress + ProgramPath(kind), Some(schedules)))
    ensures day != "" && day !in c.dayNum ==> p == FailInside(KeyError(day))
    ensures day != "" && day in c.dayNum ==>
      && PostsObject(p, c.urladdress + ProgramPath(kind) + "/" + day)
      && SendsOnly(p, c.dayNum[day], JArr(ParseSchedule(Str(schedules))))
  {
    var schedule := Str(schedules);
    if day == "" then
      Issue(Request(Post, c.urladdress + ProgramPath(kind), Some(schedules)))
    else if day !in c.dayNum then
      FailInside(KeyError(day))
    else
      PostObject(c.urladdress + ProgramPath(kind) + "/" + day,
           Single(c.dayNum[day], JArr(ParseSchedule(schedule))))
  }

  /** Every operation of the client, with its arguments. */
  datatype Op =
    | Setpoint(data: Value, point: string, tmode: Value)
    | SetCool(data: Value)
    | SetHeat(data: Value)
    | Override(data: Value)
    | Hold(data: Value)
    | DeviceModel
    | Status
    | FanMode(data: Value)
    | OperatingMode(data: Value)
    | EnergyLed(data: Value)
    | GetProgram(kind: ProgramKind, day: string)
    | SetProgram(kind: ProgramKind, schedules: Value, day: string)

  /**
   * The plan of each operation as the client is written: `model()` raises
   * before its error-catching block, `energy_led` raises when `int()`
   * rejects its argument, a single-day program write for an unknown day
   * fails inside the block, and every other call issues its request.
   */
  function PlanOf(c: Client, op: Op): (p: Plan)
    ensures p.FailBefore? <==> op.DeviceModel? || (op.EnergyLed? && !IntOf(op.data).IntValue?)
    ensures p.FailInside? <==> op.SetProgram? && op.day != "" && op.day !in c.dayNum
    ensures p.Issue? ==> (p.request.verb == Get <==> op.Status? || op.GetProgram?)
  {
    match op
    case Setpoint(data, point, tmode) => SetpointPlan(c, data, point, tmode)
    case SetCool(data) => CoolPlan(c, data)
    case SetHeat(data) => HeatPlan(c, data)
    case Override(data) => OverridePlan(c, data)
    case Hold(data) => HoldPlan(c, data)
    case DeviceModel => DeviceModelAsWritten(c)
    case Status => StatusPlan(c)
    case FanMode(data) => FanModePlan(c, data)
    case OperatingMode(data) => ModePlan(c, data)
    case EnergyLed(data) => EnergyLedPlan(c, data)
    case GetProgram(kind, day) => GetProgramPlan(c, kind, day)
    case SetProgram(kind, schedules, day) => SetProgramPlan(c, kind, schedules, day)
  }

  /**
   * Calling an operation of the client with a given transport: the call
   * hands the transport one request, except for the three ways of failing
   * before a request exists.
   */
  function Invoke(c: Client, op: Op, send: Request -> Delivery): (e: Effect)
    ensures |e.issued| <= 1
    ensures e.issued == [] <==>
      || op.DeviceModel?
      || (op.EnergyLed? && !IntOf(op.data).IntValue?)
      || (op.SetProgram? && op.day != "" && op.day !in c.dayNum)
  {
    Perform(PlanOf(c, op), send)
  }

  /** The operations that only read; `model()` would be one, but it never reaches its request. */
  predicate IsRead(op: Op)
  {
    op.Status? || op.GetProgram?
  }

  /** Reads are GETs without a body; every other request is a POST with one. */
  lemma ReadsSendNoBody(c: Client, op: Op)
    ensures PlanOf(c, op).Issue? ==>
      (PlanOf(c, op).request.verb == Get <==> IsRead(op)) &&
      (PlanOf(c, op).request.body.None? <==> IsRead(op))
  {
  }

  /**
   * Only `model()`, always, and `energy_led`, when `int()` rejects its
   * argument, raise; every other failure, of the transport or of a lookup,
   * comes back as the returned value.
   */
  lemma CatchAndReturn(c: Client, op: Op, send: Request -> Delivery)
    ensures Invoke(c, op, send).outcome.Raised? <==>
      op.DeviceModel? || (op.EnergyLed? && !IntOf(op.data).IntValue?)
    ensures PlanOf(c, op).Issue? && send(PlanOf(c, op).request).Failed? ==>
      Invoke(c, op, send).outcome ==
        Returned(Caught(TransportError(send(PlanOf(c, op).request).reason)))
  {
  }

  /** Every call issues at most one request, and reads and whole-week writes always issue theirs. */
  lemma OneRequestPerCall(c: Client, op: Op, send: Request -> Delivery)
    ensures |Invoke(c, op, send).issued| <= 1
    ensures IsRead(op) || (op.SetProgram? && op.day == "") ==> |Invoke(c, op, send).issued| == 1
  {
  }

  /** The reason Python 3's `urlopen` gives when the request body is text rather than bytes. */
  const TextBodyRejected := "POST data should be bytes, an iterable of bytes, or a file object. It cannot be of type str."

  /**
   * With a transport that, like Python 3's `urlopen`, refuses every text body,
   * every write that gets as far as its request returns the caught refusal:
   * only reads can reach the device. The abstract transport folds the
   * TypeError `urlopen` raises into `Failed`, so the returned error is the
   * transport's, carrying the TypeError's message.
   */
  lemma WritesFailOnTextBodies(c: Client, op: Op, send: Request -> Delivery)
    requires forall r: Request :: r.body.Some? ==> send(r) == Failed(TextBodyRejected)
    ensures !IsRead(op) && |Invoke(c, op, send).issued| == 1 ==>
      Invoke(c, op, send).outcome == Returned(Caught(TransportError(TextBodyRejected)))
  {
    ReadsSendNoBody(c, op);
  }

  /**
   * A single-day program write for a day outside the table issues no request
   * and returns the KeyError, whatever the transport would have done.
   */
  lemma UnknownDayIssuesNothing(url: string, kind: ProgramKind, schedules: Value, day: string,
                                send: Request -> Delivery)
    requires day != "" && day !in Weekdays
    ensures Invoke(NewClient(url), SetProgram(kind, schedules, day), send) ==
      Effect([], Returned(Caught(KeyError(day))))
  {
  }

  /** `set_cool_pgm("360,80,480,80", "thu")`: a single-day write whose tokens are all digits. */
  lemma CompactDayWrite(url: string, text: string)
    requires text == "360,80,480,80"
    ensures var p := SetProgramPlan(NewClient(url), Cool, JStr(text), "thu");
      && PostsObject(p, url + "/program/cool/thu")
      && SendsOnly(p, "3", JArr([JInt(360), JInt(80), JInt(480), JInt(80)]))
  {
    assert Weekdays[3] == "thu";
    CompactDigitsBecomeNumbers(text);
  }
}
