/**
  `Velocity::Instance`: the session that checks its configuration, assembles
  the request parameters, hands them to the transport and classifies the XML
  that comes back. The transport is a parameter (a total function from the
  request to the reply); the XML document is reduced to its root element name.
 */
module Velocity {
  import opened Wrappers
  import opened Monkeypatches

  /** A parameter value as the gem passes it on. */
  datatype Value = Text(s: string) | Flag(b: bool) | Number(n: int) | Nil

  /** A Ruby Hash of parameters; a String key and a Symbol key never collide. */
  type Params = map<Name, Value>

  /** One element of the Array that `method_missing` receives as `*args`. */
  datatype Arg = HashArg(hash: Params) | Scalar(value: Value)

  /** The `args` of `Instance#call`: the splatted Array, or a Hash given directly. */
  datatype Args = Positional(items: seq<Arg>) | Keyword(hash: Params)

  /** A parsed response, reduced to the name of its root element (`nil` when it has none). */
  datatype Xml = Xml(root: Option<string>)

  /** What `call` (and the API models above it) can raise. */
  datatype Error =
    | ConfigurationError(message: string)  // ArgumentError raised by sanity_check
    | ArgumentsNotAHash                    // TypeError: Hash#merge given an Array
    | TransportError(reason: string)       // whatever the HTTP client raised
    | MissingRoot                          // NoMethodError: `root` of a document without one
    | ApiException(response: Xml)          // VelocityException
    | NilReceiver                          // NoMethodError: `call` sent to a nil instance

  /** The configuration of a session and the error of its last failed `ping`. */
  datatype Instance = Instance(
    vApp: Option<string>,
    endpoint: Option<string>,
    username: Option<string>,
    password: Option<string>,
    readTimeout: Option<int>,
    openTimeout: Option<int>,
    error: Option<Error>)

  /** The GET request `rest_call` hands to the HTTP client. */
  datatype Request = Request(url: Option<string>, params: Params, timeout: Option<int>, openTimeout: Option<int>)

  /** What the HTTP client gives back: a parsed body, or a raised transport error. */
  datatype Reply = Delivered(doc: Xml) | Fault(reason: string)

  type Transport = Request -> Reply

  /** The result of `call`: what it returned or raised, the session afterwards, and the request it sent, if any. */
  datatype CallResult = CallResult(outcome: Result<Xml, Error>, instance: Instance, sent: Option<Request>)

  const DefaultApp := "api-rest"
  const DefaultReadTimeout := 120
  const DefaultOpenTimeout := 30

  const AppMissing := "You must specify a v.app."
  const UsernameMissing := "You must specify a username."
  const PasswordMissing := "You must specify a password."
  const EndpointMissing := "You must specify an endpoint."

  const AppKey := Str("v.app")
  const UsernameKey := Str("v.username")
  const PasswordKey := Str("v.password")
  const FunctionKey := Str("v.function")
  const BaseKeys: set<Name> := {AppKey, UsernameKey, PasswordKey}

  const ExceptionTag := "exception"
  const PongTag := "pong"

  /** `Instance#initialize`: v.app and both timeouts have defaults, the rest does not. */
  function NewInstance(vApp: Option<string>, endpoint: Option<string>, username: Option<string>,
                       password: Option<string>, readTimeout: Option<int>, openTimeout: Option<int>): (r: Instance)
    ensures r.vApp.Some? && r.readTimeout.Some? && r.openTimeout.Some?
    ensures vApp.None? ==> r.vApp == Some(DefaultApp)
    ensures readTimeout.None? ==> r.readTimeout == Some(DefaultReadTimeout)
    ensures openTimeout.None? ==> r.openTimeout == Some(DefaultOpenTimeout)
    ensures vApp.Some? ==> r.vApp == vApp
    ensures readTimeout.Some? ==> r.readTimeout == readTimeout
    ensures openTimeout.Some? ==> r.openTimeout == openTimeout
    ensures r.endpoint == endpoint && r.username == username && r.password == password
    ensures r.error.None?
    ensures SanityCheck(r).None? <==> endpoint.Some? && username.Some? && password.Some?
  {
    Instance(
      if vApp.Some? then vApp else Some(DefaultApp),
      endpoint, username, password,
      if readTimeout.Some? then readTimeout else Some(DefaultReadTimeout),
      if openTimeout.Some? then openTimeout else Some(DefaultOpenTimeout),
      None)
  }

  /** The fields `sanity_check` inspects, in the order it inspects them. */
  function RequiredFields(inst: Instance): seq<Option<string>> {
    [inst.vApp, inst.username, inst.password, inst.endpoint]
  }

  lemma RequiredFieldsInOrder(inst: Instance)
    ensures |RequiredFields(inst)| == 4
    ensures RequiredFields(inst)[0] == inst.vApp && RequiredFields(inst)[1] == inst.username
    ensures RequiredFields(inst)[2] == inst.password && RequiredFields(inst)[3] == inst.endpoint
    ensures Configured(inst) <==> inst.vApp.Some? && inst.username.Some? && inst.password.Some? && inst.endpoint.Some?
  {
  }

  /** The message for each of `RequiredFields`, in the same order. */
  const MissingMessages: seq<string> := [AppMissing, UsernameMissing, PasswordMissing, EndpointMissing]

  /** Every field a call needs is set. */
  predicate Configured(inst: Instance) {
    forall i :: 0 <= i < |RequiredFields(inst)| ==> RequiredFields(inst)[i].Some?
  }

  /** `Instance#sanity_check`: the error it raises, if any. */
  function SanityCheck(inst: Instance): (r: Option<Error>)
    ensures r.None? <==> Configured(inst)
    ensures forall i :: 0 <= i < |RequiredFields(inst)| && RequiredFields(inst)[i].None?
                        && (forall j :: 0 <= j < i ==> RequiredFields(inst)[j].Some?)
                        ==> r == Some(ConfigurationError(MissingMessages[i]))
  {
    RequiredFieldsInOrder(inst);
    if inst.vApp.None? then Some(ConfigurationError(AppMissing))
    else if inst.username.None? then Some(ConfigurationError(UsernameMissing))
    else if inst.password.None? then Some(ConfigurationError(PasswordMissing))
    else if inst.endpoint.None? then Some(ConfigurationError(EndpointMissing))
    else None
  }

  /** The argument normalisation at the head of `call`. */
  function NormalizeArgs(args: Args): (r: Result<Params, Error>)
    ensures r.Failure? <==> args.Positional? && |args.items| > 0 && !args.items[0].HashArg?
    ensures r.Failure? ==> r.error == ArgumentsNotAHash
    ensures args == Positional([]) ==> r == Success(map[])
    ensures args.Positional? && |args.items| > 0 && args.items[0].HashArg? ==> r == Success(args.items[0].hash)
    ensures args.Keyword? ==> r == Success(args.hash)
  {
    match args
    case Positional(items) =>
      if items == [] then Success(map[])
      else if items[0].HashArg? then Success(items[0].hash)
      // the Array is kept, and Hash#merge refuses it
      else Failure(ArgumentsNotAHash)
    // Hash#first is a key/value pair, never a Hash: the Hash is kept as it is
    case Keyword(hash) => Success(hash)
  }

  function OptionalText(o: Option<string>): Value {
    if o.Some? then Text(o.value) else Nil
  }

  /** `Instance#base_parameters`. */
  function BaseParameters(inst: Instance): (r: Params)
    ensures r.Keys == BaseKeys
    ensures r[AppKey] == OptionalText(inst.vApp)
    ensures r[UsernameKey] == OptionalText(inst.username)
    ensures r[PasswordKey] == OptionalText(inst.password)
    ensures Configured(inst) ==> forall k :: k in r ==> r[k].Text?
  {
    RequiredFieldsInOrder(inst);
    map[AppKey := OptionalText(inst.vApp),
        UsernameKey := OptionalText(inst.username),
        PasswordKey := OptionalText(inst.password)]
  }

  /** `base_parameters.merge({'v.function' => function}.merge(args))`. */
  function RequestParameters(inst: Instance, fn: string, args: Params): (p: Params)
    ensures p.Keys == BaseKeys + {FunctionKey} + args.Keys
    ensures forall k :: k in args ==> p[k] == args[k]
    ensures FunctionKey !in args ==> p[FunctionKey] == Text(fn)
    ensures forall k :: k in BaseKeys && k !in args ==> p[k] == BaseParameters(inst)[k]
  {
    BaseParameters(inst) + (map[FunctionKey := Text(fn)] + args)
  }

  /** The request `rest_call` builds: a timeout is passed only when it is set. */
  function RestRequest(inst: Instance, params: Params): (r: Request)
    ensures r.url == inst.endpoint && r.params == params
    ensures r.timeout == inst.readTimeout && r.openTimeout == inst.openTimeout
  {
    Request(inst.endpoint, params, inst.readTimeout, inst.openTimeout)
  }

  /** `req` carries the session's credentials, endpoint and timeouts, the function name and the caller's arguments, the caller winning on every collision. */
  predicate Carries(req: Request, inst: Instance, fn: string, args: Params) {
    && req.url == inst.endpoint
    && req.timeout == inst.readTimeout && req.openTimeout == inst.openTimeout
    && req.params.Keys == BaseKeys + {FunctionKey} + args.Keys
    && (forall k :: k in args ==> req.params[k] == args[k])
    && (FunctionKey !in args ==> req.params[FunctionKey] == Text(fn))
    && (forall k :: k in BaseKeys && k !in args ==> req.params[k] == BaseParameters(inst)[k])
  }

  /** `VelocityException.exception?`: fails when the document has no root. */
  function IsException(doc: Xml): (r: Result<bool, Error>)
    ensures r.Success? <==> doc.root.Some?
    ensures r.Failure? ==> r.error == MissingRoot
    ensures r.Success? ==> (r.value <==> doc.root == Some(ExceptionTag))
  {
    match doc.root
    case None => Failure(MissingRoot)
    case Some(name) => Success(name == ExceptionTag)
  }

  /** A reply that `call` returns rather than raises. */
  predicate Accepted(reply: Reply) {
    reply.Delivered? && reply.doc.root.Some? && reply.doc.root != Some(ExceptionTag)
  }

  /**
    How `call` settles: it returns an accepted document and clears the recorded
    error; otherwise it raises, and leaves the session as it was. Nothing is sent
    when the configuration is incomplete (the first missing field's error) or
    the arguments are not a Hash; a sent request raises the transport's error,
    `NoMethodError` for a document without a root, or the `exception` document.
   */
  predicate Settled(r: CallResult, inst: Instance, transport: Transport) {
    && (r.outcome.Success? <==> r.sent.Some? && Accepted(transport(r.sent.value)))
    && (r.outcome.Success? ==> transport(r.sent.value) == Delivered(r.outcome.value))
    && r.instance == (if r.outcome.Success? then inst.(error := None) else inst)
    && (r.sent.None? ==> r.outcome == Failure(if Configured(inst) then ArgumentsNotAHash else SanityCheck(inst).value))
    && (r.sent.Some? && transport(r.sent.value).Fault?
        ==> r.outcome == Failure(TransportError(transport(r.sent.value).reason)))
    && (r.sent.Some? && transport(r.sent.value) == Delivered(Xml(None)) ==> r.outcome == Failure(MissingRoot))
    && (r.sent.Some? && transport(r.sent.value) == Delivered(Xml(Some(ExceptionTag)))
        ==> r.outcome == Failure(ApiException(Xml(Some(ExceptionTag)))))
  }

  /** `Instance#call`. */
  function Call(inst: Instance, transport: Transport, fn: string, args: Args): (r: CallResult)
    ensures Settled(r, inst, transport)
    ensures SanityCheck(inst).Some? ==> r.outcome == Failure(SanityCheck(inst).value) && r.sent.None?
    ensures r.sent.Some? <==> Configured(inst) && NormalizeArgs(args).Success?
    ensures Configured(inst) && NormalizeArgs(args).Failure? ==> r.outcome == Failure(ArgumentsNotAHash)
    ensures r.sent.Some? ==> Carries(r.sent.value, inst, fn, NormalizeArgs(args).value)
    ensures r.sent.Some? && transport(r.sent.value).Fault? ==> r.outcome == Failure(TransportError(transport(r.sent.value).reason))
    ensures r.sent.Some? && transport(r.sent.value) == Delivered(Xml(None)) ==> r.outcome == Failure(MissingRoot)
    ensures r.sent.Some? && transport(r.sent.value) == Delivered(Xml(Some(ExceptionTag)))
            ==> r.outcome == Failure(ApiException(Xml(Some(ExceptionTag))))
  {
    match SanityCheck(inst)
    case Some(e) => CallResult(Failure(e), inst, None)
    case None =>
      match NormalizeArgs(args)
      case Failure(e) => CallResult(Failure(e), inst, None)
      case Success(hash) =>
        var req := RestRequest(inst, RequestParameters(inst, fn, hash));
        match transport(req)
        case Fault(reason) => CallResult(Failure(TransportError(reason)), inst, Some(req))
        case Delivered(doc) =>
          match IsException(doc)
          case Failure(e) => CallResult(Failure(e), inst, Some(req))
          case Success(true) => CallResult(Failure(ApiException(doc)), inst, Some(req))
          case Success(false) => CallResult(Success(doc), inst.(error := None), Some(req))
  }

  /** The result of `ping`: a boolean and the session afterwards; it never raises. */
  datatype PingResult = PingResult(alive: bool, instance: Instance, sent: Option<Request>)

  /** The request `ping` sends when the session is configured. */
  function PingRequest(inst: Instance): Request {
    RestRequest(inst, RequestParameters(inst, "ping", map[]))
  }

  /** `Instance#ping`. */
  function Ping(inst: Instance, transport: Transport): (r: PingResult)
    ensures r.alive <==> Configured(inst) && transport(PingRequest(inst)) == Delivered(Xml(Some(PongTag)))
    ensures r.sent == (if Configured(inst) then Some(PingRequest(inst)) else None)
    ensures r.instance.(error := inst.error) == inst
    ensures r.alive ==> r.instance.error.None?
    ensures !Configured(inst) ==> r.instance.error == SanityCheck(inst)
    ensures Configured(inst) && transport(PingRequest(inst)).Fault?
            ==> r.instance.error == Some(TransportError(transport(PingRequest(inst)).reason))
    ensures Configured(inst) && transport(PingRequest(inst)) == Delivered(Xml(None))
            ==> r.instance.error == Some(MissingRoot)
    ensures Configured(inst) && transport(PingRequest(inst)) == Delivered(Xml(Some(ExceptionTag)))
            ==> r.instance.error == Some(ApiException(Xml(Some(ExceptionTag))))
    ensures Configured(inst) && Accepted(transport(PingRequest(inst))) ==> r.instance.error.None?
  {
    var c := Call(inst, transport, "ping", Keyword(map[]));
    match c.outcome
    case Success(doc) => PingResult(doc.root == Some(PongTag), c.instance, c.sent)
    case Failure(e) => PingResult(false, c.instance.(error := Some(e)), c.sent)
  }

  /** Nothing reaches the transport when the configuration is incomplete: `call` fails the same way whatever the transport would have answered. */
  lemma CheckPrecedesTransport(inst: Instance, t1: Transport, t2: Transport, fn: string, args: Args)
    requires !Configured(inst)
    ensures Call(inst, t1, fn, args) == Call(inst, t2, fn, args)
    ensures Call(inst, t1, fn, args).outcome.Failure?
    ensures Call(inst, t1, fn, args).outcome.error.ConfigurationError?
  {
  }
}
