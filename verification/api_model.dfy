/**
  `Velocity::Instance::APIModel` and its subclasses: each turns a Ruby-level
  operation into a Velocity function name (`prefix-operation`) and forwards
  it, with its parameters, to `Instance#call`. The object handles are plain
  values; the session a handle refers to is passed in explicitly.
 */
module ApiModel {
  import opened Wrappers
  import opened Monkeypatches
  import opened Velocity

  /** A search collection handle (`SearchCollection`), named on the server. */
  datatype Collection = Collection(name: string)

  /** The API models; the base class has no prefix. */
  datatype Model =
    | BaseModel
    | QueryModel
    | CollectionModel(collection: Collection)
    | CrawlerModel(collection: Collection)
    | IndexerModel(collection: Collection)
    | DictionaryModel(dictionary: string)

  const CollectionPrefix := "search-collection"
  const CollectionKey := Sym("collection")
  const DictionaryKey := Sym("dictionary")

  /** `APIModel#prefix` and its overrides. */
  function Prefix(m: Model): (r: Option<string>)
    ensures r.None? <==> m.BaseModel?
    ensures m.QueryModel? ==> r == Some("query")
    ensures m.CollectionModel? ==> r == Some("search-collection")
    ensures m.CrawlerModel? ==> r == Some("search-collection-crawler")
    ensures m.IndexerModel? ==> r == Some("search-collection-indexer")
    ensures m.DictionaryModel? ==> r == Some("dictionary")
  {
    assert CollectionPrefix + "-crawler" == "search-collection-crawler";
    assert CollectionPrefix + "-indexer" == "search-collection-indexer";
    match m
    case BaseModel => None
    case QueryModel => Some("query")
    case CollectionModel(_) => Some(CollectionPrefix)
    // `collection.prefix`, which is the SearchCollection prefix
    case CrawlerModel(_) => Some(CollectionPrefix + "-crawler")
    case IndexerModel(_) => Some(CollectionPrefix + "-indexer")
    case DictionaryModel(_) => Some("dictionary")
  }

  /** The prefix as `Array#join` renders it: `nil` becomes the empty string. */
  function PrefixText(m: Model): string {
    match Prefix(m)
    case None => ""
    case Some(p) => p
  }

  /** `APIModel#resolve`: `[prefix, operation].join '-'`; the operation is not dasherized. */
  function Resolve(m: Model, operation: Name): (r: string)
    ensures |r| == |PrefixText(m)| + 1 + |operation.text|
    ensures r[..|PrefixText(m)|] == PrefixText(m)
    ensures r[|PrefixText(m)|] == '-'
    ensures r[|PrefixText(m)| + 1..] == operation.text
  {
    PrefixText(m) + "-" + operation.text
  }

  /** Distinct operations resolve to distinct function names, and a String and a Symbol with the same text resolve alike. */
  lemma ResolveInjective(m: Model, a: Name, b: Name)
    ensures Resolve(m, a) == Resolve(m, b) <==> a.text == b.text
  {
  }

  /** The indexer's `full_merge`, when it reaches `resolve` by name, keeps its underscore. */
  lemma ResolveKeepsUnderscores(c: Collection)
    ensures Resolve(IndexerModel(c), Sym("full_merge")) != Resolve(IndexerModel(c), Str(Dasherize("full_merge")))
  {
  }

  /** `APIModel#dasherize`: `to_s.downcase.gsub(/_/, '-')`, the String rule again. */
  function ModelDasherize(name: Name): (r: string)
    ensures r == Dasherize(name.text)
  {
    GsubOneCharIsTr(Downcase(name.text), '_', '-');
    Gsub(Downcase(name.text), '_', "-")
  }

  /**
    The explicit dispatch that replaces `method_missing`: call the resolved
    function with the splatted arguments on the model's session.
   */
  function Invoke(inst: Instance, transport: Transport, m: Model, operation: Name, args: seq<Arg>): (r: CallResult)
    ensures Settled(r, inst, transport)
    ensures r.sent.Some? <==> Configured(inst) && (args == [] || args[0].HashArg?)
    ensures r.sent.Some? && args == [] ==> Carries(r.sent.value, inst, Resolve(m, operation), map[])
    ensures r.sent.Some? && args != [] ==> Carries(r.sent.value, inst, Resolve(m, operation), args[0].hash)
    ensures Configured(inst) && args != [] && !args[0].HashArg? ==> r.outcome == Failure(ArgumentsNotAHash)
  {
    Call(inst, transport, Resolve(m, operation), Positional(args))
  }

  /**
    `APIModel#method_missing` as written: `@instance.call resolve(function), args`.
    Crawler and Indexer replace `initialize` without setting `@instance`, so
    there the receiver is nil and nothing is sent.
   */
  function MethodMissing(inst: Instance, transport: Transport, m: Model, operation: Name, args: seq<Arg>): (r: CallResult)
    ensures m.CrawlerModel? || m.IndexerModel? ==> r.outcome == Failure(NilReceiver) && r.sent.None? && r.instance == inst
    ensures !(m.CrawlerModel? || m.IndexerModel?) ==> r == Invoke(inst, transport, m, operation, args)
  {
    match m
    case CrawlerModel(_) => CallResult(Failure(NilReceiver), inst, None)
    case IndexerModel(_) => CallResult(Failure(NilReceiver), inst, None)
    case _ => Call(inst, transport, Resolve(m, operation), Positional(args))
  }

  /** A service passthrough on a configured session never reaches the server, while the explicit dispatch sends it. */
  lemma ServicePassthroughFails(inst: Instance, transport: Transport, c: Collection, operation: Name)
    requires Configured(inst)
    ensures MethodMissing(inst, transport, CrawlerModel(c), operation, []).sent.None?
    ensures Invoke(inst, transport, CrawlerModel(c), operation, []).sent.Some?
    ensures Carries(Invoke(inst, transport, CrawlerModel(c), operation, []).sent.value,
                    inst, "search-collection-crawler-" + operation.text, map[])
  {
  }

  /** The Query operations. */
  datatype QueryKind = Search | Browse | SimilarDocuments

  function QueryOperation(kind: QueryKind): string {
    match kind
    case Search => "search"
    case Browse => "browse"
    case SimilarDocuments => "similar-documents"
  }

  /** `Query#search`, `#browse` and `#similar_documents`: the arguments go to `call` as given. */
  function QueryCall(inst: Instance, transport: Transport, kind: QueryKind, args: Args): (r: CallResult)
    ensures Settled(r, inst, transport)
    ensures r.sent.Some? <==> Configured(inst) && NormalizeArgs(args).Success?
    ensures r.sent.Some? ==> Carries(r.sent.value, inst, "query-" + QueryOperation(kind), NormalizeArgs(args).value)
  {
    Call(inst, transport, Resolve(QueryModel, Str(QueryOperation(kind))), args)
  }

  /** `SearchCollection#status`: the parameters are exactly the collection's name. */
  function CollectionStatus(inst: Instance, transport: Transport, c: Collection): (r: CallResult)
    ensures Settled(r, inst, transport)
    ensures r.sent.Some? <==> Configured(inst)
    ensures r.sent.Some? ==> Carries(r.sent.value, inst, "search-collection-status", map[CollectionKey := Text(c.name)])
    ensures r.sent.Some? ==> r.sent.value.params.Keys == BaseKeys + {FunctionKey, CollectionKey}
  {
    Call(inst, transport, Resolve(CollectionModel(c), Str("status")), Keyword(map[CollectionKey := Text(c.name)]))
  }

  /** A collection service: a crawler or an indexer of a collection. */
  predicate IsService(m: Model) {
    m.CrawlerModel? || m.IndexerModel?
  }

  /** `CollectionService#act`: the caller's options, with `:collection` set to the collection's name. */
  function Act(inst: Instance, transport: Transport, m: Model, action: string, options: Params): (r: CallResult)
    requires IsService(m)
    ensures Settled(r, inst, transport)
    ensures r.sent.Some? <==> Configured(inst)
    ensures r.sent.Some? ==> Carries(r.sent.value, inst, Resolve(m, Str(action)), options[CollectionKey := Text(m.collection.name)])
    ensures r.sent.Some? ==> r.sent.value.params[CollectionKey] == Text(m.collection.name)
    ensures r.sent.Some? ==> forall k :: k in options && k != CollectionKey ==> r.sent.value.params[k] == options[k]
  {
    Call(inst, transport, Resolve(m, Str(action)), Keyword(options[CollectionKey := Text(m.collection.name)]))
  }

  /** The actions of a collection service: start, stop and restart for both, full merge for the indexer. */
  datatype ServiceAction = Start | Stop | Restart | FullMerge

  /** The action name each method hands to `act`. */
  function ActionName(action: ServiceAction): string {
    match action
    case Start => "start"
    case Stop => "stop"
    case Restart => "restart"
    case FullMerge => "full-merge"
  }

  /** `CollectionService#start`, `#stop`, `#restart` and `Indexer#full_merge`. */
  function Control(inst: Instance, transport: Transport, m: Model, action: ServiceAction, options: Params): (r: CallResult)
    requires IsService(m)
    requires action.FullMerge? ==> m.IndexerModel?
    ensures Settled(r, inst, transport)
    ensures r.sent.Some? <==> Configured(inst)
    ensures r.sent.Some? ==> Carries(r.sent.value, inst, PrefixText(m) + "-" + ActionName(action), options[CollectionKey := Text(m.collection.name)])
    ensures r.sent.Some? && action.FullMerge? && FunctionKey !in options
            ==> r.sent.value.params[FunctionKey] == Text("search-collection-indexer-full-merge")
  {
    FullMergeFunctionName(m.collection);
    Act(inst, transport, m, ActionName(action), options)
  }

  /** The Velocity function `Indexer#full_merge` names. */
  lemma FullMergeFunctionName(c: Collection)
    ensures PrefixText(IndexerModel(c)) + "-" + ActionName(FullMerge) == "search-collection-indexer-full-merge"
  {
  }

  /** `Dictionary#act`: the arguments, with `:dictionary` set to the dictionary's name. */
  function DictionaryAct(inst: Instance, transport: Transport, d: string, action: Name, args: Params): (r: CallResult)
    ensures Settled(r, inst, transport)
    ensures r.sent.Some? <==> Configured(inst)
    ensures r.sent.Some? ==> Carries(r.sent.value, inst, "dictionary-" + action.text, args[DictionaryKey := Text(d)])
    ensures r.sent.Some? ==> r.sent.value.params[DictionaryKey] == Text(d)
  {
    Call(inst, transport, Resolve(DictionaryModel(d), action), Keyword(args[DictionaryKey := Text(d)]))
  }

  /** The public operations of a Dictionary. */
  datatype DictionaryOp = Status | Build | Create | StopBuild | Delete

  /** The action each operation hands to `act`: `'status-xml'`, or the method's own name (`__method__`, a Symbol). */
  function DictionaryAction(op: DictionaryOp): Name {
    match op
    case Status => Str("status-xml")
    case Build => Sym("build")
    case Create => Sym("create")
    case StopBuild => Sym("stop")
    case Delete => Sym("delete")
  }

  /** Only `create` and `stop` accept arguments from the caller. */
  predicate TakesArguments(op: DictionaryOp) {
    op.Create? || op.StopBuild?
  }

  /**
    `Dictionary#status`, `#build`, `#create`, `#stop` and `#delete` as written.
    `args` is what the caller passed to `create` or `stop`; both drop it.
   */
  function DictionaryOperation(inst: Instance, transport: Transport, d: string, op: DictionaryOp, args: Params): (r: CallResult)
    ensures Settled(r, inst, transport)
    ensures r.sent.Some? <==> Configured(inst)
    ensures r.sent.Some? ==> Carries(r.sent.value, inst, "dictionary-" + DictionaryAction(op).text, map[DictionaryKey := Text(d)])
    ensures r.sent.Some? ==> r.sent.value.params.Keys == BaseKeys + {FunctionKey, DictionaryKey}
  {
    assert map[][DictionaryKey := Text(d)] == map[DictionaryKey := Text(d)];
    DictionaryAct(inst, transport, d, DictionaryAction(op), map[])
  }

  /** The dictionary operations with `create` and `stop` forwarding their arguments, so that `:based_on` and `:kill` reach the server. */
  function DictionaryOperationForwarding(inst: Instance, transport: Transport, d: string, op: DictionaryOp, args: Params): (r: CallResult)
    ensures Settled(r, inst, transport)
    ensures r.sent.Some? <==> Configured(inst)
    ensures r.sent.Some? && TakesArguments(op) ==>
              Carries(r.sent.value, inst, "dictionary-" + DictionaryAction(op).text, args[DictionaryKey := Text(d)])
    ensures r.sent.Some? && TakesArguments(op) ==>
              forall k :: k in args && k != DictionaryKey ==> r.sent.value.params[k] == args[k]
    ensures !TakesArguments(op) ==> r == DictionaryOperation(inst, transport, d, op, args)
  {
    DictionaryAct(inst, transport, d, DictionaryAction(op), if TakesArguments(op) then args else map[])
  }

  const BasedOnKey := Sym("based_on")
  const KillKey := Sym("kill")

  /** `dictionary.create(:based_on => other)` sends no `based_on`; the forwarding version sends it. */
  lemma CreateDropsBasedOn(inst: Instance, transport: Transport, d: string, other: string)
    requires Configured(inst)
    ensures BasedOnKey !in DictionaryOperation(inst, transport, d, Create, map[BasedOnKey := Text(other)]).sent.value.params
    ensures DictionaryOperationForwarding(inst, transport, d, Create, map[BasedOnKey := Text(other)]).sent.value.params[BasedOnKey] == Text(other)
  {
  }

  /** `dictionary.stop(:kill => true)` sends no `kill`; the forwarding version sends it. */
  lemma StopDropsKill(inst: Instance, transport: Transport, d: string)
    requires Configured(inst)
    ensures KillKey !in DictionaryOperation(inst, transport, d, StopBuild, map[KillKey := Flag(true)]).sent.value.params
    ensures DictionaryOperationForwarding(inst, transport, d, StopBuild, map[KillKey := Flag(true)]).sent.value.params[KillKey] == Flag(true)
  {
  }
}
