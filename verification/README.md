# Acceleration (Velocity REST client) in Dafny

A model of the pure core of the Acceleration Ruby gem, a thin client for the
Velocity search platform's REST/XML API. A Ruby method call on an API object
(a query, a search collection, its crawler or indexer, a dictionary) becomes a
dashed Velocity function name (`prefix-operation`). That name is merged with the
session's credentials and the caller's parameters, sent through the HTTP
transport, and the XML reply is either returned or raised as an API exception.

- `wrappers.dfy`: `Option` (Ruby `nil`) and `Result` (returned value or raised error).
- `monkeypatches.dfy`: the name codec, i.e. `String#dasherize`/`#dedasherize` and the
  `Symbol` versions. `Name` stands for a Ruby String or Symbol.
- `velocity.dfy`: `Velocity::Instance`. It covers construction, `sanity_check`,
  argument normalisation, the parameter merge, `call`, `ping` and
  `VelocityException.exception?`.
- `api_model.dfy`: `APIModel` and its subclasses. It covers the prefixes,
  `resolve`, `APIModel#dasherize` and the `method_missing` passthrough. An
  explicit `Invoke` replaces `method_missing`. It also covers the query
  operations, collection status, the collection-service actions and the
  dictionary actions.

Modelling choices:
- Hash keys are `Name`s. A String key and a Symbol key with the same text are
  different keys, as in Ruby. So `:collection` and `'v.function'` never
  collide, but a caller's String `'v.function'` does override the function name.
- The `args` of `call` is either the Array that `method_missing` receives or a
  Hash passed directly (`Args`).
- The HTTP transport is a parameter, a total function from the request to the
  reply. The reply is either a parsed document or a raised transport error.
- A parsed document is reduced to the name of its root element, or `nil`.
- Each call returns a `CallResult`. It holds what `call` returned or raised, the
  session afterwards (its `error` slot) and the request that was sent. When no
  request was sent, that field is `None`, which means no I/O happened.
- Object handles hold no session reference. The session is passed to each
  operation.
- `resolve` does not dasherize the operation (velocity.rb:183-185).
  `method_missing` passes the raw method name.
- `sanity_check` rejects only `nil` fields, not empty strings.
- `rest_call` only issues a GET. There is no fallback to POST for long URIs.
- The logged parameters are not masked. The password is printed as given.

## Model

| member | source | states |
|---|---|---|
| Monkeypatches.DowncaseCharwise | lib/acceleration/monkeypatches.rb:12 | `downcase` keeps the length and lower-cases each character on its own (ASCII) |
| Monkeypatches.TrCharwise | lib/acceleration/monkeypatches.rb:19 | one-character `tr` keeps the length and replaces exactly the occurrences of `from`, leaving every other character |
| Monkeypatches.Dasherize | lib/acceleration/monkeypatches.rb:11-13 | the wire name has the input's length, no `_` and no upper-case letter |
| Monkeypatches.Dedasherize | lib/acceleration/monkeypatches.rb:18-20 | same length, no `-`; each `-` becomes `_` and every other character, case included, is kept |
| Monkeypatches.DasherizeCharwise | lib/acceleration/monkeypatches.rb:11-13 | `dasherize` maps each character independently: `_` to `-`, letters lower-cased |
| Monkeypatches.DasherizeFixesWireNames | lib/acceleration/monkeypatches.rb:11-13 | a name with no upper-case letter and no `_` is left unchanged by `dasherize` |
| Monkeypatches.DasherizeIdempotent | lib/acceleration/monkeypatches.rb:11-13 | `dasherize(dasherize(s)) == dasherize(s)` |
| Monkeypatches.DasherizeAbsorbsDedasherize | lib/acceleration/monkeypatches.rb:11-20 | `dasherize(dedasherize(t)) == dasherize(t)` for every string |
| Monkeypatches.WireRoundTrip | lib/acceleration/monkeypatches.rb:11-20 | round trip from the wire side: `dasherize(dedasherize(dasherize(s))) == dasherize(s)` |
| Monkeypatches.WireNameRoundTrip | lib/acceleration/monkeypatches.rb:11-20 | every wire name (lower-case, no `_`) is recovered from its Ruby form |
| Monkeypatches.RubyNameRoundTrip | lib/acceleration/monkeypatches.rb:11-20 | every lower-case Ruby name without `-` is recovered from its wire form |
| Monkeypatches.GsubOneCharIsTr | lib/acceleration/velocity.rb:192 | `gsub(/_/, '-')` is `tr('_', '-')` |
| Monkeypatches.SymbolDasherize | lib/acceleration/monkeypatches.rb:33-35 | `Symbol#dasherize` is the String rule applied to `to_s`, as a Symbol |
| Monkeypatches.SymbolDedasherize | lib/acceleration/monkeypatches.rb:40-42 | `Symbol#dedasherize` is the String rule applied to `to_s`, as a Symbol |
| Monkeypatches.FullMergeExample | lib/acceleration/monkeypatches.rb:11-13 | `dasherize("full_merge") == "full-merge"` |
| Velocity.NewInstance | lib/acceleration/velocity.rb:52-59 | v.app defaults to `api-rest`, timeouts to 120 and 30, and a value that is given is kept; endpoint, username and password are kept as given; a fresh session passes `sanity_check` iff endpoint, username and password were given |
| Velocity.SanityCheck | lib/acceleration/velocity.rb:158-163 | fails iff a required field is nil, with the message of the first nil one in the order v.app, username, password, endpoint |
| Velocity.NormalizeArgs | lib/acceleration/velocity.rb:73-77 | empty Array gives `{}`; an Array whose first element is a Hash gives that Hash; a Hash is kept; any other Array fails (Hash#merge refuses it) |
| Velocity.BaseParameters | lib/acceleration/velocity.rb:102-106 | exactly the keys v.app, v.username, v.password, holding the session's v.app, username and password (nil when unset), all strings once the session is configured |
| Velocity.RestRequest | lib/acceleration/velocity.rb:91-97 | the request goes to the session's endpoint with the given parameters; the read and open timeouts are the session's, absent when unset |
| Velocity.RequestParameters | lib/acceleration/velocity.rb:78 | keys are base + v.function + caller's; caller wins over v.function, which wins over the base values |
| Velocity.IsException | lib/acceleration/velocity.rb:722-724 | true iff the root element is `exception`; raises when there is no root |
| Velocity.Call | lib/acceleration/velocity.rb:70-86 | sanity check first and nothing sent on failure; request carries the merged parameters; returns the document and clears `error` exactly when the reply has a root other than `exception`, otherwise raises and leaves the session |
| Velocity.Ping | lib/acceleration/velocity.rb:115-123 | never raises; true iff configured and the reply root is `pong`; on an error it records that error (configuration, transport, missing root or `exception` reply), on success `error` is cleared |
| Velocity.CheckPrecedesTransport | lib/acceleration/velocity.rb:70-71 | with an incomplete configuration `call` raises a configuration error whatever the transport would answer |
| ApiModel.Prefix | lib/acceleration/velocity.rb:612-625 | Crawler prefix is `search-collection-crawler`, Indexer `search-collection-indexer`; query, search-collection and dictionary as declared; only the base model has none |
| ApiModel.Resolve | lib/acceleration/velocity.rb:183-185 | the function name splits back into prefix, `-` and the operation text, untransformed |
| ApiModel.ResolveInjective | lib/acceleration/velocity.rb:183-185 | two operations resolve to the same name iff their texts are equal |
| ApiModel.ResolveKeepsUnderscores | lib/acceleration/velocity.rb:183-185 | `full_merge` and `full-merge` resolve to different functions: no dasherizing happens |
| ApiModel.ModelDasherize | lib/acceleration/velocity.rb:191-193 | `APIModel#dasherize` is `String#dasherize` of `to_s` |
| ApiModel.Invoke | lib/acceleration/velocity.rb:207-209 | sends `resolve(op)` with the normalised splat arguments; a non-Hash first argument raises without sending; the request uses the session's endpoint and timeouts; it returns, raises and records the error exactly as `call` does (configuration message, transport error, `NoMethodError` for a rootless reply, the `exception` document) |
| ApiModel.MethodMissing | lib/acceleration/velocity.rb:207-209 | as written: on Crawler and Indexer the receiver is nil, nothing is sent; elsewhere it is `Invoke` |
| ApiModel.ServicePassthroughFails | lib/acceleration/velocity.rb:552-556 | on a configured session the crawler passthrough sends nothing while `Invoke` sends `search-collection-crawler-<op>` |
| ApiModel.QueryCall | lib/acceleration/velocity.rb:230-255 | sends `query-search`, `query-browse` or `query-similar-documents` with the caller's arguments; the request uses the session's endpoint and timeouts; it returns, raises and records the error exactly as `call` does (configuration message, transport error, `NoMethodError` for a rootless reply, the `exception` document) |
| ApiModel.CollectionStatus | lib/acceleration/velocity.rb:403-405 | sends `search-collection-status` with exactly `collection` = the collection's name beyond the base keys; the request uses the session's endpoint and timeouts; it returns, raises and records the error exactly as `call` does (configuration message, transport error, `NoMethodError` for a rootless reply, the `exception` document) |
| ApiModel.Act | lib/acceleration/velocity.rb:601-603 | sends `resolve(action)` with the caller's options, `collection` overwritten by the collection's name, every other option kept; the request uses the session's endpoint and timeouts; it returns, raises and records the error exactly as `call` does (configuration message, transport error, `NoMethodError` for a rootless reply, the `exception` document) |
| ApiModel.Control | lib/acceleration/velocity.rb:570-634 | start, stop and restart send `<crawler or indexer prefix>-<action>`, full merge sends `search-collection-indexer-full-merge`; each with the caller's options and the collection name; the request uses the session's endpoint and timeouts; it returns, raises and records the error exactly as `call` does (configuration message, transport error, `NoMethodError` for a rootless reply, the `exception` document) |
| ApiModel.FullMergeFunctionName | lib/acceleration/velocity.rb:632-634 | the indexer's full merge resolves to `search-collection-indexer-full-merge` |
| ApiModel.DictionaryAct | lib/acceleration/velocity.rb:701-703 | sends `dictionary-<action>` with the arguments and `dictionary` always set to the dictionary's name; the request uses the session's endpoint and timeouts; it returns, raises and records the error exactly as `call` does (configuration message, transport error, `NoMethodError` for a rootless reply, the `exception` document) |
| ApiModel.DictionaryOperation | lib/acceleration/velocity.rb:668-699 | as written: status, build, create, stop and delete send `dictionary-status-xml`, `-build`, `-create`, `-stop`, `-delete` with only the dictionary name; the arguments of `create` and `stop` are dropped; the request uses the session's endpoint and timeouts; it returns, raises and records the error exactly as `call` does (configuration message, transport error, `NoMethodError` for a rootless reply, the `exception` document) |
| ApiModel.DictionaryOperationForwarding | lib/acceleration/velocity.rb:679-693 | corrected: `create` and `stop` send the caller's arguments with `dictionary` set to the name; the other operations are unchanged; the request uses the session's endpoint and timeouts; it returns, raises and records the error exactly as `call` does (configuration message, transport error, `NoMethodError` for a rootless reply, the `exception` document) |
| ApiModel.CreateDropsBasedOn | lib/acceleration/velocity.rb:679-685 | `create(:based_on => x)` sends no `based_on`; the corrected version sends it |
| ApiModel.StopDropsKill | lib/acceleration/velocity.rb:687-693 | `stop(:kill => true)` sends no `kill`; the corrected version sends it |

## Left out

- HTTP transport (`rest_call`, RestClient, timeouts): it is network I/O. It is a
  parameter of every call. Only the request handed to it is modelled: endpoint,
  parameters and the timeouts that are set.
- Nokogiri parsing: a reply is already a parsed document, reduced to its root element name.
- XPath accessors: `QueryResponse#results?`, `#documents` and `#file`;
  `Document#contents`, `#content`, `#attribute`, `#attributes` and `#xpath`;
  `Status#crawler`, `#indexer` and `#has_data?`; `ServiceStatus#attributes` and
  `#attribute`; the `CrawlerStatus` converter timings and crawl hops. They only
  pass through to the XML library, and the model has no XML tree.
- `Instance#collections` and `#dictionaries`: the call itself is an ordinary
  `call`, but the handles come from an XPath listing of the reply.
- `SearchCollection.new_from_xml` and `Dictionary.new_from_xml`: they read an XML attribute.
- `VelocityException#api_message` and `#to_s`: the message is the text under the
  root, extracted by XPath. An API exception carries the whole document instead.
- Logging with `puts` (velocity.rb:72, 95): it is output only.
- Unicode case mapping: `downcase` is modelled on ASCII letters only.
- Runtime method synthesis: `method_missing` becomes the explicit `Invoke`.
  `MethodMissing` keeps the as-written receiver behaviour.
- The handle constructors `Instance#query`, `#collection`, `SearchCollection#crawler`
  and `#indexer`: each only builds a handle. The handles are the `Model` values.
- `Tr` and `Gsub` cover one-character sets and patterns only, which is all the gem uses.

## Findings

| source | as written | input that shows it | evidently intended | confidence | as-written member | corrected member |
|---|---|---|---|---|---|---|
| lib/acceleration/velocity.rb:683-693 | `create(args)` calls `act` without `args`; `stop(args)` calls `act` with `{}` | `dictionary.create(:based_on => "other")` sends no `based_on`; `dictionary.stop(:kill => true)` sends no `kill` | forward `args`, as the comments' `:based_on` and `:kill` options say | medium, not executed | ApiModel.DictionaryOperation (shown by ApiModel.CreateDropsBasedOn and ApiModel.StopDropsKill) | ApiModel.DictionaryOperationForwarding |
| lib/acceleration/velocity.rb:554-556 | `CollectionService#initialize` never sets `@instance`, so `method_missing` sends `call` to nil | `collection.crawler.status` raises NoMethodError instead of calling `search-collection-crawler-status` | passthroughs on a crawler or indexer reach the collection's session, as the "implied by method_missing" comments expect | low, not executed | ApiModel.MethodMissing (shown by ApiModel.ServicePassthroughFails) | ApiModel.Invoke |
