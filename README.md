# Sesame/RDF4J transformer model

A Dafny model of the two Cocoon DOM transformers that front a Sesame/RDF4J
HTTP triple store: `RDFTransformer` (RDF4J client, actions `add`, `clear`
and `graph-query`) and `SesameTransformer` (Sesame 2 client, actions `add`
and `clear`). Each transformer is configured with an action, a base URI and
a space-separated contexts string; it resolves the contexts string into a
context array, dispatches on the action against the repository connection and
answers with an XML response document.

The model has five modules:

- `Wrappers`: `Option` (a Java reference that may be null) and `Result`.
- `JavaString`: Java's `String.split(" ")`, cut at every space with the
  trailing empty tokens dropped and a space-free string returned whole (so `""`
  gives one empty token and `" "` gives none), with its round trip to the
  joined tokens and the uniqueness of the cutting.
- `Repository`: what both transformers share: context resources (the null
  resource or the URI of a token), exception kinds and messages, documents,
  the `response` document, the collaborators' outcomes for one `transform`
  call, and the `Connection` class, which records every `add`, `clear(...)`,
  `clear()` and graph query made on it.
- `RdfTransformer` and `SesameTransformer`: one module per source file. Each
  has its `createContexts` loop as a method over an array, a `Dispatch`
  function giving the calls made and the outcome of `transform`, the
  transformer class (fields `action`, `baseURI`, `contexts`, `context`,
  the connection) whose `Transform` method is proved to make exactly the
  calls and return exactly the outcome `Dispatch` gives, and lemmas stating
  each action's behaviour.

The two files differ and are modelled separately:

- RDFTransformer keeps an absent contexts string as a null array. `clear`
  with a null array dereferences it, and the resulting NullPointerException
  becomes an `error` child. Every Exception raised while dispatching becomes
  one `error` child carrying its message. A TransformerFactoryConfigurationError
  is an Error, so it passes the inner catch, is caught by the outer one and
  leaves the bare wrapper. Any other Error escapes.
- SesameTransformer defaults the contexts string to `""` and always splits
  it. It never adds a child to the wrapper, has no `graph-query` action, and
  catches only a fixed list of exception classes.

Exceptions are modelled by kind and message. Each collaborator outcome is a
field of `Collaborators`: document-builder creation, the identity serialiser,
the store call, and the graph query with its re-parse. The transformer does
not choose these outcomes; it only reacts to them.

Behaviour of the code that is easy to misread:

- An empty contexts string does not mean "no context argument". `""` splits
  into one empty token, so `clear` calls `clear(createURI(""))`, if the value
  factory accepts the empty token. The no-argument `clear()` is reached only
  when the contexts string is a non-empty run of spaces (`ClearAllOnlyForBlankContexts`). In
  RDFTransformer an absent contexts string makes `clear` fail with a null
  dereference; it does not clear everything.
- The base URI comes only from the configuration. `setup` reads no base-URI
  parameter.
- Not every response has exactly one child. SesameTransformer's response is
  always the bare wrapper. In RDFTransformer a
  TransformerFactoryConfigurationError leaves the bare wrapper.
- Not every failure is caught. Errors other than
  TransformerFactoryConfigurationError escape RDFTransformer's `transform`.
  Unlisted kinds, such as unchecked exceptions, escape SesameTransformer's.
- RDFTransformer's `createContexts` tests its parameter for null but splits
  the field `this.contexts`. Its only caller passes that field, so the model
  uses one argument.

## Model

| member | source | states |
|---|---|---|
| JavaString.FirstSpace | src/uk/ac/kcl/artshums/depts/ddh/kiln/cocoon/transformation/RDFTransformer.java:130 | the index found is a space and no space comes before it |
| JavaString.Pieces | src/uk/ac/kcl/cch/xmod/cocoon/transformation/SesameTransformer.java:205 | cutting at every space always gives at least one piece |
| JavaString.Split | src/uk/ac/kcl/artshums/depts/ddh/kiln/cocoon/transformation/RDFTransformer.java:130 | a string without a space is its own single token; otherwise there are at most as many tokens as pieces cut at every space, and the last token is never empty |
| JavaString.PiecesSpaceFree | src/uk/ac/kcl/artshums/depts/ddh/kiln/cocoon/transformation/RDFTransformer.java:130 | no piece contains the separator |
| JavaString.JoinPieces | src/uk/ac/kcl/artshums/depts/ddh/kiln/cocoon/transformation/RDFTransformer.java:130 | joining the pieces with single spaces gives back the input |
| JavaString.PiecesUnique | src/uk/ac/kcl/cch/xmod/cocoon/transformation/SesameTransformer.java:205 | any space-free token sequence that joins to the input is exactly its pieces |
| JavaString.TrimTrailingEmptySpec | src/uk/ac/kcl/artshums/depts/ddh/kiln/cocoon/transformation/RDFTransformer.java:130 | trimming keeps a prefix, drops only empty tokens, and ends on a non-empty token |
| JavaString.SplitSpec | src/uk/ac/kcl/artshums/depts/ddh/kiln/cocoon/transformation/RDFTransformer.java:130 | split tokens are space-free; for an input with a space, the pieces are the tokens followed only by empty pieces |
| JavaString.SplitOfJoin | src/uk/ac/kcl/artshums/depts/ddh/kiln/cocoon/transformation/RDFTransformer.java:130 | space-free tokens joined with single spaces split back into exactly those tokens, when there is one token or the last of several is not empty |
| JavaString.SplitJoin | src/uk/ac/kcl/cch/xmod/cocoon/transformation/SesameTransformer.java:205 | joining the split tokens gives the input minus its trailing spaces |
| JavaString.SplitEmptyIffOnlySpaces | src/uk/ac/kcl/artshums/depts/ddh/kiln/cocoon/transformation/RDFTransformer.java:130-131 | split gives a zero-length array exactly for a non-empty run of spaces |
| Repository.ContextsSpec | src/uk/ac/kcl/cch/xmod/cocoon/transformation/SesameTransformer.java:207-213 | one entry per token, in order; entry i is the null resource exactly when token i is "null", and otherwise the URI of token i |
| Repository.ResolveToken | src/uk/ac/kcl/artshums/depts/ddh/kiln/cocoon/transformation/RDFTransformer.java:134-138 | a token resolves to the null resource exactly when it is "null", and to the URI of that same token otherwise |
| Repository.Contexts | src/uk/ac/kcl/cch/xmod/cocoon/transformation/SesameTransformer.java:205-213 | exactly one entry per token of `split(" ")`; what each entry is, is stated by `ContextsSpec` |
| Repository.Connection.Add | src/uk/ac/kcl/artshums/depts/ddh/kiln/cocoon/transformation/RDFTransformer.java:225 | records one add call with the bytes, base URI and context array as passed |
| Repository.Connection.Clear | src/uk/ac/kcl/artshums/depts/ddh/kiln/cocoon/transformation/RDFTransformer.java:240 | records one clear call with the given contexts |
| Repository.Connection.ClearEverything | src/uk/ac/kcl/artshums/depts/ddh/kiln/cocoon/transformation/RDFTransformer.java:242 | records one no-argument clear call |
| Repository.Connection.EvaluateGraphQuery | src/uk/ac/kcl/artshums/depts/ddh/kiln/cocoon/transformation/RDFTransformer.java:266-268 | records one SPARQL graph query with its text and base URI; returns the re-parsed result or the failure |
| RdfTransformer.CreateContexts | src/uk/ac/kcl/artshums/depts/ddh/kiln/cocoon/transformation/RDFTransformer.java:119-142 | an absent string gives a null array; otherwise one entry per token, null resource exactly for "null", URI of the token otherwise |
| RdfTransformer.Dispatch | src/uk/ac/kcl/artshums/depts/ddh/kiln/cocoon/transformation/RDFTransformer.java:153-200 | one `transform` makes at most one call on the connection |
| RdfTransformer.OuterCatches | src/uk/ac/kcl/artshums/depts/ddh/kiln/cocoon/transformation/RDFTransformer.java:192-197 | ParserConfigurationException is caught; of the Java Errors only TransformerFactoryConfigurationError is caught by the outer clauses; null dereference, other runtime, SAX, I/O and transformer exceptions are not |
| RdfTransformer.Handle | src/uk/ac/kcl/artshums/depts/ddh/kiln/cocoon/transformation/RDFTransformer.java:185-197 | an Exception becomes one `error` child with its message; a TransformerFactoryConfigurationError leaves the bare wrapper; exactly the other Errors are thrown, as themselves |
| RdfTransformer.AddAction | src/uk/ac/kcl/artshums/depts/ddh/kiln/cocoon/transformation/RDFTransformer.java:165-169 | `add` makes exactly one add call with the context unchanged; success child exactly when serialiser and store succeed; otherwise the Exception's message, a bare wrapper for a TransformerFactoryConfigurationError, and any other Error escaping as itself |
| RdfTransformer.ClearAction | src/uk/ac/kcl/artshums/depts/ddh/kiln/cocoon/transformation/RDFTransformer.java:170-174 | `clear`: non-empty array gives clear(context), empty gives clear(), null gives no call and an error child; success exactly when an array exists and the store succeeds; a store TransformerFactoryConfigurationError gives the bare wrapper and any other Error escapes as itself |
| RdfTransformer.ClearAllOnlyForBlankContexts | src/uk/ac/kcl/artshums/depts/ddh/kiln/cocoon/transformation/RDFTransformer.java:239-243 | clear() is called exactly for a blank contexts string; "" clears the context of URI "" |
| RdfTransformer.GraphQueryAction | src/uk/ac/kcl/artshums/depts/ddh/kiln/cocoon/transformation/RDFTransformer.java:175-177 | `graph-query` makes one query from the root text and base URI; its result replaces the wrapper; an Exception gives an error child, a TransformerFactoryConfigurationError the bare wrapper, and any other Error escapes as itself |
| RdfTransformer.InvalidAction | src/uk/ac/kcl/artshums/depts/ddh/kiln/cocoon/transformation/RDFTransformer.java:178-184 | any other action makes no call and answers with one error child "Invalid action parameter supplied: " + action |
| RdfTransformer.OneResponse | src/uk/ac/kcl/artshums/depts/ddh/kiln/cocoon/transformation/RDFTransformer.java:185-199 | once the wrapper exists, a document is always returned with at most one child; only non-factory Errors escape; a bare wrapper only after a TransformerFactoryConfigurationError |
| RdfTransformer.BuilderFailure | src/uk/ac/kcl/artshums/depts/ddh/kiln/cocoon/transformation/RDFTransformer.java:160-161 | a failing document builder makes no call and gives null exactly for the caught kinds; any other builder failure escapes as itself |
| RdfTransformer.AbsentDiffersFromNullToken | src/uk/ac/kcl/artshums/depts/ddh/kiln/cocoon/transformation/RDFTransformer.java:120-138 | "null" resolves to one null resource, and its add call differs from that for an absent contexts string |
| RdfTransformer.TwoContexts | src/uk/ac/kcl/artshums/depts/ddh/kiln/cocoon/transformation/RDFTransformer.java:130-138 | "ctxA null" resolves to the URI "ctxA" followed by the null resource |
| RdfTransformer.RDFTransformer.Configure | src/uk/ac/kcl/artshums/depts/ddh/kiln/cocoon/transformation/RDFTransformer.java:67-72 | URL, base URI and contexts come from configuration, with their defaults |
| RdfTransformer.RDFTransformer.Setup | src/uk/ac/kcl/artshums/depts/ddh/kiln/cocoon/transformation/RDFTransformer.java:84-98 | URL and contexts parameters override configuration; the action is set; the context array is resolved from the contexts string |
| RdfTransformer.RDFTransformer.AddDocument | src/uk/ac/kcl/artshums/depts/ddh/kiln/cocoon/transformation/RDFTransformer.java:218-227 | a serialiser failure makes no call; otherwise one add call with the null-or-array context, failing as the store does |
| RdfTransformer.RDFTransformer.ClearContext | src/uk/ac/kcl/artshums/depts/ddh/kiln/cocoon/transformation/RDFTransformer.java:237-245 | null array throws a null dereference with no call; non-empty array makes clear(context); empty makes clear() |
| RdfTransformer.RDFTransformer.PerformGraphQuery | src/uk/ac/kcl/artshums/depts/ddh/kiln/cocoon/transformation/RDFTransformer.java:261-270 | one graph query of the root element's text with the base URI |
| RdfTransformer.RDFTransformer.Transform | src/uk/ac/kcl/artshums/depts/ddh/kiln/cocoon/transformation/RDFTransformer.java:153-200 | the calls appended to the connection log and the outcome are exactly those of `Dispatch` |
| SesameTransformer.CreateContexts | src/uk/ac/kcl/cch/xmod/cocoon/transformation/SesameTransformer.java:198-215 | never null; one entry per token, null resource exactly for "null", URI of the token otherwise |
| SesameTransformer.Dispatch | src/uk/ac/kcl/cch/xmod/cocoon/transformation/SesameTransformer.java:226-267 | one `transform` makes at most one call on the connection |
| SesameTransformer.Catches | src/uk/ac/kcl/cch/xmod/cocoon/transformation/SesameTransformer.java:250-264 | of the Java Errors only TransformerFactoryConfigurationError is caught; parser-configuration, repository, RDF-parse and I/O exceptions are caught; null dereference, other runtime, RDF-handler, query and SAX exceptions are not |
| SesameTransformer.Handle | src/uk/ac/kcl/cch/xmod/cocoon/transformation/SesameTransformer.java:250-264 | an exception is thrown, as itself, exactly when its kind is outside the catch list; otherwise the bare wrapper is returned |
| SesameTransformer.AddAction | src/uk/ac/kcl/cch/xmod/cocoon/transformation/SesameTransformer.java:241-243 | `add` makes exactly one add call with the context array; the answer is the bare wrapper with no success child, both on success and for a caught serialiser or store failure; an unlisted failure escapes as itself |
| SesameTransformer.ClearAction | src/uk/ac/kcl/cch/xmod/cocoon/transformation/SesameTransformer.java:244-246 | `clear`: non-empty array gives clear(context), empty gives clear(); bare wrapper; an uncaught store failure, and only that, escapes as itself |
| SesameTransformer.ClearAllOnlyForBlankContexts | src/uk/ac/kcl/cch/xmod/cocoon/transformation/SesameTransformer.java:309-313 | clear() is called exactly for a blank contexts string; the default "" resolves to one URI context |
| SesameTransformer.OtherAction | src/uk/ac/kcl/cch/xmod/cocoon/transformation/SesameTransformer.java:247-249 | any other action, `graph-query` included, makes no call and answers with the bare wrapper |
| SesameTransformer.NoChildEver | src/uk/ac/kcl/cch/xmod/cocoon/transformation/SesameTransformer.java:250-266 | the answer is never a wrapper with children; only unlisted kinds escape; null exactly when builder creation fails with a caught kind; an unlisted builder failure escapes as itself; a failing builder never makes a call |
| SesameTransformer.EmptyTokenContexts | src/uk/ac/kcl/cch/xmod/cocoon/transformation/SesameTransformer.java:205-213 | two consecutive spaces leave an empty token, which resolves to the URI of "" |
| SesameTransformer.SesameTransformer.Configure | src/uk/ac/kcl/cch/xmod/cocoon/transformation/SesameTransformer.java:141-147 | URL, base URI and contexts come from configuration, the contexts defaulting to "" |
| SesameTransformer.SesameTransformer.Setup | src/uk/ac/kcl/cch/xmod/cocoon/transformation/SesameTransformer.java:159-176 | URL and contexts parameters override configuration; repository and action are set; the context array is resolved and never null |
| SesameTransformer.SesameTransformer.AddDocument | src/uk/ac/kcl/cch/xmod/cocoon/transformation/SesameTransformer.java:285-296 | a serialiser failure makes no call; otherwise one add call with the context array |
| SesameTransformer.SesameTransformer.ClearContext | src/uk/ac/kcl/cch/xmod/cocoon/transformation/SesameTransformer.java:306-316 | non-empty array makes clear(context); empty makes clear() |
| SesameTransformer.SesameTransformer.Transform | src/uk/ac/kcl/cch/xmod/cocoon/transformation/SesameTransformer.java:226-267 | the calls appended to the connection log and the outcome are exactly those of `Dispatch` |

## Left out

- HTTP repository construction, `initialize()`, `getValueFactory()` and
  `getConnection()`: foreign framework calls. The connection is a parameter of
  `Setup`. SesameTransformer's server URL and repository identifier are stored
  but not used. RDFTransformer reads its required repository parameter into a
  local only to build the HTTP repository, so `RDFTransformer.Setup` drops
  that parameter together with the repository construction.
- How `setup` fails: a missing required parameter, or a repository failure
  turned into a ProcessingException. This is framework plumbing. Each
  `Setup` takes the required action, and, for SesameTransformer, the
  repository identifier, as arguments that are always present.
- The value factory's `createURI`: a token becomes `Uri(token)`. Whether the
  factory rejects a token, which would throw during `setup`, belongs to the
  store.
- DOM creation, the XSLT identity serialisation, the RDF/XML writer and the
  re-parse of query results: XML library work. Documents are opaque values.
  Only a document's root text is visible. The serialiser and the query
  collaborator give abstract outcomes. DOM calls other than building the
  document builder (`createElement`, `appendChild`, `getDocumentElement`)
  are assumed not to fail.
- What `add`, `clear` and a SPARQL evaluation do to the stored statements:
  the store's own semantics. The connection records the calls and returns the
  outcome it is given.
- Logging, including the error-level logging of each context and of the
  contexts string: it has no effect on behaviour.
- A Java null exception message, which `setTextContent` treats as empty text:
  messages are strings, so a null one is the empty string.
- Calling `transform` before `setup`, when the action and the connection
  are still null: the framework always calls `setup` first, and `Valid()`
  requires it.
- Concurrent requests sharing one transformer and its connection: the model
  is sequential.
