/** Values shared by both transformers: context resources, the exceptions the
    collaborators can raise, documents and responses, and the repository
    connection modelled as the log of the calls made on it. */
module Repository {
  import opened Wrappers
  import JavaString

  newtype byte = x: int | 0 <= x < 256

  /** The RDF/XML bytes handed to the store. */
  type Bytes = seq<byte>

  /** One entry of a context array: the Java `null` resource (the store's
      default, context-free graph) or the URI the value factory builds from a
      token. Whether the factory accepts the token is the store's business. */
  datatype Resource = NullContext | Uri(token: string)

  /** The class of an exception, as far as the catch clauses tell them apart. */
  datatype ExceptionKind =
    | ParserConfiguration            // javax.xml.parsers.ParserConfigurationException
    | TransformerConfiguration       // javax.xml.transform.TransformerConfigurationException
    | Transformer                    // javax.xml.transform.TransformerException
    | TransformerFactoryConfiguration  // javax.xml.transform.TransformerFactoryConfigurationError
    | RepositoryFailure              // RepositoryException
    | RdfParse                       // RDFParseException
    | RdfHandler                     // RDFHandlerException
    | MalformedQuery                 // MalformedQueryException
    | QueryEvaluation                // QueryEvaluationException
    | Sax                            // org.xml.sax.SAXException
    | InputOutput                    // java.io.IOException
    | NullPointer                    // java.lang.NullPointerException
    | OtherRuntime                   // any other unchecked exception
    | OtherError                     // any other java.lang.Error

  /** Kinds that are `java.lang.Error`s rather than `java.lang.Exception`s, so that
      a `catch (Exception e)` does not catch them. */
  predicate IsJavaError(k: ExceptionKind)
  {
    k == TransformerFactoryConfiguration || k == OtherError
  }

  /** A thrown exception; `message` is its localized message. */
  datatype Exception = Exception(kind: ExceptionKind, message: string)

  /** A DOM document, opaque except for the text content of its root element. */
  datatype Document = Document(rootText: string)

  /** A call made on the repository connection. `Add` records the context
      argument as passed: `None` is a null array, `Some(cs)` the array's entries. */
  datatype Call =
    | Add(data: Bytes, baseURI: Option<string>, context: Option<seq<Resource>>)
    | ClearContexts(contexts: seq<Resource>)
    | ClearAll
    | GraphQuery(query: string, baseURI: Option<string>)

  /** A child of the `response` root element. */
  datatype Child = SuccessElement | ErrorElement(text: string)

  /** What `transform` returns: null, a document whose `response` root holds
      the given children, or the document parsed from the query result. */
  datatype Response = NoDocument | Wrapper(children: seq<Child>) | QueryResult(doc: Document)

  /** `transform` either returns a response or lets an exception escape. */
  datatype TransformOutcome = Returned(response: Response) | Thrown(error: Exception)

  /** How each collaborator behaves during one `transform` call:
      `builder`: creating the DOM document builder;
      `serialiser`: the identity transform of the input document to bytes;
      `store`: the add or clear call on the connection;
      `query`: preparing and evaluating the graph query and re-parsing its
      RDF/XML result into a document;
      `nullPointerMessage`: the message of a NullPointerException. */
  datatype Collaborators = Collaborators(
    builder: Option<Exception>,
    serialiser: Result<Bytes, Exception>,
    store: Option<Exception>,
    query: Result<Document, Exception>,
    nullPointerMessage: string)

  /** The calls one `transform` makes, and what it returns or throws. */
  datatype Run = Run(calls: seq<Call>, outcome: TransformOutcome)

  /** The context entry `createContexts` makes of one token. */
  function ResolveToken(token: string): (r: Resource)
    ensures r == NullContext <==> token == "null"
    ensures r.Uri? ==> r.token == token
  {
    if token == "null" then NullContext else Uri(token)
  }

  /** The context array resolved from a contexts string, entry by entry. */
  function Contexts(contexts: string): (r: seq<Resource>)
    ensures |r| == |JavaString.Split(contexts)|
  {
    var tokens := JavaString.Split(contexts);
    seq(|tokens|, i requires 0 <= i < |tokens| => ResolveToken(tokens[i]))
  }

  /** Entry i is the null resource exactly when token i is "null", and the URI
      of token i otherwise; entries follow the tokens in order, one each. */
  lemma ContextsSpec(contexts: string)
    ensures var tokens := JavaString.Split(contexts);
      var cs := Contexts(contexts);
      |cs| == |tokens| &&
      forall i :: 0 <= i < |cs| ==>
        (cs[i] == NullContext <==> tokens[i] == "null") &&
        (tokens[i] != "null" ==> cs[i] == Uri(tokens[i]))
  {
  }

  /** The repository connection, modelled as the calls made on it. The outcome
      of each call is supplied by the caller. */
  class Connection {
    var log: seq<Call>

    constructor ()
      ensures log == []
    {
      log := [];
    }

    /** `add(in, baseURI, RDFFormat.RDFXML, contexts)`. */
    method Add(data: Bytes, baseURI: Option<string>, contexts: Option<seq<Resource>>, outcome: Option<Exception>)
      returns (failure: Option<Exception>)
      modifies this
      ensures log == old(log) + [Call.Add(data, baseURI, contexts)]
      ensures failure == outcome
    {
      log := log + [Call.Add(data, baseURI, contexts)];
      failure := outcome;
    }

    /** `clear(contexts)` with a non-empty context array. */
    method Clear(contexts: seq<Resource>, outcome: Option<Exception>) returns (failure: Option<Exception>)
      modifies this
      ensures log == old(log) + [ClearContexts(contexts)]
      ensures failure == outcome
    {
      log := log + [ClearContexts(contexts)];
      failure := outcome;
    }

    /** The no-argument `clear()`, which removes every statement. */
    method ClearEverything(outcome: Option<Exception>) returns (failure: Option<Exception>)
      modifies this
      ensures log == old(log) + [ClearAll]
      ensures failure == outcome
    {
      log := log + [ClearAll];
      failure := outcome;
    }

    /** `prepareGraphQuery(SPARQL, query, baseURI).evaluate(writer)`, followed
        by the re-parse of the written RDF/XML into a document. */
    method EvaluateGraphQuery(query: string, baseURI: Option<string>, outcome: Result<Document, Exception>)
      returns (result: Result<Document, Exception>)
      modifies this
      ensures log == old(log) + [GraphQuery(query, baseURI)]
      ensures result == outcome
    {
      log := log + [GraphQuery(query, baseURI)];
      result := outcome;
    }
  }
}
