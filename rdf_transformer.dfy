/** The RDF4J transformer: `add`, `clear` and `graph-query` against the
    repository, every Exception raised while dispatching turned into an
    `error` element, and an absent contexts string kept as a null array. */
module RdfTransformer {
  import opened Wrappers
  import opened Repository
  import JavaString

  const RdfServerUrlDefault := "http://localhost:9999/sesame/"
  const InvalidActionPrefix := "Invalid action parameter supplied: "

  /** The exception kinds of the outer catch clauses: ParserConfigurationException,
      TransformerFactoryConfigurationError and the RDF4JException family. */
  predicate OuterCatches(k: ExceptionKind): (caught: bool)
    ensures IsJavaError(k) ==> (caught <==> k == TransformerFactoryConfiguration)
    ensures k == ParserConfiguration ==> caught
    ensures k in {NullPointer, OtherRuntime, Sax, InputOutput, TransformerConfiguration, Transformer} ==> !caught
  {
    || k == ParserConfiguration
    || k == TransformerFactoryConfiguration
    || k == RepositoryFailure || k == RdfParse || k == RdfHandler
    || k == MalformedQuery || k == QueryEvaluation
  }

  /** `createContexts`: a null contexts string gives a null array; otherwise one
      entry per token of `split(" ")`, the null resource for "null" and the URI
      of the token for anything else. */
  method CreateContexts(contexts: Option<string>) returns (context: array?<Resource>)
    ensures contexts.None? <==> context == null
    ensures context != null ==>
      var tokens := JavaString.Split(contexts.value);
      context.Length == |tokens| &&
      forall i :: 0 <= i < context.Length ==>
        (context[i] == NullContext <==> tokens[i] == "null") &&
        (tokens[i] != "null" ==> context[i] == Uri(tokens[i]))
    ensures context != null ==> context[..] == Contexts(contexts.value)
  {
    if contexts.None? {
      context := null;
    } else {
      var arrContexts := JavaString.Split(contexts.value);
      context := new Resource[|arrContexts|];
      for i := 0 to |arrContexts|
        invariant forall j :: 0 <= j < i ==> context[j] == ResolveToken(arrContexts[j])
      {
        if arrContexts[i] == "null" {
          context[i] := NullContext;
        } else {
          context[i] := Uri(arrContexts[i]);
        }
      }
    }
  }

  /** Where an exception raised inside the dispatch ends up: an Exception is
      caught by `catch (Exception e)` and becomes the one `error` child; a
      TransformerFactoryConfigurationError passes that catch, is caught by the
      outer one and leaves the bare wrapper; any other Error escapes. */
  function Handle(e: Exception): (o: TransformOutcome)
    ensures !IsJavaError(e.kind) ==> o == Returned(Wrapper([ErrorElement(e.message)]))
    ensures e.kind == TransformerFactoryConfiguration ==> o == Returned(Wrapper([]))
    ensures o.Thrown? <==> e.kind == OtherError
    ensures o.Thrown? ==> o.error == e
  {
    if !IsJavaError(e.kind) then Returned(Wrapper([ErrorElement(e.message)]))
    else if OuterCatches(e.kind) then Returned(Wrapper([]))
    else Thrown(e)
  }

  /** The calls made and the outcome of `transform` for the given configured
      action, base URI and resolved context array (`None`: a null array). */
  function Dispatch(action: string, baseURI: Option<string>, context: Option<seq<Resource>>,
                    document: Document, env: Collaborators): (r: Run)
    ensures |r.calls| <= 1
  {
    if env.builder.Some? then
      var e := env.builder.value;
      Run([], if OuterCatches(e.kind) then Returned(NoDocument) else Thrown(e))
    else if action == "add" then
      match env.serialiser
      case Failure(e) => Run([], Handle(e))
      case Success(bytes) =>
        Run([Call.Add(bytes, baseURI, context)],
            if env.store.None? then Returned(Wrapper([SuccessElement])) else Handle(env.store.value))
    else if action == "clear" then
      if context.None? then
        Run([], Handle(Exception(NullPointer, env.nullPointerMessage)))
      else
        Run([if |context.value| > 0 then ClearContexts(context.value) else ClearAll],
            if env.store.None? then Returned(Wrapper([SuccessElement])) else Handle(env.store.value))
    else if action == "graph-query" then
      Run([GraphQuery(document.rootText, baseURI)],
          match env.query
          case Success(d) => Returned(QueryResult(d))
          case Failure(e) => Handle(e))
    else
      Run([], Returned(Wrapper([ErrorElement(InvalidActionPrefix + action)])))
  }

  /** `add`: exactly one add call, with the serialised bytes, the base URI and
      the resolved context array unchanged; the response is the single
      `success` child exactly when serialisation and the store call both
      succeed, and otherwise carries the failing Exception's message. */
  lemma AddAction(baseURI: Option<string>, context: Option<seq<Resource>>, document: Document, env: Collaborators)
    requires env.builder.None?
    ensures var r := Dispatch("add", baseURI, context, document, env);
      && (env.serialiser.Success? ==> r.calls == [Call.Add(env.serialiser.value, baseURI, context)])
      && (env.serialiser.Failure? ==> r.calls == [])
      && (r.outcome == Returned(Wrapper([SuccessElement])) <==> env.serialiser.Success? && env.store.None?)
    ensures var r := Dispatch("add", baseURI, context, document, env);
      var failure := if env.serialiser.Failure? then Some(env.serialiser.error) else env.store;
      failure.Some? && !IsJavaError(failure.value.kind) ==>
        r.outcome == Returned(Wrapper([ErrorElement(failure.value.message)]))
    ensures var r := Dispatch("add", baseURI, context, document, env);
      var failure := if env.serialiser.Failure? then Some(env.serialiser.error) else env.store;
      && (failure.Some? && failure.value.kind == TransformerFactoryConfiguration ==>
            r.outcome == Returned(Wrapper([])))
      && (failure.Some? && failure.value.kind == OtherError ==> r.outcome == Thrown(failure.value))
  {
  }

  /** `clear`: a non-empty array gives one `clear(context)` call, an empty one
      one `clear()` call, and a null array no call at all but the error of the
      null dereference; the `success` child appears exactly when an array was
      there and the store call succeeded. */
  lemma ClearAction(baseURI: Option<string>, context: Option<seq<Resource>>, document: Document, env: Collaborators)
    requires env.builder.None?
    ensures var r := Dispatch("clear", baseURI, context, document, env);
      && (context.None? ==>
            r.calls == [] && r.outcome == Returned(Wrapper([ErrorElement(env.nullPointerMessage)])))
      && (context.Some? && |context.value| > 0 ==> r.calls == [ClearContexts(context.value)])
      && (context == Some([]) ==> r.calls == [ClearAll])
      && (r.outcome == Returned(Wrapper([SuccessElement])) <==> context.Some? && env.store.None?)
    ensures var r := Dispatch("clear", baseURI, context, document, env);
      context.Some? && env.store.Some? && !IsJavaError(env.store.value.kind) ==>
        r.outcome == Returned(Wrapper([ErrorElement(env.store.value.message)]))
    ensures var r := Dispatch("clear", baseURI, context, document, env);
      && (context.Some? && env.store.Some? && env.store.value.kind == TransformerFactoryConfiguration ==>
            r.outcome == Returned(Wrapper([])))
      && (context.Some? && env.store.Some? && env.store.value.kind == OtherError ==>
            r.outcome == Thrown(env.store.value))
  {
  }

  /** The no-argument `clear()`, which empties the whole repository, is made
      exactly when the contexts string is a non-empty run of spaces: the empty
      string splits into one empty token and clears the context of the URI "". */
  lemma ClearAllOnlyForBlankContexts(contexts: string, baseURI: Option<string>, document: Document, env: Collaborators)
    requires env.builder.None?
    ensures Dispatch("clear", baseURI, Some(Contexts(contexts)), document, env).calls == [ClearAll]
        <==> JavaString.OnlySpaces(contexts)
    ensures contexts == "" ==>
      Dispatch("clear", baseURI, Some(Contexts(contexts)), document, env).calls == [ClearContexts([Uri("")])]
  {
    JavaString.SplitEmptyIffOnlySpaces(contexts);
    if contexts == "" {
      assert JavaString.Split(contexts) == [""];
      assert Contexts(contexts) == [Uri("")];
    }
  }

  /** `graph-query`: one query made of the root element's text with the base
      URI; its result document replaces the `response` wrapper, and a failing
      Exception gives the wrapper with its message. */
  lemma GraphQueryAction(baseURI: Option<string>, context: Option<seq<Resource>>, document: Document, env: Collaborators)
    requires env.builder.None?
    ensures var r := Dispatch("graph-query", baseURI, context, document, env);
      && r.calls == [GraphQuery(document.rootText, baseURI)]
      && (env.query.Success? ==> r.outcome == Returned(QueryResult(env.query.value)))
      && (env.query.Failure? && !IsJavaError(env.query.error.kind) ==>
            r.outcome == Returned(Wrapper([ErrorElement(env.query.error.message)])))
      && (env.query.Failure? && env.query.error.kind == TransformerFactoryConfiguration ==>
            r.outcome == Returned(Wrapper([])))
      && (env.query.Failure? && env.query.error.kind == OtherError ==> r.outcome == Thrown(env.query.error))
  {
  }

  /** Any other action touches no connection and answers with one `error`
      child naming the action. */
  lemma InvalidAction(action: string, baseURI: Option<string>, context: Option<seq<Resource>>, document: Document, env: Collaborators)
    requires action != "add" && action != "clear" && action != "graph-query"
    ensures var r := Dispatch(action, baseURI, context, document, env);
      && r.calls == []
      && (env.builder.None? ==> r.outcome == Returned(Wrapper([ErrorElement(InvalidActionPrefix + action)])))
  {
  }

  /** Once the wrapper exists, `transform` always returns a document — the
      query result or the wrapper with at most one child — and only a
      `java.lang.Error` other than TransformerFactoryConfigurationError
      escapes it; the bare wrapper comes only from that factory error. */
  lemma OneResponse(action: string, baseURI: Option<string>, context: Option<seq<Resource>>, document: Document, env: Collaborators)
    requires env.builder.None?
    ensures var r := Dispatch(action, baseURI, context, document, env);
      && (r.outcome.Thrown? ==> r.outcome.error.kind == OtherError)
      && (r.outcome.Returned? ==> r.outcome.response != NoDocument)
      && (r.outcome.Returned? && r.outcome.response.Wrapper? ==>
            |r.outcome.response.children| <= 1)
      && (r.outcome == Returned(Wrapper([])) ==>
            || (env.serialiser.Failure? && env.serialiser.error.kind == TransformerFactoryConfiguration)
            || (env.store.Some? && env.store.value.kind == TransformerFactoryConfiguration)
            || (env.query.Failure? && env.query.error.kind == TransformerFactoryConfiguration))
  {
  }

  /** If the document builder cannot be made, no call is made and the result
      is null for the caught kinds; anything else escapes. */
  lemma BuilderFailure(action: string, baseURI: Option<string>, context: Option<seq<Resource>>, document: Document, env: Collaborators)
    requires env.builder.Some?
    ensures var r := Dispatch(action, baseURI, context, document, env);
      && r.calls == []
      && (r.outcome == Returned(NoDocument) <==> OuterCatches(env.builder.value.kind))
      && (r.outcome.Thrown? ==> r.outcome.error == env.builder.value)
      && (!OuterCatches(env.builder.value.kind) ==> r.outcome == Thrown(env.builder.value))
  {
  }

  /** An absent contexts string and the string "null" differ at the store: the
      first passes a null context array, the second an array holding the null
      resource. */
  lemma AbsentDiffersFromNullToken(baseURI: Option<string>, document: Document, env: Collaborators)
    requires env.builder.None? && env.serialiser.Success?
    ensures Contexts("null") == [NullContext]
    ensures Dispatch("add", baseURI, None, document, env).calls
         != Dispatch("add", baseURI, Some(Contexts("null")), document, env).calls
    ensures Dispatch("clear", baseURI, Some(Contexts("null")), document, env).calls == [ClearContexts([NullContext])]
  {
  }

  class RDFTransformer {
    var action: Option<string>
    var baseURI: Option<string>
    var connection: Connection?
    var context: array?<Resource>
    var contexts: Option<string>
    var rdfServerURL: string

    /** The state `setup` leaves behind: an action, a connection, and a context
        array resolved from the contexts string (null exactly when it is null). */
    ghost predicate Valid()
      reads this, context
    {
      && action.Some?
      && connection != null
      && (context == null <==> contexts.None?)
      && (context != null ==> context[..] == Contexts(contexts.value))
    }

    /** The context argument as the store sees it. */
    function ContextArgument(): (c: Option<seq<Resource>>)
      reads this, context
    {
      if context == null then None else Some(context[..])
    }

    /** Construction followed by `configure`: the URL, base URI and contexts
        string come from the configuration, with their defaults. */
    constructor Configure(confURL: Option<string>, confBaseURI: Option<string>, confContexts: Option<string>)
      ensures rdfServerURL == confURL.GetOr(RdfServerUrlDefault)
      ensures baseURI == confBaseURI && contexts == confContexts
      ensures action.None? && connection == null && context == null
    {
      rdfServerURL := confURL.GetOr(RdfServerUrlDefault);
      baseURI := confBaseURI;
      contexts := confContexts;
      action := None;
      connection := null;
      context := null;
    }

    /** `setup`: the URL and contexts parameters override the configured
        values, the action parameter is required, the context array is
        resolved and the connection is the repository's. */
    method Setup(urlParam: Option<string>, contextsParam: Option<string>, actionParam: string, conn: Connection)
      modifies this
      ensures Valid()
      ensures rdfServerURL == urlParam.GetOr(old(rdfServerURL))
      ensures contexts == (if contextsParam.Some? then contextsParam else old(contexts))
      ensures action == Some(actionParam) && connection == conn && baseURI == old(baseURI)
    {
      rdfServerURL := urlParam.GetOr(rdfServerURL);
      if contextsParam.Some? {
        contexts := contextsParam;
      }
      action := Some(actionParam);
      context := CreateContexts(contexts);
      connection := conn;
    }

    /** `addDocument`: serialise the document, then one `add` call carrying
        the context array unchanged. */
    method AddDocument(document: Document, env: Collaborators) returns (thrown: Option<Exception>)
      requires Valid()
      modifies connection
      ensures env.serialiser.Failure? ==>
        connection.log == old(connection.log) && thrown == Some(env.serialiser.error)
      ensures env.serialiser.Success? ==>
        connection.log == old(connection.log) + [Call.Add(env.serialiser.value, baseURI, ContextArgument())] &&
        thrown == env.store
    {
      match env.serialiser
      case Failure(e) =>
        thrown := Some(e);
      case Success(bytes) =>
        thrown := connection.Add(bytes, baseURI, ContextArgument(), env.store);
    }

    /** `clearContext`: `clear(context)` for a non-empty array, `clear()` for
        an empty one; a null array is dereferenced and throws. */
    method ClearContext(env: Collaborators) returns (thrown: Option<Exception>)
      requires Valid()
      modifies connection
      ensures context == null ==>
        connection.log == old(connection.log) && thrown == Some(Exception(NullPointer, env.nullPointerMessage))
      ensures context != null && context.Length > 0 ==>
        connection.log == old(connection.log) + [ClearContexts(context[..])] && thrown == env.store
      ensures context != null && context.Length == 0 ==>
        connection.log == old(connection.log) + [ClearAll] && thrown == env.store
    {
      if context == null {
        thrown := Some(Exception(NullPointer, env.nullPointerMessage));
      } else if context.Length > 0 {
        thrown := connection.Clear(context[..], env.store);
      } else {
        thrown := connection.ClearEverything(env.store);
      }
    }

    /** `performGraphQuery`: a SPARQL graph query made of the root element's
        text, evaluated with the base URI. */
    method PerformGraphQuery(document: Document, env: Collaborators) returns (result: Result<Document, Exception>)
      requires Valid()
      modifies connection
      ensures connection.log == old(connection.log) + [GraphQuery(document.rootText, baseURI)]
      ensures result == env.query
    {
      var query := document.rootText;
      result := connection.EvaluateGraphQuery(query, baseURI, env.query);
    }

    /** `transform`: builds the `response` wrapper, dispatches on the action
        and maps exceptions to the response. The children appended to the
        wrapper's root are kept in `root`; `replacement` is the query result
        document once `responseDocument` has been reassigned to it. */
    method Transform(document: Document, env: Collaborators) returns (out: TransformOutcome)
      requires Valid()
      modifies connection
      ensures connection.log == old(connection.log) + Dispatch(action.value, baseURI, ContextArgument(), document, env).calls
      ensures out == Dispatch(action.value, baseURI, ContextArgument(), document, env).outcome
    {
      if env.builder.Some? {
        var e := env.builder.value;
        if OuterCatches(e.kind) {
          return Returned(NoDocument);
        }
        return Thrown(e);
      }
      var root: seq<Child> := [];
      var replacement: Option<Document> := None;
      var thrown: Option<Exception> := None;
      var act := action.value;
      if act == "add" {
        thrown := AddDocument(document, env);
        if thrown.None? {
          root := root + [SuccessElement];
          assert root == [SuccessElement];
        }
      } else if act == "clear" {
        thrown := ClearContext(env);
        if thrown.None? {
          root := root + [SuccessElement];
          assert root == [SuccessElement];
        }
      } else if act == "graph-query" {
        var result := PerformGraphQuery(document, env);
        match result
        case Success(d) =>
          replacement := Some(d);
        case Failure(e) =>
          thrown := Some(e);
      } else {
        var errorMessage := InvalidActionPrefix + act;
        root := root + [ErrorElement(errorMessage)];
        assert root == [ErrorElement(errorMessage)];
      }
      if thrown.Some? {
        var e := thrown.value;
        if !IsJavaError(e.kind) {
          root := root + [ErrorElement(e.message)];
          assert root == [ErrorElement(e.message)];
        } else if !OuterCatches(e.kind) {
          return Thrown(e);
        }
      }
      out := if replacement.Some? then Returned(QueryResult(replacement.value)) else Returned(Wrapper(root));
    }
  }

  /** `add` with no contexts configured passes a null context array and
      answers `success`. */
  method ExampleAddWithoutContexts(bytes: Bytes, document: Document)
  {
    var env := Collaborators(None, Success(bytes), None, Success(document), "");
    var base := Some("http://example.org/");
    var conn := new Connection();
    var transformer := new RDFTransformer.Configure(None, base, None);
    transformer.Setup(None, None, "add", conn);
    var out := transformer.Transform(document, env);
    assert conn.log == [Call.Add(bytes, base, None)];
    assert out == Returned(Wrapper([SuccessElement]));
  }

  /** "ctxA null" resolves to the URI "ctxA" followed by the null resource. */
  lemma TwoContexts()
    ensures Contexts("ctxA null") == [Uri("ctxA"), NullContext]
  {
    assert JavaString.Join(["ctxA", "null"]) == "ctxA null";
    JavaString.SplitOfJoin(["ctxA", "null"]);
  }

  /** `clear` with the contexts "ctxA null" clears the context of the URI
      "ctxA" and the null context, and answers `success`. */
  method ExampleClearTwoContexts(document: Document)
  {
    var env := Collaborators(None, Success([]), None, Success(document), "");
    TwoContexts();
    var conn := new Connection();
    var transformer := new RDFTransformer.Configure(None, None, None);
    transformer.Setup(None, Some("ctxA null"), "clear", conn);
    var out := transformer.Transform(document, env);
    assert conn.log == [ClearContexts([Uri("ctxA"), NullContext])];
    assert out == Returned(Wrapper([SuccessElement]));
  }
}
