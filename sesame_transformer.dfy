/** The older Sesame 2 transformer: only `add` and `clear`, a contexts
    string that defaults to "" and is always split, a response that is always
    the bare `response` wrapper, and a catch list of named exception classes. */
module SesameTransformer {
  import opened Wrappers
  import opened Repository
  import JavaString

  const SesameUrlDefault := "http://localhost:9999/sesame/"
  const SesameContextsDefault := ""

  /** The exception kinds of `transform`'s catch clauses: of the Java Errors
      only the factory configuration error, and no runtime exception. */
  predicate Catches(k: ExceptionKind): (caught: bool)
    ensures IsJavaError(k) ==> (caught <==> k == TransformerFactoryConfiguration)
    ensures k == ParserConfiguration ==> caught
    ensures k in {NullPointer, OtherRuntime, RdfHandler, MalformedQuery, QueryEvaluation, Sax} ==> !caught
    ensures k in {RepositoryFailure, RdfParse, InputOutput} ==> caught
  {
    || k == ParserConfiguration
    || k == RepositoryFailure
    || k == TransformerConfiguration
    || k == RdfParse
    || k == Transformer
    || k == TransformerFactoryConfiguration
    || k == InputOutput
  }

  /** `createContexts`: one entry per token of `split(" ")`, the null resource
      for "null" and the URI of the token for anything else. */
  method CreateContexts(contexts: string) returns (context: array<Resource>)
    ensures var tokens := JavaString.Split(contexts);
      context.Length == |tokens| &&
      forall i :: 0 <= i < context.Length ==>
        (context[i] == NullContext <==> tokens[i] == "null") &&
        (tokens[i] != "null" ==> context[i] == Uri(tokens[i]))
    ensures context[..] == Contexts(contexts)
  {
    var arrContexts := JavaString.Split(contexts);
    context := new Resource[|arrContexts|];
    for i := 0 to |arrContexts|
      invariant forall j :: 0 <= j < i ==> context[j] == ResolveToken(arrContexts[j])
    {
      if arrContexts[i] == "null" {
        context[i] := NullContext;
      } else {
        context[i] := Uri(arrContexts[i]);
      }
    }
  }

  /** Where an exception raised after the wrapper exists ends up: a caught
      kind leaves the bare wrapper, anything else escapes. */
  function Handle(e: Exception): (o: TransformOutcome)
    ensures o.Thrown? <==> !Catches(e.kind)
    ensures o.Thrown? ==> o.error == e
    ensures o.Returned? ==> o.response == Wrapper([])
  {
    if Catches(e.kind) then Returned(Wrapper([])) else Thrown(e)
  }

  /** The calls made and the outcome of `transform` for the given configured
      action, base URI and resolved context array. */
  function Dispatch(action: string, baseURI: Option<string>, context: seq<Resource>,
                    document: Document, env: Collaborators): (r: Run)
    ensures |r.calls| <= 1
  {
    if env.builder.Some? then
      var e := env.builder.value;
      Run([], if Catches(e.kind) then Returned(NoDocument) else Thrown(e))
    else if action == "add" then
      match env.serialiser
      case Failure(e) => Run([], Handle(e))
      case Success(bytes) =>
        Run([Call.Add(bytes, baseURI, Some(context))],
            if env.store.None? then Returned(Wrapper([])) else Handle(env.store.value))
    else if action == "clear" then
      Run([if |context| > 0 then ClearContexts(context) else ClearAll],
          if env.store.None? then Returned(Wrapper([])) else Handle(env.store.value))
    else
      Run([], Returned(Wrapper([])))
  }

  /** `add`: exactly one add call with the bytes, the base URI and the context
      array; the answer is the bare wrapper, with no `success` child, whether
      the call succeeds or fails with a caught kind, and a failure of any other
      kind escapes as itself. */
  lemma AddAction(baseURI: Option<string>, context: seq<Resource>, document: Document, env: Collaborators)
    requires env.builder.None?
    ensures var r := Dispatch("add", baseURI, context, document, env);
      && (env.serialiser.Success? ==> r.calls == [Call.Add(env.serialiser.value, baseURI, Some(context))])
      && (env.serialiser.Failure? ==> r.calls == [])
      && (r.outcome.Returned? ==> r.outcome.response == Wrapper([]))
      && (env.serialiser.Success? && env.store.None? ==> r.outcome == Returned(Wrapper([])))
    ensures var r := Dispatch("add", baseURI, context, document, env);
      var failure := if env.serialiser.Failure? then Some(env.serialiser.error) else env.store;
      failure.Some? ==>
        r.outcome == (if Catches(failure.value.kind) then Returned(Wrapper([])) else Thrown(failure.value))
  {
  }

  /** `clear`: a non-empty array gives one `clear(context)` call and an empty
      one one `clear()` call; the answer is the bare wrapper. */
  lemma ClearAction(baseURI: Option<string>, context: seq<Resource>, document: Document, env: Collaborators)
    requires env.builder.None?
    ensures var r := Dispatch("clear", baseURI, context, document, env);
      && (|context| > 0 ==> r.calls == [ClearContexts(context)])
      && (context == [] ==> r.calls == [ClearAll])
      && (r.outcome.Returned? ==> r.outcome.response == Wrapper([]))
      && (r.outcome.Thrown? <==> env.store.Some? && !Catches(env.store.value.kind))
      && (env.store.Some? && !Catches(env.store.value.kind) ==> r.outcome == Thrown(env.store.value))
  {
  }

  /** The default contexts string "" resolves to one URI context, so `clear`
      never calls the no-argument `clear()` unless the contexts are a
      non-empty run of spaces. */
  lemma ClearAllOnlyForBlankContexts(contexts: string, baseURI: Option<string>, document: Document, env: Collaborators)
    requires env.builder.None?
    ensures Dispatch("clear", baseURI, Contexts(contexts), document, env).calls == [ClearAll]
        <==> JavaString.OnlySpaces(contexts)
    ensures Contexts(SesameContextsDefault) == [Uri("")]
  {
    JavaString.SplitEmptyIffOnlySpaces(contexts);
    assert JavaString.Split("") == [""];
  }

  /** Every other action, `graph-query` among them, touches no connection and
      answers with the bare wrapper. */
  lemma OtherAction(action: string, baseURI: Option<string>, context: seq<Resource>, document: Document, env: Collaborators)
    requires action != "add" && action != "clear"
    requires env.builder.None?
    ensures Dispatch(action, baseURI, context, document, env) == Run([], Returned(Wrapper([])))
  {
  }

  /** The wrapper never carries a child: once it exists the answer is the bare
      wrapper or an escaping exception of a kind outside the catch list; a
      caught failure to create the document builder gives null, and any other
      failure there escapes before a call is made. */
  lemma NoChildEver(action: string, baseURI: Option<string>, context: seq<Resource>, document: Document, env: Collaborators)
    ensures var r := Dispatch(action, baseURI, context, document, env);
      && (r.outcome.Returned? ==>
            r.outcome.response == Wrapper([]) || r.outcome.response == NoDocument)
      && (r.outcome.Thrown? ==> !Catches(r.outcome.error.kind))
      && (r.outcome == Returned(NoDocument) <==> env.builder.Some? && Catches(env.builder.value.kind))
      && (env.builder.Some? && !Catches(env.builder.value.kind) ==> r == Run([], Thrown(env.builder.value)))
      && (env.builder.Some? ==> r.calls == [])
  {
  }

  class SesameTransformer {
    var action: Option<string>
    var baseURI: Option<string>
    var context: array?<Resource>
    var contexts: string
    var repositoryID: Option<string>
    var sesameConnection: Connection?
    var sesameURL: string

    /** The state `setup` leaves behind: an action, a connection, and a context
        array (never null) resolved from the contexts string. */
    ghost predicate Valid()
      reads this, context
    {
      && action.Some?
      && sesameConnection != null
      && context != null
      && context[..] == Contexts(contexts)
    }

    /** Construction followed by `configure`: the URL, base URI and contexts
        string come from the configuration, the contexts defaulting to "". */
    constructor Configure(confURL: Option<string>, confBaseURI: Option<string>, confContexts: Option<string>)
      ensures sesameURL == confURL.GetOr(SesameUrlDefault)
      ensures baseURI == confBaseURI && contexts == confContexts.GetOr(SesameContextsDefault)
      ensures action.None? && repositoryID.None? && sesameConnection == null && context == null
    {
      sesameURL := confURL.GetOr(SesameUrlDefault);
      baseURI := confBaseURI;
      contexts := confContexts.GetOr(SesameContextsDefault);
      action := None;
      repositoryID := None;
      sesameConnection := null;
      context := null;
    }

    /** `setup`: the URL and contexts parameters override the configured
        values, the repository and action parameters are required, the
        context array is resolved and the connection is the repository's. */
    method Setup(urlParam: Option<string>, repositoryParam: string, contextsParam: Option<string>,
                 actionParam: string, conn: Connection)
      modifies this
      ensures Valid()
      ensures sesameURL == urlParam.GetOr(old(sesameURL)) && repositoryID == Some(repositoryParam)
      ensures contexts == contextsParam.GetOr(old(contexts))
      ensures action == Some(actionParam) && sesameConnection == conn && baseURI == old(baseURI)
    {
      sesameURL := urlParam.GetOr(sesameURL);
      repositoryID := Some(repositoryParam);
      contexts := contextsParam.GetOr(contexts);
      action := Some(actionParam);
      context := CreateContexts(contexts);
      sesameConnection := conn;
    }

    /** `addDocument`: serialise the document, then one `add` call carrying
        the context array. */
    method AddDocument(document: Document, env: Collaborators) returns (thrown: Option<Exception>)
      requires Valid()
      modifies sesameConnection
      ensures env.serialiser.Failure? ==>
        sesameConnection.log == old(sesameConnection.log) && thrown == Some(env.serialiser.error)
      ensures env.serialiser.Success? ==>
        sesameConnection.log == old(sesameConnection.log) + [Call.Add(env.serialiser.value, baseURI, Some(context[..]))] &&
        thrown == env.store
    {
      match env.serialiser
      case Failure(e) =>
        thrown := Some(e);
      case Success(bytes) =>
        thrown := sesameConnection.Add(bytes, baseURI, Some(context[..]), env.store);
    }

    /** `clearContext`: `clear(context)` for a non-empty array, `clear()` for
        an empty one. */
    method ClearContext(env: Collaborators) returns (thrown: Option<Exception>)
      requires Valid()
      modifies sesameConnection
      ensures context.Length > 0 ==>
        sesameConnection.log == old(sesameConnection.log) + [ClearContexts(context[..])] && thrown == env.store
      ensures context.Length == 0 ==>
        sesameConnection.log == old(sesameConnection.log) + [ClearAll] && thrown == env.store
    {
      if context.Length > 0 {
        thrown := sesameConnection.Clear(context[..], env.store);
      } else {
        thrown := sesameConnection.ClearEverything(env.store);
      }
    }

    /** `transform`: builds the `response` wrapper, dispatches on the action
        and lets the catch list decide between the bare wrapper and an
        escaping exception. */
    method Transform(document: Document, env: Collaborators) returns (out: TransformOutcome)
      requires Valid()
      modifies sesameConnection
      ensures sesameConnection.log == old(sesameConnection.log) + Dispatch(action.value, baseURI, context[..], document, env).calls
      ensures out == Dispatch(action.value, baseURI, context[..], document, env).outcome
    {
      if env.builder.Some? {
        var e := env.builder.value;
        if Catches(e.kind) {
          return Returned(NoDocument);
        }
        return Thrown(e);
      }
      var responseDocument := Wrapper([]);
      var thrown: Option<Exception> := None;
      var act := action.value;
      if act == "add" {
        thrown := AddDocument(document, env);
      } else if act == "clear" {
        thrown := ClearContext(env);
      }
      if thrown.Some? && !Catches(thrown.value.kind) {
        return Thrown(thrown.value);
      }
      out := Returned(responseDocument);
    }
  }

  /** Two consecutive spaces leave an empty token between them, which
      resolves to the URI of the empty string. */
  lemma EmptyTokenContexts()
    ensures Contexts("a  b") == [Uri("a"), Uri(""), Uri("b")]
  {
    assert JavaString.Join(["a", "", "b"]) == "a  b";
    JavaString.SplitOfJoin(["a", "", "b"]);
  }

  /** `clear` with the contexts "a  b" (two spaces) clears three contexts, the
      middle one the URI of the empty token; the answer is the bare wrapper. */
  method ExampleClearWithEmptyToken(document: Document)
  {
    var env := Collaborators(None, Success([]), None, Success(document), "");
    EmptyTokenContexts();
    var conn := new Connection();
    var transformer := new SesameTransformer.Configure(None, None, None);
    transformer.Setup(None, "repo", Some("a  b"), "clear", conn);
    var out := transformer.Transform(document, env);
    assert conn.log == [ClearContexts([Uri("a"), Uri(""), Uri("b")])];
    assert out == Returned(Wrapper([]));
  }
}
