/**
 The A2A client driver (crates/driver-a2a-client/src): two JSON-RPC dialects, a probe
 that finds out which one an endpoint speaks, and requests that probe once more when
 the endpoint does not know the method. The endpoint is an oracle: any function from
 the requests posted so far to an answer. Calls are described whole and then request by
 request, so that those of several drivers and clones can interleave.
 */
module A2a {
  import opened JsonAccess
  import opened TaskModel

  datatype Wire = Sdk | Spec
  {
    function Name(): string {
      if Sdk? then "sdk" else "spec"
    }
  }

  datatype WireFormat = SdkFormat | SpecFormat | Auto

  datatype Operation =
    | SendMessage(parts: seq<NormalizedPart>, contextId: Option<string>, taskId: Option<string>)
    | GetTask(id: string)
    | CancelTask(id: string)

  datatype NormalizedState =
    | TaskSubmitted | TaskWorking | TaskInputRequired | TaskAuthRequired
    | TaskCompleted | TaskFailed | TaskCanceled | TaskRejected

  datatype NormalizedPart =
    NormalizedPart(text: Option<string>, raw: Option<seq<bv8>>, uri: Option<string>, mimeType: Option<string>)

  datatype NormalizedTask = NormalizedTask(
    id: string,
    contextId: Option<string>,
    state: NormalizedState,
    statusMessage: Option<string>,
    outputParts: seq<NormalizedPart>)

  datatype Kind = Sending | Getting | Cancelling

  function KindOf(op: Operation): Kind {
    if op.SendMessage? then Sending else if op.GetTask? then Getting else Cancelling
  }

  /** A JSON-RPC method; its text is what goes over the wire. */
  datatype Method = Method(wire: Wire, kind: Kind)
  {
    function Text(): string {
      if wire.Sdk? then
        if kind.Sending? then "SendMessage" else if kind.Getting? then "GetTask" else "CancelTask"
      else
        if kind.Sending? then "message/send" else if kind.Getting? then "tasks/get" else "tasks/cancel"
    }
  }

  /** A method is determined by its name. */
  lemma MethodNamesDiffer(one: Method, two: Method)
    requires one.Text() == two.Text()
    ensures one == two
  {
    assert one.Text()[0] == two.Text()[0] && |one.Text()| == |two.Text()|;
  }

  datatype A2aError =
    | Http(detail: string)
    | ProtocolError(detail: string)
    | MethodNotFound(rpcMethod: string, wireFormat: string, serverCode: int, serverMessage: string)
    | ContextLost(serverMessage: string)
    | RemoteError(code: int, message: string)

  // ---------------------------------------------------------------- reading error messages

  predicate At(s: string, word: string, i: nat) {
    i + |word| <= |s| && s[i..i + |word|] == word
  }

  predicate Contains(s: string, word: string) {
    exists i: nat | i <= |s| :: At(s, word, i)
  }

  /**
   Lower-casing maps each character to a string that may depend on its place in the
   text; of Unicode's rules only what they do to lower-case ASCII letters and '_' matters.
   */
  type Lowering = (string, nat) -> string

  predicate Plain(c: char) {
    'a' <= c <= 'z' || c == '_'
  }

  ghost predicate KeepsPlain(lower: Lowering) {
    forall s: string, i: nat | i < |s| && Plain(s[i]) :: lower(s, i) == [s[i]]
  }

  function Lowered(lower: Lowering, s: string, i: nat): string
    requires i <= |s|
    decreases |s| - i
  {
    if i == |s| then "" else lower(s, i) + Lowered(lower, s, i + 1)
  }

  function Spaced(s: string): (r: string)
    ensures |r| == |s|
  {
    seq(|s|, i requires 0 <= i < |s| => if s[i] == '_' then ' ' else s[i])
  }

  const METHOD_NOT_FOUND := -32601
  const CONTEXT_LOST := -32010
  const SERVER_ERROR := -32000
  const MARKER := "method_not_found:"

  /** What the probe takes for an unknown method. */
  predicate LooksLikeMethodNotFound(lower: Lowering, code: int, message: string) {
    code == METHOD_NOT_FOUND || Contains(Spaced(Lowered(lower, message, 0)), "method not found")
  }

  function FromJsonRpcError(code: int, message: string, rpcMethod: string, wireFormat: string): A2aError {
    if code == METHOD_NOT_FOUND || Contains(message, MARKER) then
      MethodNotFound(rpcMethod, wireFormat, code, message)
    else if code == CONTEXT_LOST then ContextLost(message)
    else RemoteError(code, message)
  }

  lemma {:induction false} KeptRun(lower: Lowering, s: string, k: nat, n: nat)
    requires k + n <= |s| && forall i: nat | k <= i < k + n :: lower(s, i) == [s[i]]
    ensures Lowered(lower, s, k) == s[k..k + n] + Lowered(lower, s, k + n)
    decreases n
  {
    if n > 0 {
      KeptRun(lower, s, k + 1, n - 1);
      assert Lowered(lower, s, k) == [s[k]] + Lowered(lower, s, k + 1);
      assert s[k..k + n] == [s[k]] + s[k + 1..k + n];
    }
  }

  lemma {:induction false} LoweredSuffix(lower: Lowering, s: string, i: nat, k: nat) returns (front: string)
    requires i <= k <= |s|
    ensures Lowered(lower, s, i) == front + Lowered(lower, s, k)
    decreases k - i
  {
    if i == k {
      front := "";
    } else {
      var rest := LoweredSuffix(lower, s, i + 1, k);
      front := lower(s, i) + rest;
    }
  }

  lemma SpacedInside(front: string, word: string, back: string)
    ensures Contains(Spaced(front + word + back), Spaced(word))
  {
    var whole := Spaced(front + word + back);
    assert whole[|front|..|front| + |word|] == Spaced(word);
    assert At(whole, Spaced(word), |front|);
  }

  const WORD := "method_not_found"

  lemma MarkerWord(message: string, k: nat)
    requires At(message, MARKER, k)
    ensures At(message, WORD, k)
    ensures forall i | k <= i < k + |WORD| :: Plain(message[i])
    ensures Spaced(WORD) == "method not found"
  {
    assert MARKER == WORD + ":";
    assert forall i | 0 <= i < |WORD| :: message[k + i] == message[k..k + |MARKER|][i] == WORD[i];
    assert forall c | c in WORD :: Plain(c);
    assert forall i | k <= i < k + |WORD| :: message[i] == WORD[i - k];
  }

  lemma MarkerIsProbed(lower: Lowering, message: string)
    requires KeepsPlain(lower) && Contains(message, MARKER)
    ensures Contains(Spaced(Lowered(lower, message, 0)), "method not found")
  {
    var k: nat :| k <= |message| && At(message, MARKER, k);
    MarkerWord(message, k);
    KeptRun(lower, message, k, |WORD|);
    var front := LoweredSuffix(lower, message, 0, k);
    var back := Lowered(lower, message, k + |WORD|);
    assert front + (WORD + back) == front + WORD + back;
    SpacedInside(front, WORD, back);
  }

  /** Every error `execute` calls an unknown method, the probe calls one too. */
  lemma MethodNotFoundIsProbed(lower: Lowering, code: int, message: string, rpcMethod: string, wireFormat: string)
    requires KeepsPlain(lower)
    requires FromJsonRpcError(code, message, rpcMethod, wireFormat).MethodNotFound?
    ensures LooksLikeMethodNotFound(lower, code, message)
  {
    if code != METHOD_NOT_FOUND {
      MarkerIsProbed(lower, message);
    }
  }

  // ---------------------------------------------------------------- answers

  datatype Request = Request(wire: Wire, op: Operation)
  {
    function RpcMethod(): Method {
      Method(wire, KindOf(op))
    }
  }

  datatype Answer = Failed(detail: string) | Body(body: Json)

  /**
   The endpoint, Unicode's lower-casing, and each dialect's reading of a result, which
   fails only with a protocol error.
   */
  datatype Env = Env(
    server: seq<Request> -> Answer,
    lower: Lowering,
    parse: (Wire, Json) -> Result<NormalizedTask, string>)

  function ErrorCode(error: Json): int {
    OrElse(AsI64(Get(error, "code")), SERVER_ERROR)
  }

  function ErrorMessage(error: Json, fallback: string): string {
    OrElse(AsText(Get(error, "message")), fallback)
  }

  /** How the probe reads a body. */
  predicate Recognizes(lower: Lowering, body: Json) {
    var error := Get(body, "error");
    error.Some? ==> !LooksLikeMethodNotFound(lower, ErrorCode(error.value), ErrorMessage(error.value, ""))
  }

  /** How `execute` reads a body. */
  function Outcome(env: Env, request: Request, body: Json, missing: string): Result<NormalizedTask, A2aError> {
    var error, result := Get(body, "error"), Get(body, "result");
    if error.Some? then
      Err(FromJsonRpcError(ErrorCode(error.value), ErrorMessage(error.value, "unknown error"),
                           request.RpcMethod().Text(), request.wire.Name()))
    else if result.None? then Err(ProtocolError(missing))
    else
      var task := env.parse(request.wire, result.value);
      if task.Ok? then Ok(task.value) else Err(ProtocolError(task.error))
  }

  const MISSING := "missing 'result' in JSON-RPC response"
  const MISSING_ON_RETRY := "missing 'result' in JSON-RPC response (retry)"

  /** One answer as its readers see it: the probe, the first attempt and the second. */
  datatype Reading =
    | Lost(detail: string)
    | Read(recognized: bool, first: Result<NormalizedTask, A2aError>, again: Result<NormalizedTask, A2aError>)

  type Line = seq<Request> -> Reading

  function Interpret(env: Env, request: Request, answer: Answer): Reading {
    if answer.Failed? then Lost(answer.detail)
    else Read(Recognizes(env.lower, answer.body), Outcome(env, request, answer.body, MISSING),
              Outcome(env, request, answer.body, MISSING_ON_RETRY))
  }

  function LineOf(env: Env): Line {
    posts => if posts == [] then Lost("") else Interpret(env, posts[|posts| - 1], env.server(posts))
  }

  predicate Unknown(r: Result<NormalizedTask, A2aError>) {
    r.Err? && r.error.MethodNotFound?
  }

  /** What `execute` takes for an unknown method, the probe takes for one. */
  ghost predicate Consistent(line: Line) {
    forall posts: seq<Request> | line(posts).Read? && Unknown(line(posts).first) ::
      !line(posts).recognized && line(posts).again == line(posts).first
  }

  lemma UnknownMeansUnrecognized(env: Env, request: Request, body: Json, missing: string)
    requires KeepsPlain(env.lower) && Unknown(Outcome(env, request, body, missing))
    ensures !Recognizes(env.lower, body)
  {
    var error := Get(body, "error").value;
    var code, message := ErrorCode(error), ErrorMessage(error, "unknown error");
    MethodNotFoundIsProbed(env.lower, code, message, request.RpcMethod().Text(), request.wire.Name());
    assert Get(error, "message").Some? || !Contains("unknown error", MARKER);
  }

  /** The two readers of an answer never contradict each other, for every endpoint. */
  lemma ReadersAreConsistent(env: Env)
    requires KeepsPlain(env.lower)
    ensures Consistent(LineOf(env))
  {
    forall posts: seq<Request> | LineOf(env)(posts).Read? && Unknown(LineOf(env)(posts).first)
      ensures !LineOf(env)(posts).recognized && LineOf(env)(posts).again == LineOf(env)(posts).first
    {
      assert posts != [];
      assert LineOf(env)(posts) == Interpret(env, posts[|posts| - 1], env.server(posts));
      UnknownMeansUnrecognized(env, posts[|posts| - 1], env.server(posts).body, MISSING);
    }
  }

  // ---------------------------------------------------------------- probing and executing on values

  const UNDETECTED :=
    "dialect probe: endpoint did not recognize SDK or Spec GetTask/tasks-get — cannot auto-detect wire_format, specify it explicitly in config"

  /** What the probe concludes from its one or two answers. */
  function Verdict(sdk: Reading, spec: Reading): Result<Wire, A2aError> {
    if sdk.Lost? then Err(Http(sdk.detail))
    else if sdk.recognized then Ok(Sdk)
    else if spec.Lost? then Err(Http(spec.detail))
    else if spec.recognized then Ok(Spec)
    else Err(ProtocolError(UNDETECTED))
  }

  /** `id` is the task id the probe draws. */
  function Probe(line: Line, id: string, posts: seq<Request>): (Result<Wire, A2aError>, seq<Request>) {
    var first := posts + [Request(Sdk, GetTask(id))];
    var second := first + [Request(Spec, GetTask(id))];
    (Verdict(line(first), line(second)), if line(first).Lost? || line(first).recognized then first else second)
  }

  datatype Done = Done(result: Result<NormalizedTask, A2aError>, cache: Option<Wire>, posts: seq<Request>)

  function First(line: Line, posts: seq<Request>): Result<NormalizedTask, A2aError> {
    if line(posts).Lost? then Err(Http(line(posts).detail)) else line(posts).first
  }

  function Again(line: Line, posts: seq<Request>): Result<NormalizedTask, A2aError> {
    if line(posts).Lost? then Err(Http(line(posts).detail)) else line(posts).again
  }

  function Retry(line: Line, id: string, cache: Option<Wire>, op: Operation, posts: seq<Request>): Done {
    var probed := Probe(line, id, posts);
    if probed.0.Err? then Done(Err(probed.0.error), cache, probed.1)
    else
      var asked := probed.1 + [Request(probed.0.value, op)];
      Done(Again(line, asked), cache, asked)
  }

  function ExecuteOn(line: Line, ids: (string, string), fixed: Option<Wire>, cache: Option<Wire>, wire: Wire,
                        op: Operation, posts: seq<Request>): Done
  {
    var asked := posts + [Request(wire, op)];
    if fixed.None? && Unknown(First(line, asked)) then Retry(line, ids.1, cache, op, asked)
    else Done(First(line, asked), cache, asked)
  }

  /** `ids` are the task ids the first and the second probe draw. */
  function Execute(line: Line, ids: (string, string), fixed: Option<Wire>, cache: Option<Wire>, op: Operation,
                      posts: seq<Request>): Done
  {
    if fixed.Some? then ExecuteOn(line, ids, fixed, cache, fixed.value, op, posts)
    else if cache.Some? then ExecuteOn(line, ids, fixed, cache, cache.value, op, posts)
    else
      var probed := Probe(line, ids.0, posts);
      if probed.0.Err? then Done(Err(probed.0.error), None, probed.1)
      else ExecuteOn(line, ids, fixed, Some(probed.0.value), probed.0.value, op, probed.1)
  }

  // ---------------------------------------------------------------- the driver

  class A2aClientDriver {
    const wire: Option<Wire>
    /** Filled at most once. */
    var autoWireCache: Option<Wire>

    constructor (format: WireFormat)
      ensures wire == (if format.Auto? then None else if format.SdkFormat? then Some(Sdk) else Some(Spec))
      ensures autoWireCache == None
    {
      wire := if format.Auto? then None else if format.SdkFormat? then Some(Sdk) else Some(Spec);
      autoWireCache := None;
    }

    constructor CloneState(other: A2aClientDriver)
      ensures wire == other.wire && autoWireCache == other.autoWireCache
    {
      wire, autoWireCache := other.wire, other.autoWireCache;
    }

    /** The agent card never decides, so resolving is probing; a failed probe leaves the cache empty. */
    method ResolvedWire(env: Env, id: string, posts: seq<Request>)
      returns (r: Result<Wire, A2aError>, posts': seq<Request>)
      modifies this
      ensures old(autoWireCache).Some? || wire.Some? ==> autoWireCache == old(autoWireCache) && posts' == posts
      ensures wire.Some? ==> r == Ok(wire.value)
      ensures wire.None? && old(autoWireCache).Some? ==> r == Ok(old(autoWireCache).value)
      ensures wire.None? && old(autoWireCache).None? ==>
        && (r, posts') == Probe(LineOf(env), id, posts)
        && autoWireCache == if r.Ok? then Some(r.value) else None
    {
      if wire.Some? {
        return Ok(wire.value), posts;
      }
      if autoWireCache.Some? {
        return Ok(autoWireCache.value), posts;
      }
      r, posts' := ProbeWireFormat(env, id, posts);
      if r.Ok? {
        autoWireCache := Some(r.value);
      }
    }

    method ExecuteOperation(env: Env, ids: (string, string), op: Operation, posts: seq<Request>)
      returns (r: Result<NormalizedTask, A2aError>, posts': seq<Request>)
      modifies this
      ensures Done(r, autoWireCache, posts') == Execute(LineOf(env), ids, wire, old(autoWireCache), op, posts)
    {
      var resolved;
      resolved, posts' := ResolvedWire(env, ids.0, posts);
      if resolved.Err? {
        return Err(resolved.error), posts';
      }
      r, posts' := Post(env, Request(resolved.value, op), posts', MISSING);
      assert r == First(LineOf(env), posts');
      if wire.None? && Unknown(r) {
        var again;
        again, posts' := ProbeWireFormat(env, ids.1, posts');
        if again.Err? {
          return Err(again.error), posts';
        }
        r, posts' := Post(env, Request(again.value, op), posts', MISSING_ON_RETRY);
        assert r == Again(LineOf(env), posts');
      }
    }
  }

  method Post(env: Env, request: Request, posts: seq<Request>, missing: string)
    returns (r: Result<NormalizedTask, A2aError>, posts': seq<Request>)
    ensures posts' == posts + [request]
    ensures var answer := env.server(posts');
            r == if answer.Failed? then Err(Http(answer.detail)) else Outcome(env, request, answer.body, missing)
  {
    posts' := posts + [request];
    var answer := env.server(posts');
    r := if answer.Failed? then Err(Http(answer.detail)) else Outcome(env, request, answer.body, missing);
  }

  method ProbeWireFormat(env: Env, id: string, posts: seq<Request>)
    returns (r: Result<Wire, A2aError>, posts': seq<Request>)
    ensures (r, posts') == Probe(LineOf(env), id, posts)
  {
    posts' := posts + [Request(Sdk, GetTask(id))];
    var answer := env.server(posts');
    if answer.Failed? {
      return Err(Http(answer.detail)), posts';
    }
    if Recognizes(env.lower, answer.body) {
      return Ok(Sdk), posts';
    }
    posts' := posts' + [Request(Spec, GetTask(id))];
    answer := env.server(posts');
    if answer.Failed? {
      return Err(Http(answer.detail)), posts';
    }
    r := if Recognizes(env.lower, answer.body) then Ok(Spec) else Err(ProtocolError(UNDETECTED));
  }

  // ---------------------------------------------------------------- how many requests

  lemma ProbePosts(line: Line, id: string, posts: seq<Request>)
    ensures posts <= Probe(line, id, posts).1 && |posts| + 1 <= |Probe(line, id, posts).1| <= |posts| + 2
  {
  }

  lemma PostsFrom(line: Line, ids: (string, string), fixed: Option<Wire>, cache: Option<Wire>, wire: Wire,
                     op: Operation, posts: seq<Request>)
    ensures var after := ExecuteOn(line, ids, fixed, cache, wire, op, posts).posts;
            && posts + [Request(wire, op)] <= after && |after| <= |posts| + 4
            && (fixed.Some? ==> after == posts + [Request(wire, op)])
  {
    ProbePosts(line, ids.1, posts + [Request(wire, op)]);
  }

  /** Whatever the endpoint answers: one request in a fixed dialect, at most four with a filled cache, six at most. */
  lemma AtMostSixPosts(line: Line, ids: (string, string), fixed: Option<Wire>, cache: Option<Wire>,
                          op: Operation, posts: seq<Request>)
    ensures var after := Execute(line, ids, fixed, cache, op, posts).posts;
            && posts <= after && |posts| < |after| <= |posts| + 6
            && (fixed.Some? ==> after == posts + [Request(fixed.value, op)])
            && (cache.Some? ==> |after| <= |posts| + 4)
  {
    if fixed.Some? {
      PostsFrom(line, ids, fixed, cache, fixed.value, op, posts);
    } else if cache.Some? {
      PostsFrom(line, ids, fixed, cache, cache.value, op, posts);
    } else {
      ProbePosts(line, ids.0, posts);
      var probed := Probe(line, ids.0, posts);
      if probed.0.Ok? {
        PostsFrom(line, ids, fixed, Some(probed.0.value), probed.0.value, op, probed.1);
      }
    }
  }

  // ---------------------------------------------------------------- endpoints that know methods by name

  /** Whenever the endpoint answers at all, whether it knows the method depends on the name alone. */
  ghost predicate KnowsByName(line: Line, known: Method -> bool) {
    forall posts: seq<Request> | posts != [] && line(posts).Read? ::
      line(posts).recognized == known(posts[|posts| - 1].RpcMethod())
  }

  /** The dialect such an endpoint speaks; `Sdk` goes first. */
  predicate Speaks(known: Method -> bool, wire: Wire) {
    if known(Method(Sdk, Getting)) then wire == Sdk else wire == Spec && known(Method(Spec, Getting))
  }

  lemma KnownByName(line: Line, known: Method -> bool, posts: seq<Request>, request: Request)
    requires KnowsByName(line, known)
    ensures line(posts + [request]).Read? ==> line(posts + [request]).recognized == known(request.RpcMethod())
  {
    assert (posts + [request])[|posts|] == request;
  }

  lemma VerdictDecides(sdk: Reading, spec: Reading, a: bool, b: bool)
    requires (sdk.Read? ==> sdk.recognized == a) && (spec.Read? ==> spec.recognized == b)
    ensures var verdict := Verdict(sdk, spec);
            if verdict.Ok? then verdict.value == (if a then Sdk else Spec) && (a || b)
            else verdict.error.Http? || !(a || b)
  {
  }

  lemma ProbeReadings(line: Line, known: Method -> bool, id: string, posts: seq<Request>, first: seq<Request>,
                      second: seq<Request>)
    requires KnowsByName(line, known)
    requires first == posts + [Request(Sdk, GetTask(id))] && second == first + [Request(Spec, GetTask(id))]
    ensures line(first).Read? ==> line(first).recognized == known(Method(Sdk, Getting))
    ensures line(second).Read? ==> line(second).recognized == known(Method(Spec, Getting))
  {
    KnownByName(line, known, posts, Request(Sdk, GetTask(id)));
    KnownByName(line, known, first, Request(Spec, GetTask(id)));
  }

  ghost predicate Found(known: Method -> bool, probed: Result<Wire, A2aError>) {
    if probed.Ok? then Speaks(known, probed.value)
    else probed.error.Http? || !(known(Method(Sdk, Getting)) || known(Method(Spec, Getting)))
  }

  lemma ProbeFindsFrom(line: Line, known: Method -> bool, id: string, posts: seq<Request>, first: seq<Request>,
                       second: seq<Request>)
    requires first == posts + [Request(Sdk, GetTask(id))] && second == first + [Request(Spec, GetTask(id))]
    requires line(first).Read? ==> line(first).recognized == known(Method(Sdk, Getting))
    requires line(second).Read? ==> line(second).recognized == known(Method(Spec, Getting))
    ensures Found(known, Probe(line, id, posts).0)
  {
    VerdictDecides(line(first), line(second), known(Method(Sdk, Getting)), known(Method(Spec, Getting)));
  }

  /** A probe finds the endpoint's dialect, and fails only with the transport or when there is none. */
  lemma ProbeFindsTheDialect(line: Line, known: Method -> bool, id: string, posts: seq<Request>)
    requires KnowsByName(line, known)
    ensures Found(known, Probe(line, id, posts).0)
  {
    var first := posts + [Request(Sdk, GetTask(id))];
    var second := first + [Request(Spec, GetTask(id))];
    ProbeReadings(line, known, id, posts, first, second);
    ProbeFindsFrom(line, known, id, posts, first, second);
  }

  lemma OneDialect(known: Method -> bool, one: Wire, two: Wire)
    requires Speaks(known, one) && Speaks(known, two)
    ensures one == two
  {
  }

  ghost predicate Right(known: Method -> bool, cache: Option<Wire>) {
    cache.Some? ==> Speaks(known, cache.value)
  }

  // ---------------------------------------------------------------- one call, request by request

  /** Where a call on an automatic driver stands between two requests. */
  datatype Point =
    | Resolving
    | ProbingSpec
    | Attempting(wire: Wire)
    | Reprobing
    | ReprobingSpec
    | Reattempting(wire: Wire)
    | Undetected
    | Dropped
    | Finished(result: Result<NormalizedTask, A2aError>)

  predicate Over(at: Point) {
    at.Undetected? || at.Finished?
  }

  function ResultAt(at: Point): Result<NormalizedTask, A2aError>
    requires Over(at)
  {
    if at.Undetected? then Err(ProtocolError(UNDETECTED)) else at.result
  }

  /** `made` counts the requests of the call. */
  datatype Conversation = Conversation(ids: (string, string), op: Operation, at: Point, made: nat)

  datatype Turn = Turn(conversation: Conversation, cache: Option<Wire>, posts: seq<Request>)

  /** One request posted; the call goes on at `at`. */
  function Posted(t: Turn, request: Request, at: Point, cache: Option<Wire>): Turn {
    Turn(t.conversation.(at := at, made := t.conversation.made + 1), cache, t.posts + [request])
  }

  function Probing(line: Line, t: Turn, wire: Wire, id: string, found: Point, fill: bool, otherwise: Point): Turn {
    var request := Request(wire, GetTask(id));
    var reading := line(t.posts + [request]);
    if reading.Lost? then Posted(t, request, Finished(Err(Http(reading.detail))), t.cache)
    else if reading.recognized then Posted(t, request, found, if fill then Some(wire) else t.cache)
    else Posted(t, request, otherwise, t.cache)
  }

  /** The next request of a call, or the look at the filled cache that spares it a probe. */
  function Proceed(line: Line, t: Turn): Turn {
    var c := t.conversation;
    match c.at
    case Resolving =>
      if t.cache.Some? then t.(conversation := c.(at := Attempting(t.cache.value)))
      else Probing(line, t, Sdk, c.ids.0, Attempting(Sdk), true, ProbingSpec)
    case ProbingSpec =>
      Probing(line, t, Spec, c.ids.0, Attempting(Spec), true, Undetected)
    case Attempting(wire) =>
      var request := Request(wire, c.op);
      var r := First(line, t.posts + [request]);
      Posted(t, request, if Unknown(r) then Reprobing else Finished(r), t.cache)
    case Reprobing => Probing(line, t, Sdk, c.ids.1, Reattempting(Sdk), false, ReprobingSpec)
    case ReprobingSpec =>
      Probing(line, t, Spec, c.ids.1, Reattempting(Spec), false, Undetected)
    case Reattempting(wire) =>
      var request := Request(wire, c.op);
      Posted(t, request, Finished(Again(line, t.posts + [request])), t.cache)
    case Undetected => t
    case Dropped => t
    case Finished(_) => t
  }

  function Ahead(at: Point): nat {
    match at
    case Resolving => 6
    case ProbingSpec => 5
    case Attempting(_) => 4
    case Reprobing => 3
    case ReprobingSpec => 2
    case Reattempting(_) => 1
    case Undetected => 0
    case Dropped => 0
    case Finished(_) => 0
  }

  lemma ProceedsAhead(line: Line, t: Turn)
    requires Ahead(t.conversation.at) > 0
    ensures Ahead(Proceed(line, t).conversation.at) < Ahead(t.conversation.at)
  {
  }

  /** The call carried through without interruption. */
  function Finish(line: Line, t: Turn): Turn
    decreases Ahead(t.conversation.at)
  {
    if Ahead(t.conversation.at) == 0 then t
    else
      ProceedsAhead(line, t);
      Finish(line, Proceed(line, t))
  }

  ghost predicate Ends(t: Turn, done: Done) {
    Over(t.conversation.at) && ResultAt(t.conversation.at) == done.result && t.cache == done.cache && t.posts == done.posts
  }

  lemma FinishRetry(line: Line, t: Turn)
    requires t.conversation.at.Reprobing?
    ensures Ends(Finish(line, t), Retry(line, t.conversation.ids.1, t.cache, t.conversation.op, t.posts))
  {
    var t1 := Proceed(line, t);
    if t1.conversation.at.ReprobingSpec? {
      var t2 := Proceed(line, t1);
      assert Finish(line, t1) == Finish(line, t2);
      if t2.conversation.at.Reattempting? {
        assert Finish(line, t2) == Proceed(line, t2);
      }
    } else if t1.conversation.at.Reattempting? {
      assert Finish(line, t1) == Proceed(line, t1);
    }
  }

  lemma FinishAttempt(line: Line, t: Turn)
    requires t.conversation.at.Attempting?
    ensures var c := t.conversation;
            Ends(Finish(line, t), ExecuteOn(line, c.ids, None, t.cache, c.at.wire, c.op, t.posts))
  {
    var t1 := Proceed(line, t);
    if t1.conversation.at.Reprobing? {
      FinishRetry(line, t1);
    }
  }

  /** Request by request, an uninterrupted call is `execute`. */
  lemma FinishIsExecute(line: Line, ids: (string, string), op: Operation, cache: Option<Wire>, posts: seq<Request>)
    ensures Ends(Finish(line, Turn(Conversation(ids, op, Resolving, 0), cache, posts)),
                 Execute(line, ids, None, cache, op, posts))
  {
    var t := Turn(Conversation(ids, op, Resolving, 0), cache, posts);
    var t1 := Proceed(line, t);
    if t1.conversation.at.Attempting? {
      FinishAttempt(line, t1);
    } else if t1.conversation.at.ProbingSpec? {
      var t2 := Proceed(line, t1);
      assert Finish(line, t1) == Finish(line, t2);
      if t2.conversation.at.Attempting? {
        FinishAttempt(line, t2);
      }
    }
  }

  // ---------------------------------------------------------------- many drivers and calls at once

  /**
   Automatic drivers on one endpoint: new ones, clones of others, and calls on any of
   them, whose requests interleave, and which may be dropped at any time, a request whose
   answer nobody hears possibly being in flight. The cache of a driver is filled by one
   call at a time; the others on that driver wait, and go on when that call is dropped.
   */
  datatype Step =
    | Open
    | Clone(driver: nat)
    | Begin(driver: nat, ids: (string, string), op: Operation)
    | Advance(call: nat)
    | Abandon(call: nat, inFlight: Option<Request>)
  datatype Ongoing = Ongoing(driver: nat, conversation: Conversation)
  datatype Fleet = Fleet(caches: seq<Option<Wire>>, calls: seq<Ongoing>, posts: seq<Request>)

  predicate Locked(fleet: Fleet, driver: nat) {
    exists j | 0 <= j < |fleet.calls| ::
      fleet.calls[j].driver == driver && fleet.calls[j].conversation.at.ProbingSpec?
  }

  /** The call may go on: its driver's cache is being filled by no other call. */
  predicate MayGoOn(fleet: Fleet, i: nat)
    requires i < |fleet.calls|
  {
    && fleet.calls[i].driver < |fleet.caches|
    && (fleet.calls[i].conversation.at.Resolving? ==> !Locked(fleet, fleet.calls[i].driver))
  }

  function TurnOf(fleet: Fleet, i: nat): Turn
    requires i < |fleet.calls| && fleet.calls[i].driver < |fleet.caches|
  {
    Turn(fleet.calls[i].conversation, fleet.caches[fleet.calls[i].driver], fleet.posts)
  }

  function Put(fleet: Fleet, i: nat, t: Turn): Fleet
    requires i < |fleet.calls| && fleet.calls[i].driver < |fleet.caches|
  {
    Fleet(fleet.caches[fleet.calls[i].driver := t.cache],
          fleet.calls[i := fleet.calls[i].(conversation := t.conversation)], t.posts)
  }

  function Dismiss(fleet: Fleet, i: nat, inFlight: Option<Request>): Fleet
    requires i < |fleet.calls|
  {
    var call := fleet.calls[i];
    fleet.(calls := fleet.calls[i := call.(conversation := call.conversation.(at := Dropped))],
           posts := fleet.posts + if inFlight.Some? then [inFlight.value] else [])
  }

  function Go(line: Line, fleet: Fleet, step: Step): Fleet {
    match step
    case Open => fleet.(caches := fleet.caches + [None])
    case Clone(i) => if i < |fleet.caches| then fleet.(caches := fleet.caches + [fleet.caches[i]]) else fleet
    case Begin(i, ids, op) =>
      if i < |fleet.caches|
      then fleet.(calls := fleet.calls + [Ongoing(i, Conversation(ids, op, Resolving, 0))]) else fleet
    case Advance(i) =>
      if i < |fleet.calls| && MayGoOn(fleet, i) then Put(fleet, i, Proceed(line, TurnOf(fleet, i))) else fleet
    case Abandon(i, inFlight) =>
      if i < |fleet.calls| && !Over(fleet.calls[i].conversation.at) then Dismiss(fleet, i, inFlight) else fleet
  }

  function Run(line: Line, steps: seq<Step>): Fleet {
    if steps == [] then Fleet([], [], [])
    else Go(line, Run(line, steps[..|steps| - 1]), steps[|steps| - 1])
  }

  // ---------------------------------------------------------------- what every interleaving keeps

  /** What the point a call has reached says about the endpoint and about its requests. */
  ghost predicate Sound(known: Method -> bool, c: Conversation) {
    && (c.at.Attempting? || c.at.Reattempting? ==> Speaks(known, c.at.wire))
    && (c.at.ProbingSpec? || c.at.ReprobingSpec? ==> !known(Method(Sdk, Getting)))
    && (c.op.GetTask? ==> !c.at.Reprobing? && !c.at.ReprobingSpec? && !c.at.Reattempting?)
    && (c.op.GetTask? && c.at.Finished? ==> !Unknown(c.at.result))
    && c.made + Ahead(c.at) <= 6
  }

  ghost predicate SoundTurn(known: Method -> bool, t: Turn) {
    Right(known, t.cache) && Sound(known, t.conversation)
  }

  ghost predicate AllRight(known: Method -> bool, fleet: Fleet) {
    && (forall i | 0 <= i < |fleet.caches| :: Right(known, fleet.caches[i]))
    && (forall i | 0 <= i < |fleet.calls| :: Sound(known, fleet.calls[i].conversation))
  }

  lemma ProbeIsSound(line: Line, known: Method -> bool, t: Turn)
    requires KnowsByName(line, known) && SoundTurn(known, t)
    requires var at := t.conversation.at;
             at.ProbingSpec? || at.Reprobing? || at.ReprobingSpec? || (at.Resolving? && t.cache.None?)
    ensures SoundTurn(known, Proceed(line, t))
  {
    var c := t.conversation;
    var wire := if c.at.Resolving? || c.at.Reprobing? then Sdk else Spec;
    var id := if c.at.Resolving? || c.at.ProbingSpec? then c.ids.0 else c.ids.1;
    KnownByName(line, known, t.posts, Request(wire, GetTask(id)));
  }

  lemma AttemptIsSound(line: Line, known: Method -> bool, t: Turn)
    requires KnowsByName(line, known) && Consistent(line) && SoundTurn(known, t)
    requires t.conversation.at.Attempting?
    ensures SoundTurn(known, Proceed(line, t))
  {
    var c := t.conversation;
    KnownByName(line, known, t.posts, Request(c.at.wire, c.op));
  }

  lemma ProceedIsSound(line: Line, known: Method -> bool, t: Turn)
    requires KnowsByName(line, known) && Consistent(line) && SoundTurn(known, t)
    ensures SoundTurn(known, Proceed(line, t))
  {
    var at := t.conversation.at;
    if at.Attempting? {
      AttemptIsSound(line, known, t);
    } else if at.ProbingSpec? || at.Reprobing? || at.ReprobingSpec? || (at.Resolving? && t.cache.None?) {
      ProbeIsSound(line, known, t);
    }
  }

  lemma PutIsRight(known: Method -> bool, fleet: Fleet, i: nat, t: Turn)
    requires AllRight(known, fleet) && i < |fleet.calls| && fleet.calls[i].driver < |fleet.caches|
    requires SoundTurn(known, t)
    ensures AllRight(known, Put(fleet, i, t))
  {
  }

  lemma GoIsRight(line: Line, known: Method -> bool, fleet: Fleet, step: Step)
    requires KnowsByName(line, known) && Consistent(line) && AllRight(known, fleet)
    ensures AllRight(known, Go(line, fleet, step))
  {
    if step.Advance? {
      var i := step.call;
      if i < |fleet.calls| && MayGoOn(fleet, i) {
        ProceedIsSound(line, known, TurnOf(fleet, i));
        PutIsRight(known, fleet, i, Proceed(line, TurnOf(fleet, i)));
      }
    }
  }

  lemma {:induction false} EveryRunIsRight(line: Line, known: Method -> bool, steps: seq<Step>)
    requires KnowsByName(line, known) && Consistent(line)
    ensures AllRight(known, Run(line, steps))
  {
    if steps != [] {
      var n := |steps| - 1;
      EveryRunIsRight(line, known, steps[..n]);
      GoIsRight(line, known, Run(line, steps[..n]), steps[n]);
    }
  }

  /**
   All drivers and clones that have settled on a dialect have settled on the same one,
   however their probes and requests interleave.
   */
  lemma ClonesResolveAlike(env: Env, known: Method -> bool, steps: seq<Step>, i: nat, j: nat)
    requires KeepsPlain(env.lower) && KnowsByName(LineOf(env), known)
    requires var caches := Run(LineOf(env), steps).caches;
             i < |caches| && j < |caches| && caches[i].Some? && caches[j].Some?
    ensures var caches := Run(LineOf(env), steps).caches;
            caches[i] == caches[j] && Speaks(known, caches[i].value)
  {
    ReadersAreConsistent(env);
    EveryRunIsRight(LineOf(env), known, steps);
    var caches := Run(LineOf(env), steps).caches;
    assert Right(known, caches[i]) && Right(known, caches[j]);
  }

  lemma SoundIsKnown(known: Method -> bool, c: Conversation)
    requires Sound(known, c)
    ensures (c.op.GetTask? && Over(c.at) ==> !Unknown(ResultAt(c.at))) && c.made <= 6
  {
    if c.at.Undetected? {
      assert ResultAt(c.at).error.ProtocolError?;
    }
  }

  /**
   However calls interleave, asking an automatic driver for a task never ends in an unknown
   method, and no call of any kind makes more than six requests.
   */
  lemma AutoGetTaskIsKnown(env: Env, known: Method -> bool, steps: seq<Step>, i: nat)
    requires KeepsPlain(env.lower) && KnowsByName(LineOf(env), known)
    requires i < |Run(LineOf(env), steps).calls|
    ensures var c := Run(LineOf(env), steps).calls[i].conversation;
            (c.op.GetTask? && Over(c.at) ==> !Unknown(ResultAt(c.at))) && c.made <= 6
  {
    ReadersAreConsistent(env);
    EveryRunIsRight(LineOf(env), known, steps);
    SoundIsKnown(known, Run(LineOf(env), steps).calls[i].conversation);
  }

  // ---------------------------------------------------------------- clones of settled drivers

  ghost predicate CallsHaveDrivers(fleet: Fleet) {
    forall i | 0 <= i < |fleet.calls| :: fleet.calls[i].driver < |fleet.caches|
  }

  lemma {:induction false} EveryCallHasADriver(line: Line, steps: seq<Step>)
    ensures CallsHaveDrivers(Run(line, steps))
  {
    if steps != [] {
      EveryCallHasADriver(line, steps[..|steps| - 1]);
    }
  }

  lemma RunSnoc(line: Line, steps: seq<Step>, step: Step)
    ensures Run(line, steps + [step]) == Go(line, Run(line, steps), step)
  {
    assert (steps + [step])[..|steps|] == steps;
  }

  lemma ClonedCall(line: Line, steps: seq<Step>, i: nat, ids: (string, string), op: Operation)
    requires i < |Run(line, steps).caches|
    ensures var fleet := Run(line, steps);
            var begun := Run(line, steps + [Clone(i)] + [Begin(|fleet.caches|, ids, op)]);
            && begun.posts == fleet.posts && begun.caches == fleet.caches + [fleet.caches[i]]
            && begun.calls == fleet.calls + [Ongoing(|fleet.caches|, Conversation(ids, op, Resolving, 0))]
            && !Locked(begun, |fleet.caches|)
  {
    RunSnoc(line, steps, Clone(i));
    RunSnoc(line, steps + [Clone(i)], Begin(|Run(line, steps).caches|, ids, op));
    EveryCallHasADriver(line, steps);
  }

  /** A clone of a driver that has settled on a dialect posts its first request in it, without a probe. */
  lemma ClonesOfSettledDriversDoNotProbe(line: Line, steps: seq<Step>, i: nat, ids: (string, string), op: Operation)
    requires i < |Run(line, steps).caches| && Run(line, steps).caches[i].Some?
    ensures var fleet := Run(line, steps);
            var call := Advance(|fleet.calls|);
            Run(line, steps + [Clone(i)] + [Begin(|fleet.caches|, ids, op)] + [call] + [call]).posts ==
            fleet.posts + [Request(fleet.caches[i].value, op)]
  {
    var fleet := Run(line, steps);
    var begun := steps + [Clone(i)] + [Begin(|fleet.caches|, ids, op)];
    var call := Advance(|fleet.calls|);
    ClonedCall(line, steps, i, ids, op);
    RunSnoc(line, begun, call);
    RunSnoc(line, begun + [call], call);
  }

  // ---------------------------------------------------------------- what the retry can achieve

  /** The answer depends on nothing but the request. */
  ghost predicate Stateless(line: Line, answer: Request -> Reading) {
    forall posts: seq<Request> | posts != [] :: line(posts) == answer(posts[|posts| - 1])
  }

  lemma RetryResult(line: Line, ids: (string, string), wire: Wire, op: Operation, posts: seq<Request>,
                    asked: seq<Request>, probed: (Result<Wire, A2aError>, seq<Request>))
    requires asked == posts + [Request(wire, op)] && Unknown(First(line, asked))
    requires probed == Probe(line, ids.1, asked)
    ensures ExecuteOn(line, ids, None, Some(wire), wire, op, posts) ==
            if probed.0.Err? then Done(Err(probed.0.error), Some(wire), probed.1)
            else
              var again := probed.1 + [Request(probed.0.value, op)];
              Done(Again(line, again), Some(wire), again)
  {
  }

  /**
   On an endpoint that knows methods by name, with whatever state, the second attempt uses
   the dialect of the first, and only the transport can keep it from being made.
   */
  lemma RetryKeepsTheDialect(line: Line, known: Method -> bool, ids: (string, string), wire: Wire, op: Operation,
                             posts: seq<Request>)
    requires KnowsByName(line, known) && Speaks(known, wire)
    requires Unknown(First(line, posts + [Request(wire, op)]))
    ensures var probed := Probe(line, ids.1, posts + [Request(wire, op)]);
            var again := probed.1 + [Request(wire, op)];
            && (probed.0.Err? ==> probed.0.error.Http?)
            && ExecuteOn(line, ids, None, Some(wire), wire, op, posts) ==
               if probed.0.Ok? then Done(Again(line, again), Some(wire), again)
               else Done(Err(probed.0.error), Some(wire), probed.1)
  {
    var asked := posts + [Request(wire, op)];
    var probed := Probe(line, ids.1, asked);
    ProbeFindsTheDialect(line, known, ids.1, asked);
    RetryResult(line, ids, wire, op, posts, asked, probed);
    if probed.0.Ok? {
      OneDialect(known, wire, probed.0.value);
    }
  }

  /** If the endpoint keeps no state either, the second attempt ends in the error of the first. */
  lemma RetryRepeats(line: Line, known: Method -> bool, answer: Request -> Reading, ids: (string, string),
                     wire: Wire, op: Operation, posts: seq<Request>)
    requires KnowsByName(line, known) && Consistent(line) && Stateless(line, answer) && Speaks(known, wire)
    requires Unknown(First(line, posts + [Request(wire, op)]))
    requires Probe(line, ids.1, posts + [Request(wire, op)]).0.Ok?
    ensures ExecuteOn(line, ids, None, Some(wire), wire, op, posts).result == First(line, posts + [Request(wire, op)])
  {
    var asked := posts + [Request(wire, op)];
    var probed := Probe(line, ids.1, asked);
    RetryKeepsTheDialect(line, known, ids, wire, op, posts);
    SameAnswer(line, answer, posts, probed.1, Request(wire, op));
    SecondIsFirst(line, asked, probed.1 + [Request(wire, op)]);
  }

  lemma SecondIsFirst(line: Line, one: seq<Request>, two: seq<Request>)
    requires Consistent(line) && line(one) == line(two) && Unknown(First(line, one))
    ensures Again(line, two) == First(line, one)
  {
  }

  lemma SameAnswer(line: Line, answer: Request -> Reading, one: seq<Request>, two: seq<Request>,
                      request: Request)
    requires Stateless(line, answer)
    ensures line(one + [request]) == line(two + [request])
  {
    assert (one + [request])[|one|] == request && (two + [request])[|two|] == request;
  }
}
