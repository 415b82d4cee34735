/**
 What a call of the A2A client driver comes to, told from the fields of the answers
 (crates/driver-a2a-client/src/lib.rs, error.rs and dialect_probe.rs).
 */
module A2aAnswers {
  import opened JsonAccess
  import opened TaskModel
  import opened A2a

  /** The name of the method an operation calls. */
  function MethodName(wire: Wire, op: Operation): string {
    match op
    case SendMessage(_, _, _) => if wire == Sdk then "SendMessage" else "message/send"
    case GetTask(_) => if wire == Sdk then "GetTask" else "tasks/get"
    case CancelTask(_) => if wire == Sdk then "CancelTask" else "tasks/cancel"
  }

  predicate HasField(body: Json, key: string) {
    body.JObject? && key in body.fields
  }

  function CodeIn(error: Json): int {
    if HasField(error, "code") && error.fields["code"].JNumber? &&
       -0x8000_0000_0000_0000 <= error.fields["code"].number <= 0x7FFF_FFFF_FFFF_FFFF
    then error.fields["code"].number else -32000
  }

  function MessageIn(error: Json, fallback: string): string {
    if HasField(error, "message") && error.fields["message"].JString? then error.fields["message"].text else fallback
  }

  ghost predicate OccursIn(word: string, text: string) {
    exists front: string, back: string :: text == front + word + back
  }

  /** The error a JSON-RPC error object stands for. */
  ghost predicate ErrorIs(wire: Wire, op: Operation, error: Json, e: A2aError) {
    var code, message := CodeIn(error), MessageIn(error, "unknown error");
    && (code == -32601 || OccursIn("method_not_found:", message) ==>
          e == MethodNotFound(MethodName(wire, op), if wire == Sdk then "sdk" else "spec", code, message))
    && (code != -32601 && !OccursIn("method_not_found:", message) ==>
          e == if code == -32010 then ContextLost(message) else RemoteError(code, message))
  }

  /** What one answer makes of a request. */
  ghost predicate ResultIs(env: Env, wire: Wire, op: Operation, answer: Answer, missing: string,
                           r: Result<NormalizedTask, A2aError>)
  {
    match answer
    case Failed(detail) => r == Err(Http(detail))
    case Body(body) =>
      if HasField(body, "error") then r.Err? && ErrorIs(wire, op, body.fields["error"], r.error)
      else if !HasField(body, "result") then r == Err(ProtocolError(missing))
      else
        match env.parse(wire, body.fields["result"])
        case Ok(task) => r == Ok(task)
        case Err(detail) => r == Err(ProtocolError(detail))
  }

  lemma ContainsIsOccurs(text: string, word: string)
    ensures Contains(text, word) <==> OccursIn(word, text)
  {
    if Contains(text, word) {
      var i: nat :| i <= |text| && At(text, word, i);
      assert text == text[..i] + word + text[i + |word|..];
    }
    if OccursIn(word, text) {
      var front: string, back: string :| text == front + word + back;
      assert text[|front|..|front| + |word|] == word;
      assert At(text, word, |front|);
    }
  }

  lemma MethodTexts(wire: Wire, op: Operation)
    ensures Request(wire, op).RpcMethod().Text() == MethodName(wire, op)
  {
  }

  lemma OutcomeIsResult(env: Env, wire: Wire, op: Operation, body: Json, missing: string)
    ensures ResultIs(env, wire, op, Body(body), missing, Outcome(env, Request(wire, op), body, missing))
  {
    MethodTexts(wire, op);
    if HasField(body, "error") {
      ContainsIsOccurs(MessageIn(body.fields["error"], "unknown error"), "method_not_found:");
    }
  }

  lemma LineReads(env: Env, posts: seq<Request>, request: Request)
    ensures LineOf(env)(posts + [request]) == Interpret(env, request, env.server(posts + [request]))
  {
    assert (posts + [request])[|posts|] == request;
  }

  lemma FirstIsResult(env: Env, posts: seq<Request>, wire: Wire, op: Operation)
    ensures var asked := posts + [Request(wire, op)];
            ResultIs(env, wire, op, env.server(asked), "missing 'result' in JSON-RPC response", First(LineOf(env), asked))
  {
    var asked := posts + [Request(wire, op)];
    LineReads(env, posts, Request(wire, op));
    if env.server(asked).Body? {
      OutcomeIsResult(env, wire, op, env.server(asked).body, MISSING);
    }
  }

  lemma AgainIsResult(env: Env, posts: seq<Request>, wire: Wire, op: Operation)
    ensures var asked := posts + [Request(wire, op)];
            ResultIs(env, wire, op, env.server(asked), "missing 'result' in JSON-RPC response (retry)",
                     Again(LineOf(env), asked))
  {
    var asked := posts + [Request(wire, op)];
    LineReads(env, posts, Request(wire, op));
    if env.server(asked).Body? {
      OutcomeIsResult(env, wire, op, env.server(asked).body, MISSING_ON_RETRY);
    }
  }

  /** In a fixed dialect a call posts one request, and its answer alone decides the result. */
  lemma FixedDialectByTheAnswer(env: Env, ids: (string, string), wire: Wire, cache: Option<Wire>, op: Operation,
                                posts: seq<Request>)
    ensures var done, asked := Execute(LineOf(env), ids, Some(wire), cache, op, posts), posts + [Request(wire, op)];
            && done.posts == asked && done.cache == cache
            && ResultIs(env, wire, op, env.server(asked), "missing 'result' in JSON-RPC response", done.result)
  {
    FirstIsResult(env, posts, wire, op);
  }

  // ---------------------------------------------------------------- the probe

  const NOT_FOUND := "method not found"

  /** The words stand at place `i`, with spaces or underscores between them. */
  predicate SaysAt(text: string, i: nat) {
    && i + |NOT_FOUND| <= |text|
    && forall k | 0 <= k < |NOT_FOUND| ::
         text[i + k] == NOT_FOUND[k] || (NOT_FOUND[k] == ' ' && text[i + k] == '_')
  }

  /** An endpoint knows the probed method unless it answers with an error that says otherwise. */
  ghost predicate Knows(lower: Lowering, body: Json) {
    HasField(body, "error") ==>
      && CodeIn(body.fields["error"]) != -32601
      && forall i: nat :: !SaysAt(Lowered(lower, MessageIn(body.fields["error"], ""), 0), i)
  }

  lemma SpacedAt(text: string, i: nat)
    ensures At(Spaced(text), NOT_FOUND, i) <==> SaysAt(text, i)
  {
    var spaced := Spaced(text);
    if i + |NOT_FOUND| <= |text| {
      var part := spaced[i..i + |NOT_FOUND|];
      assert forall k | 0 <= k < |NOT_FOUND| :: part[k] == if text[i + k] == '_' then ' ' else text[i + k];
      assert forall k | 0 <= k < |NOT_FOUND| :: NOT_FOUND[k] != '_';
      if SaysAt(text, i) {
        assert part == NOT_FOUND;
      }
    }
  }

  lemma RecognizesIsKnows(lower: Lowering, body: Json)
    ensures Recognizes(lower, body) <==> Knows(lower, body)
  {
    if HasField(body, "error") {
      var text := Lowered(lower, MessageIn(body.fields["error"], ""), 0);
      forall i: nat ensures At(Spaced(text), NOT_FOUND, i) <==> SaysAt(text, i) {
        SpacedAt(text, i);
      }
      SaysSomewhere(text);
    }
  }

  lemma SaysSomewhere(text: string)
    requires forall i: nat :: At(Spaced(text), NOT_FOUND, i) <==> SaysAt(text, i)
    ensures Contains(Spaced(text), NOT_FOUND) <==> exists i: nat :: SaysAt(text, i)
  {
    if i: nat :| SaysAt(text, i) {
      assert At(Spaced(text), NOT_FOUND, i);
    }
  }

  /** The probe's requests and verdict, from its one or two answers. */
  ghost predicate ProbeIs(env: Env, id: string, posts: seq<Request>, r: Result<Wire, A2aError>, posts': seq<Request>) {
    var one := posts + [Request(Sdk, GetTask(id))];
    var two := one + [Request(Spec, GetTask(id))];
    match env.server(one)
    case Failed(detail) => r == Err(Http(detail)) && posts' == one
    case Body(body) =>
      if Knows(env.lower, body) then r == Ok(Sdk) && posts' == one
      else
        && posts' == two
        && match env.server(two)
           case Failed(detail) => r == Err(Http(detail))
           case Body(other) => if Knows(env.lower, other) then r == Ok(Spec) else r == Err(ProtocolError(UNDETECTED))
  }

  lemma ProbeByTheAnswers(env: Env, id: string, posts: seq<Request>)
    ensures var probed := Probe(LineOf(env), id, posts); ProbeIs(env, id, posts, probed.0, probed.1)
  {
    var one := posts + [Request(Sdk, GetTask(id))];
    var two := one + [Request(Spec, GetTask(id))];
    LineReads(env, posts, Request(Sdk, GetTask(id)));
    LineReads(env, one, Request(Spec, GetTask(id)));
    if env.server(one).Body? {
      RecognizesIsKnows(env.lower, env.server(one).body);
    }
    if env.server(two).Body? {
      RecognizesIsKnows(env.lower, env.server(two).body);
    }
  }

  // ---------------------------------------------------------------- a driver that finds out for itself

  /** Asking in a dialect, and once more after a second probe if the method is unknown in it. */
  ghost predicate AskedIn(env: Env, id: string, wire: Wire, op: Operation, posts: seq<Request>, done: Done) {
    var asked := posts + [Request(wire, op)];
    exists first: Result<NormalizedTask, A2aError> ::
      && ResultIs(env, wire, op, env.server(asked), "missing 'result' in JSON-RPC response", first)
      && if first.Err? && first.error.MethodNotFound? then AskedAgain(env, id, op, asked, done)
         else done.result == first && done.posts == asked
  }

  ghost predicate AskedAgain(env: Env, id: string, op: Operation, posts: seq<Request>, done: Done) {
    exists probed: Result<Wire, A2aError>, posts': seq<Request> ::
      && ProbeIs(env, id, posts, probed, posts')
      && match probed
         case Err(e) => done.result == Err(e) && done.posts == posts'
         case Ok(wire) =>
           && done.posts == posts' + [Request(wire, op)]
           && ResultIs(env, wire, op, env.server(done.posts), "missing 'result' in JSON-RPC response (retry)", done.result)
  }

  lemma RetryByTheAnswers(env: Env, id: string, cache: Option<Wire>, op: Operation, posts: seq<Request>)
    ensures AskedAgain(env, id, op, posts, Retry(LineOf(env), id, cache, op, posts))
  {
    var probed := Probe(LineOf(env), id, posts);
    ProbeByTheAnswers(env, id, posts);
    if probed.0.Ok? {
      AgainIsResult(env, probed.1, probed.0.value, op);
    }
  }

  lemma AskedByTheAnswers(env: Env, ids: (string, string), cache: Option<Wire>, wire: Wire, op: Operation,
                          posts: seq<Request>)
    ensures var done := ExecuteOn(LineOf(env), ids, None, cache, wire, op, posts);
            AskedIn(env, ids.1, wire, op, posts, done) && done.cache == cache
  {
    var asked := posts + [Request(wire, op)];
    FirstIsResult(env, posts, wire, op);
    if Unknown(First(LineOf(env), asked)) {
      RetryByTheAnswers(env, ids.1, cache, op, asked);
    }
  }

  /**
   An automatic driver keeps the dialect it has settled on, or else settles on what its
   first probe finds; a probe that fails is the result, and settles nothing.
   */
  lemma AutomaticByTheAnswers(env: Env, ids: (string, string), cache: Option<Wire>, op: Operation, posts: seq<Request>)
    ensures var done, probed := Execute(LineOf(env), ids, None, cache, op, posts), Probe(LineOf(env), ids.0, posts);
            && (cache.Some? ==> done.cache == cache && AskedIn(env, ids.1, cache.value, op, posts, done))
            && (cache.None? ==>
                  && ProbeIs(env, ids.0, posts, probed.0, probed.1)
                  && (probed.0.Err? ==> done == Done(Err(probed.0.error), None, probed.1))
                  && (probed.0.Ok? ==>
                        && done.cache == Some(probed.0.value)
                        && AskedIn(env, ids.1, probed.0.value, op, probed.1, done)))
  {
    if cache.Some? {
      AskedByTheAnswers(env, ids, cache, cache.value, op, posts);
    } else {
      var probed := Probe(LineOf(env), ids.0, posts);
      ProbeByTheAnswers(env, ids.0, posts);
      if probed.0.Ok? {
        AskedByTheAnswers(env, ids, Some(probed.0.value), probed.0.value, op, probed.1);
      }
    }
  }
}
