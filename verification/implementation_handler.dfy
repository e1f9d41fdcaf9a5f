/**
 * app/implementation_handler.py: turning a Braket IR program into calls on a
 * circuit, and downloading an implementation behind the PlanQK authorisation gate.
 */
module ImplementationHandler {
  import opened Common
  import opened Text
  import opened Circuits
  import opened BraketIr

  /** The names `getattr` can resolve: the circuit's methods and the observables' constructors. */
  datatype Vocabulary = Vocabulary(ops: set<string>, observables: set<string>)

  // ---------------------------------------------------------------------------
  // Matrix rebuild
  // ---------------------------------------------------------------------------

  function ToComplex(p: Pair): Complex
  {
    Complex(p.re, p.im)
  }

  /** `m` is `raw` rebuilt entry by entry, each `[re, im]` as `complex(re, im)`: same rows, same row lengths. */
  predicate Rebuilt(raw: RawMatrix, m: seq<seq<Complex>>)
  {
    && |m| == |raw|
    && forall r :: 0 <= r < |raw| ==>
         && |m[r]| == |raw[r]|
         && forall i :: 0 <= i < |raw[r]| ==> m[r][i] == ToComplex(raw[r][i])
  }

  predicate AllRebuilt(raws: seq<RawMatrix>, ms: seq<seq<seq<Complex>>>)
  {
    |ms| == |raws| && forall k :: 0 <= k < |raws| ==> Rebuilt(raws[k], ms[k])
  }

  /** The inner loops over `matrix` and `row`. */
  method RebuildMatrix(raw: RawMatrix) returns (m: seq<seq<Complex>>)
    ensures Rebuilt(raw, m)
  {
    m := [];
    for r := 0 to |raw|
      invariant |m| == r
      invariant forall k :: 0 <= k < r ==>
                  |m[k]| == |raw[k]| && forall i :: 0 <= i < |raw[k]| ==> m[k][i] == ToComplex(raw[k][i])
    {
      var row: seq<Complex> := [];
      for i := 0 to |raw[r]|
        invariant |row| == i
        invariant forall j :: 0 <= j < i ==> row[j] == ToComplex(raw[r][j])
      {
        row := row + [ToComplex(raw[r][i])];
      }
      m := m + [row];
    }
  }

  /** The loop over `matrices` that fills `reformed_matrices`. */
  method RebuildMatrices(raws: seq<RawMatrix>) returns (ms: seq<seq<seq<Complex>>>)
    ensures AllRebuilt(raws, ms)
  {
    ms := [];
    for k := 0 to |raws|
      invariant |ms| == k
      invariant forall j :: 0 <= j < k ==> Rebuilt(raws[j], ms[j])
    {
      var m := RebuildMatrix(raws[k]);
      ms := ms + [m];
    }
  }

  // ---------------------------------------------------------------------------
  // Instructions
  // ---------------------------------------------------------------------------

  function IntArgs(qs: seq<int>): seq<Value>
  {
    seq(|qs|, k requires 0 <= k < |qs| => IntV(qs[k]))
  }

  /** `control`, else each of `controls`. */
  function ControlArgs(inst: Instruction): seq<Value>
  {
    if inst.control.Some? then [IntV(inst.control.value)]
    else if inst.controls.Some? then IntArgs(inst.controls.value)
    else []
  }

  /** `target`, else each of `targets`. */
  function TargetArgs(inst: Instruction): seq<Value>
  {
    if inst.target.Some? then [IntV(inst.target.value)]
    else if inst.targets.Some? then IntArgs(inst.targets.value)
    else []
  }

  function AngleArgs(inst: Instruction): seq<Value>
  {
    if inst.angle.Some? then [RealV(inst.angle.value)] else []
  }

  /** `probability` and `gamma`, each only when the instruction has it. */
  function NoiseKwargs(inst: Instruction): map<string, Value>
  {
    var withProbability := if inst.probability.Some? then map["probability" := RealV(inst.probability.value)] else map[];
    if inst.gamma.Some? then withProbability["gamma" := RealV(inst.gamma.value)] else withProbability
  }

  /** The instruction can be turned into a call: its kind names a circuit method, and a matrix-bearing one has `targets`. */
  predicate InstructionOk(inst: Instruction, vocab: Vocabulary)
  {
    && inst.kind in vocab.ops
    && (inst.matrices.Some? || inst.matrix.Some? ==> inst.targets.Some?)
  }

  /**
   * `call` is the call the translator makes for `inst`: `matrices` is checked
   * before `matrix`, both skip controls and angle; any other instruction passes
   * controls, then targets, then the angle positionally, and its noise
   * parameters by keyword.
   */
  predicate IsInstructionCall(inst: Instruction, call: Call)
  {
    && call.name == inst.kind
    && if inst.matrices.Some? then
         && inst.targets.Some?
         && call.args == [QubitsV(inst.targets.value)]
         && "matrices" in call.kwargs && call.kwargs.Keys == {"matrices"}
         && call.kwargs["matrices"].MatricesV?
         && AllRebuilt(inst.matrices.value, call.kwargs["matrices"].ms)
       else if inst.matrix.Some? then
         && inst.targets.Some?
         && call.args == []
         && "matrix" in call.kwargs && "targets" in call.kwargs && call.kwargs.Keys == {"matrix", "targets"}
         && call.kwargs["targets"] == QubitsV(inst.targets.value)
         && call.kwargs["matrix"].MatrixV?
         && Rebuilt(inst.matrix.value, call.kwargs["matrix"].m)
       else
         && call.args == ControlArgs(inst) + TargetArgs(inst) + AngleArgs(inst)
         && call.kwargs == NoiseKwargs(inst)
  }

  /** One pass of the instruction loop: resolve the method, assemble `args` and `kwargs`. */
  method InstructionCall(inst: Instruction, vocab: Vocabulary) returns (r: Result<Call>)
    ensures r.Ok? <==> InstructionOk(inst, vocab)
    ensures r.Ok? ==> IsInstructionCall(inst, r.value)
    ensures r.Err? ==> r.error == if inst.kind !in vocab.ops then AttributeError(inst.kind) else AttributeError("targets")
  {
    if inst.kind !in vocab.ops {
      return Err(AttributeError(inst.kind));
    }
    var args: seq<Value> := [];
    var kwargs: map<string, Value> := map[];
    if inst.matrices.Some? {
      var reformed := RebuildMatrices(inst.matrices.value);
      if inst.targets.None? {
        return Err(AttributeError("targets"));
      }
      args := args + [QubitsV(inst.targets.value)];
      kwargs := kwargs["matrices" := MatricesV(reformed)];
    } else if inst.matrix.Some? {
      var m := RebuildMatrix(inst.matrix.value);
      kwargs := kwargs["matrix" := MatrixV(m)];
      if inst.targets.None? {
        return Err(AttributeError("targets"));
      }
      kwargs := kwargs["targets" := QubitsV(inst.targets.value)];
    } else {
      if inst.control.Some? {
        args := args + [IntV(inst.control.value)];
      } else if inst.controls.Some? {
        var controls := inst.controls.value;
        for k := 0 to |controls|
          invariant |args| == k
          invariant forall j :: 0 <= j < k ==> args[j] == IntV(controls[j])
        {
          args := args + [IntV(controls[k])];
        }
      }
      assert args == ControlArgs(inst);
      ghost var before := args;
      if inst.target.Some? {
        args := args + [IntV(inst.target.value)];
      } else if inst.targets.Some? {
        var targets := inst.targets.value;
        for k := 0 to |targets|
          invariant |args| == |before| + k
          invariant args[..|before|] == before
          invariant forall j :: 0 <= j < k ==> args[|before| + j] == IntV(targets[j])
        {
          args := args + [IntV(targets[k])];
        }
        assert args[|before|..] == IntArgs(targets);
        assert args == before + args[|before|..];
      }
      assert args == ControlArgs(inst) + TargetArgs(inst);
      if inst.angle.Some? {
        args := args + [RealV(inst.angle.value)];
      }
      if inst.probability.Some? {
        kwargs := kwargs["probability" := RealV(inst.probability.value)];
      }
      if inst.gamma.Some? {
        kwargs := kwargs["gamma" := RealV(inst.gamma.value)];
      }
    }
    return Ok(Call(inst.kind, args, kwargs));
  }

  /**
   * For an instruction without matrices every positional argument but the angle
   * is a qubit index, and the noise parameters appear as keywords exactly when
   * the instruction carries them.
   */
  lemma {:induction false} PlainGateLayout(inst: Instruction, call: Call)
    requires inst.matrices.None? && inst.matrix.None?
    requires IsInstructionCall(inst, call)
    ensures |call.args| == |ControlArgs(inst)| + |TargetArgs(inst)| + (if inst.angle.Some? then 1 else 0)
    ensures forall k :: 0 <= k < |ControlArgs(inst)| + |TargetArgs(inst)| ==> call.args[k].IntV?
    ensures inst.angle.Some? ==> call.args[|call.args| - 1] == RealV(inst.angle.value)
    ensures inst.controls.Some? && inst.control.None? ==>
              forall k :: 0 <= k < |inst.controls.value| ==> call.args[k] == IntV(inst.controls.value[k])
    ensures "probability" in call.kwargs <==> inst.probability.Some?
    ensures "gamma" in call.kwargs <==> inst.gamma.Some?
    ensures call.kwargs.Keys <= {"probability", "gamma"}
  {
    var c, t := ControlArgs(inst), TargetArgs(inst);
    forall k | 0 <= k < |c| + |t|
      ensures call.args[k].IntV?
    {
      if k < |c| {
        assert call.args[k] == c[k];
      } else {
        assert call.args[k] == t[k - |c|];
      }
    }
  }

  // ---------------------------------------------------------------------------
  // Result types
  // ---------------------------------------------------------------------------

  /** The result type can be added: `statevector` and `densitymatrix` always; any other kind needs a circuit method and a known observable. */
  predicate ResultTypeOk(spec: ResultSpec, vocab: Vocabulary)
  {
    || spec.kind == "statevector"
    || spec.kind == "densitymatrix"
    || (&& spec.kind in vocab.ops
        && (spec.observable.Some? ==> |spec.observable.value| > 0 && Upper(spec.observable.value[0]) in vocab.observables))
  }

  /** `observable` (the first name, upper-cased), `states` and `target`, each when the result type has it. */
  function ResultKwargs(spec: ResultSpec): map<string, Value>
    requires spec.observable.Some? ==> |spec.observable.value| > 0
  {
    var withObservable := if spec.observable.Some? then map["observable" := ObservableV(Upper(spec.observable.value[0]))] else map[];
    var withStates := if spec.states.Some? then withObservable["states" := StringsV(spec.states.value)] else withObservable;
    if spec.targets.Some? then withStates["target" := QubitsV(spec.targets.value)] else withStates
  }

  /** `result.targets` as passed to `density_matrix`. */
  function TargetsOrNone(targets: Option<seq<int>>): Value
  {
    if targets.Some? then QubitsV(targets.value) else NoneV
  }

  /** `call` is the call the translator makes for the result type `spec`. */
  predicate IsResultTypeCall(spec: ResultSpec, call: Call)
  {
    if spec.kind == "statevector" then
      call == Call("state_vector", [], map[])
    else if spec.kind == "densitymatrix" then
      call == Call("density_matrix", [], map["target" := TargetsOrNone(spec.targets)])
    else
      && (spec.observable.Some? ==> |spec.observable.value| > 0)
      && call == Call(spec.kind, [], ResultKwargs(spec))
  }

  /** One pass of the result-type loop. */
  method ResultTypeCall(spec: ResultSpec, vocab: Vocabulary) returns (r: Result<Call>)
    ensures r.Ok? <==> ResultTypeOk(spec, vocab)
    ensures r.Ok? ==> IsResultTypeCall(spec, r.value)
    ensures r.Err? ==> (r.error ==
              if spec.kind !in vocab.ops then AttributeError(spec.kind)
              else if |spec.observable.value| == 0 then IndexError
              else AttributeError(Upper(spec.observable.value[0])))
  {
    if spec.kind == "statevector" {
      return Ok(Call("state_vector", [], map[]));
    } else if spec.kind == "densitymatrix" {
      return Ok(Call("density_matrix", [], map["target" := TargetsOrNone(spec.targets)]));
    }
    if spec.kind !in vocab.ops {
      return Err(AttributeError(spec.kind));
    }
    var kwargs: map<string, Value> := map[];
    if spec.observable.Some? {
      if |spec.observable.value| == 0 {
        return Err(IndexError);
      }
      var name := Upper(spec.observable.value[0]);
      if name !in vocab.observables {
        return Err(AttributeError(name));
      }
      kwargs := kwargs["observable" := ObservableV(name)];
    }
    if spec.states.Some? {
      kwargs := kwargs["states" := StringsV(spec.states.value)];
    }
    if spec.targets.Some? {
      kwargs := kwargs["target" := QubitsV(spec.targets.value)];
    }
    return Ok(Call(spec.kind, [], kwargs));
  }

  /** Observable names are matched without regard to case: two result types that differ only in the case of the observable give the same call. */
  lemma ObservableCaseInsensitive(spec: ResultSpec, name: string, other: string, c1: Call, c2: Call)
    requires spec.kind != "statevector" && spec.kind != "densitymatrix"
    requires spec.observable.Some? && |spec.observable.value| > 0 && spec.observable.value[0] == name
    requires Upper(name) == Upper(other)
    requires IsResultTypeCall(spec, c1)
    requires IsResultTypeCall(spec.(observable := Some([other] + spec.observable.value[1..])), c2)
    ensures c1 == c2
  {
  }

  // ---------------------------------------------------------------------------
  // Whole programs
  // ---------------------------------------------------------------------------

  /** Every instruction and every result type can be added; a program without result types cannot be iterated. */
  predicate Translatable(p: Program, vocab: Vocabulary)
  {
    && (forall k :: 0 <= k < |p.instructions| ==> InstructionOk(p.instructions[k], vocab))
    && p.results.Some?
    && (forall k :: 0 <= k < |p.results.value| ==> ResultTypeOk(p.results.value[k], vocab))
  }

  /** One call per instruction, in instruction order, followed by one call per result type, in order. */
  predicate Translates(p: Program, calls: seq<Call>)
  {
    && p.results.Some?
    && |calls| == |p.instructions| + |p.results.value|
    && (forall k :: 0 <= k < |p.instructions| ==> IsInstructionCall(p.instructions[k], calls[k]))
    && (forall k :: 0 <= k < |p.results.value| ==> IsResultTypeCall(p.results.value[k], calls[|p.instructions| + k]))
  }

  /**
   * The two loops of `prepare_code_from_braket_ir`, on an already parsed
   * program. A program without result types gets through the instruction loop
   * and then raises on iterating None.
   */
  method TranslateProgram(p: Program, vocab: Vocabulary) returns (r: Result<Circuit>)
    ensures r.Ok? <==> Translatable(p, vocab)
    ensures r.Ok? ==> fresh(r.value) && Translates(p, r.value.calls)
    ensures p.results.None? && (forall k :: 0 <= k < |p.instructions| ==> InstructionOk(p.instructions[k], vocab)) ==>
              r == Err(TypeError)
  {
    var circuit := new Circuit();
    for k := 0 to |p.instructions|
      invariant |circuit.calls| == k
      invariant forall j :: 0 <= j < k ==> IsInstructionCall(p.instructions[j], circuit.calls[j])
      invariant forall j :: 0 <= j < k ==> InstructionOk(p.instructions[j], vocab)
    {
      var c := InstructionCall(p.instructions[k], vocab);
      if c.Err? {
        assert !InstructionOk(p.instructions[k], vocab);
        return Err(c.error);
      }
      circuit.Apply(c.value);
    }
    if p.results.None? {
      return Err(TypeError);
    }
    var results := p.results.value;
    var n := |p.instructions|;
    for k := 0 to |results|
      invariant |circuit.calls| == n + k
      invariant forall j :: 0 <= j < n ==> IsInstructionCall(p.instructions[j], circuit.calls[j])
      invariant forall j :: 0 <= j < k ==> IsResultTypeCall(results[j], circuit.calls[n + j])
      invariant forall j :: 0 <= j < k ==> ResultTypeOk(results[j], vocab)
    {
      var c := ResultTypeCall(results[k], vocab);
      if c.Err? {
        assert !ResultTypeOk(results[k], vocab);
        return Err(c.error);
      }
      circuit.Apply(c.value);
    }
    return Ok(circuit);
  }

  /** The calls a program translates to are determined by the program. */
  lemma {:induction false} TranslationDeterministic(p: Program, c1: seq<Call>, c2: seq<Call>)
    requires Translates(p, c1) && Translates(p, c2)
    ensures c1 == c2
  {
    var n := |p.instructions|;
    forall k | 0 <= k < |c1|
      ensures c1[k] == c2[k]
    {
      if k < n {
        InstructionCallDeterministic(p.instructions[k], c1[k], c2[k]);
      } else {
        assert IsResultTypeCall(p.results.value[k - n], c1[n + (k - n)]);
        assert IsResultTypeCall(p.results.value[k - n], c2[n + (k - n)]);
      }
    }
  }

  lemma InstructionCallDeterministic(inst: Instruction, a: Call, b: Call)
    requires IsInstructionCall(inst, a) && IsInstructionCall(inst, b)
    ensures a == b
  {
    if inst.matrices.Some? {
      AllRebuiltDeterministic(inst.matrices.value, a.kwargs["matrices"].ms, b.kwargs["matrices"].ms);
      assert a.kwargs == b.kwargs;
    } else if inst.matrix.Some? {
      RebuiltDeterministic(inst.matrix.value, a.kwargs["matrix"].m, b.kwargs["matrix"].m);
      assert a.kwargs == b.kwargs;
    }
  }

  lemma RebuiltDeterministic(raw: RawMatrix, m1: seq<seq<Complex>>, m2: seq<seq<Complex>>)
    requires Rebuilt(raw, m1) && Rebuilt(raw, m2)
    ensures m1 == m2
  {
    forall r | 0 <= r < |raw|
      ensures m1[r] == m2[r]
    {
    }
  }

  lemma AllRebuiltDeterministic(raws: seq<RawMatrix>, a: seq<seq<seq<Complex>>>, b: seq<seq<seq<Complex>>>)
    requires AllRebuilt(raws, a) && AllRebuilt(raws, b)
    ensures a == b
  {
    forall k | 0 <= k < |raws|
      ensures a[k] == b[k]
    {
      RebuiltDeterministic(raws[k], a[k], b[k]);
    }
  }

  // ---------------------------------------------------------------------------
  // Preparers
  // ---------------------------------------------------------------------------

  /** What a preparer hands back: a circuit, Python's None, or an exception it lets through. */
  datatype Prepared = Built(circuit: Circuit) | NoCircuit | PrepFailed(error: Raised)

  /**
   * What a preparer handed back, as a value: a built circuit is the calls it
   * held when the preparer returned, whatever is applied to it later.
   */
  datatype Outcome = BuiltCalls(calls: seq<Call>) | NoneReturned | Raises(error: Raised)

  function OutcomeOf(r: Prepared): Outcome
    reads if r.Built? then {r.circuit} else {}
  {
    match r
    case Built(c) => BuiltCalls(c.calls)
    case NoCircuit => NoneReturned
    case PrepFailed(e) => Raises(e)
  }

  /** The outcome of `prepare_code_from_braket_ir(text)`, given the IR parser. */
  ghost predicate IrOutcome(text: string, parse: string -> Option<Program>, vocab: Vocabulary, o: Outcome)
  {
    match parse(text)
    case None => o == Raises(ValidationError)
    case Some(p) =>
      && (o.BuiltCalls? <==> Translatable(p, vocab))
      && (o.BuiltCalls? ==> Translates(p, o.calls))
      && (!o.BuiltCalls? ==> o.Raises?)
  }

  /** `prepare_code_from_braket_ir`: parse the text, then translate it. */
  method PrepareFromBraketIr(text: string, parse: string -> Option<Program>, vocab: Vocabulary) returns (r: Prepared)
    ensures IrOutcome(text, parse, vocab, OutcomeOf(r))
    ensures r.Built? ==> fresh(r.circuit)
  {
    var program := parse(text);
    if program.None? {
      return PrepFailed(ValidationError);
    }
    var t := TranslateProgram(program.value, vocab);
    if t.Err? {
      return PrepFailed(t.error);
    }
    return Built(t.value);
  }

  /**
   * `prepare_code_from_data` imports and runs downloaded source code; that is
   * not modelled. `load` stands for it: the circuit the code yields, or None
   * when it raises (including the ValueError on a falsy circuit).
   */
  ghost predicate CodeOutcome(code: string, params: map<string, string>,
                              load: (string, map<string, string>) -> Option<seq<Call>>, o: Outcome)
  {
    match load(code, params)
    case None => o == Raises(CodeLoadError)
    case Some(calls) => o == BuiltCalls(calls)
  }

  method PrepareFromData(code: string, params: map<string, string>,
                         load: (string, map<string, string>) -> Option<seq<Call>>) returns (r: Prepared)
    ensures CodeOutcome(code, params, load, OutcomeOf(r))
    ensures r.Built? ==> fresh(r.circuit)
  {
    var loaded := load(code, params);
    if loaded.None? {
      return PrepFailed(CodeLoadError);
    }
    var circuit := new Circuit.FromCalls(loaded.value);
    return Built(circuit);
  }

  // ---------------------------------------------------------------------------
  // Download
  // ---------------------------------------------------------------------------

  const PlanqkHost: string := "platform.planqk.de"

  datatype AuthDecision = Reject | Authorize(header: string) | Anonymous

  /** The checks `_download_code` makes before opening the URL. */
  function AuthGate(host: string, token: string): (d: AuthDecision)
    ensures d.Reject? <==> host == PlanqkHost && (token == "" || StartsWith(token, "Bearer"))
    ensures d.Anonymous? <==> host != PlanqkHost
    ensures d.Authorize? ==> d.header == "Bearer " + token
  {
    if host == PlanqkHost then
      if token == "" || StartsWith(token, "Bearer") then Reject
      else Authorize("Bearer " + token)
    else Anonymous
  }

  /** An authorised request carries exactly one "Bearer " prefix followed by a non-empty token. */
  lemma {:induction false} SingleBearerPrefix(host: string, token: string)
    requires AuthGate(host, token).Authorize?
    ensures var h := AuthGate(host, token).header;
      StartsWith(h, "Bearer ") && |h| > 7 && h[7..] == token && !StartsWith(h[7..], "Bearer")
  {
    var h := AuthGate(host, token).header;
    assert h[..7] == "Bearer ";
    assert h[7..] == token;
  }

  datatype HttpRequest = HttpRequest(url: string, headers: map<string, string>)

  /** What `request.urlopen` does: a response, or an exception with its message. */
  datatype OpenResult = Opened(code: int, body: string) | OpenFailed(message: string)

  /** The network as the download sees it: `urlparse(url).netloc` and `request.urlopen`. */
  datatype Network = Network(netloc: string -> string, open: HttpRequest -> OpenResult)

  datatype Download = Fetched(body: string) | DownloadRaised(error: Raised)

  function RequestFor(url: string, d: AuthDecision): HttpRequest
  {
    if d.Authorize? then HttpRequest(url, map["Authorization" := d.header]) else HttpRequest(url, map[])
  }

  /**
   * `_download_code` as written: every exception from `urlopen` is caught; one
   * whose message lacks "401" falls through to `res.getcode()` with `res` never
   * assigned.
   */
  function DownloadCodeAsWritten(url: string, token: string, net: Network): (d: Download)
    ensures AuthGate(net.netloc(url), token).Reject? ==> d == DownloadRaised(Unauthorized)
    ensures d != DownloadRaised(DownloadError)
  {
    var gate := AuthGate(net.netloc(url), token);
    if gate.Reject? then DownloadRaised(Unauthorized)
    else match net.open(RequestFor(url, gate))
      case OpenFailed(message) =>
        if Contains(message, "401") then DownloadRaised(Unauthorized) else DownloadRaised(UnboundLocalError)
      case Opened(code, body) =>
        if code == 401 then DownloadRaised(Unauthorized) else Fetched(body)
  }

  /** A download that fails with a 404 is reported as an unbound local, not as the HTTPError the preparers catch. */
  lemma NotFoundEscapesPreparers(url: string, token: string, net: Network)
    requires net.netloc(url) != PlanqkHost
    requires net.open(HttpRequest(url, map[])) == OpenFailed(NotFoundMessage)
    ensures DownloadCodeAsWritten(url, token, net) == DownloadRaised(UnboundLocalError)
    ensures UrlOutcome(DownloadCodeAsWritten(url, token, net), Raises(UnboundLocalError))
  {
    NotFoundIsNot401();
  }

  /** The message urllib gives an HTTPError for status 404. */
  const NotFoundMessage: string := "HTTP Error 404: Not Found"

  lemma NotFoundIsNot401()
    ensures !Contains(NotFoundMessage, "401")
  {
    var m := NotFoundMessage;
    assert forall j :: 0 <= j < |m| ==> m[j] != '1';
    forall i | 0 <= i <= |m|
      ensures !StartsWith(m[i..], "401")
    {
      if i + 3 <= |m| {
        assert m[i..][2] == m[i + 2];
      }
    }
  }

  /**
   * `_download_code` with a failed open that is not an authorisation failure
   * reported as the download error it is, so that the preparers return None.
   */
  function DownloadCode(url: string, token: string, net: Network): (d: Download)
    ensures AuthGate(net.netloc(url), token).Reject? ==> d == DownloadRaised(Unauthorized)
    ensures d.Fetched? <==>
              && !AuthGate(net.netloc(url), token).Reject?
              && var res := net.open(RequestFor(url, AuthGate(net.netloc(url), token)));
                 res.Opened? && res.code != 401
    ensures d.Fetched? ==> d.body == net.open(RequestFor(url, AuthGate(net.netloc(url), token))).body
    ensures d.DownloadRaised? ==> d.error == Unauthorized || d.error == DownloadError
  {
    var gate := AuthGate(net.netloc(url), token);
    if gate.Reject? then DownloadRaised(Unauthorized)
    else match net.open(RequestFor(url, gate))
      case OpenFailed(message) =>
        if Contains(message, "401") then DownloadRaised(Unauthorized) else DownloadRaised(DownloadError)
      case Opened(code, body) =>
        if code == 401 then DownloadRaised(Unauthorized) else Fetched(body)
  }

  /** A rejected token is rejected before any request is made: the outcome does not depend on the network's answers. */
  lemma RejectedBeforeOpening(url: string, token: string, n1: Network, n2: Network)
    requires n1.netloc(url) == n2.netloc(url)
    requires AuthGate(n1.netloc(url), token).Reject?
    ensures DownloadCode(url, token, n1) == DownloadCode(url, token, n2) == DownloadRaised(Unauthorized)
  {
  }

  /** A 401, whether as a status code or in the message of a failed open, is reported as unauthorised. */
  lemma UnauthorisedResponses(url: string, token: string, net: Network)
    requires !AuthGate(net.netloc(url), token).Reject?
    requires var res := net.open(RequestFor(url, AuthGate(net.netloc(url), token)));
             (res.Opened? && res.code == 401) || (res.OpenFailed? && Contains(res.message, "401"))
    ensures DownloadCode(url, token, net) == DownloadRaised(Unauthorized)
  {
  }

  /** The outcome of a URL-based preparer: a caught download error gives None, any other is let through. */
  ghost predicate UrlOutcome(d: Download, o: Outcome)
    requires d.DownloadRaised?
  {
    o == if d.error == DownloadError then NoneReturned else Raises(d.error)
  }

  /** `prepare_code_from_url` */
  method PrepareFromUrl(url: string, params: map<string, string>, token: string, net: Network,
                        load: (string, map<string, string>) -> Option<seq<Call>>) returns (r: Prepared)
    ensures var d := DownloadCode(url, token, net);
      if d.Fetched? then CodeOutcome(d.body, params, load, OutcomeOf(r)) else UrlOutcome(d, OutcomeOf(r))
    ensures r.Built? ==> fresh(r.circuit)
  {
    var d := DownloadCode(url, token, net);
    if d.DownloadRaised? {
      if d.error == DownloadError {
        return NoCircuit;
      }
      return PrepFailed(d.error);
    }
    r := PrepareFromData(d.body, params, load);
  }

  /** `prepare_code_from_braket_ir_url` */
  method PrepareFromBraketIrUrl(url: string, token: string, net: Network,
                                parse: string -> Option<Program>, vocab: Vocabulary) returns (r: Prepared)
    ensures var d := DownloadCode(url, token, net);
      if d.Fetched? then IrOutcome(d.body, parse, vocab, OutcomeOf(r)) else UrlOutcome(d, OutcomeOf(r))
    ensures r.Built? ==> fresh(r.circuit)
  {
    var d := DownloadCode(url, token, net);
    if d.DownloadRaised? {
      if d.error == DownloadError {
        return NoCircuit;
      }
      return PrepFailed(d.error);
    }
    r := PrepareFromBraketIr(d.body, parse, vocab);
  }
}
