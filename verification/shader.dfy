/** `CreateShaderProgram` and `DeleteShaderProgram` of the OpenGL backend,
    seen as a ledger of the GL objects they create and delete. Whether each
    compile and the link succeed is decided by the driver, so those outcomes
    are inputs here; the info-log text reported on a failure is reduced to a
    `ReportError` entry naming the object it was read from. */
module Shader {

  /** The GL objects involved. The program carries the handle
      `glCreateProgram` gave it, since that handle is what the caller keeps. */
  datatype GlObject = VertexShader | FragmentShader | Program(handle: nat)

  /** One GL call, in the order `CreateShaderProgram` issues them. */
  datatype GlCall =
    | Create(obj: GlObject)
    | Compile(obj: GlObject)
    | Attach(obj: GlObject)
    | Link
    | Detach(obj: GlObject)
    | Delete(obj: GlObject)
    | ReportError(obj: GlObject)

  /** `ShaderProgram`: the program handle, `0` when there is none. */
  datatype ShaderProgram = ShaderProgram(program: nat)

  /** The boolean result, the caller's `ShaderProgram` afterwards, and the calls made. */
  datatype Outcome = Outcome(ok: bool, prg: ShaderProgram, calls: seq<GlCall>)

  function Created(calls: seq<GlCall>): set<GlObject>
  {
    set c | c in calls && c.Create? :: c.obj
  }

  function Deleted(calls: seq<GlCall>): set<GlObject>
  {
    set c | c in calls && c.Delete? :: c.obj
  }

  /** The objects a call sequence leaves allocated. */
  function Live(calls: seq<GlCall>): set<GlObject>
  {
    Created(calls) - Deleted(calls)
  }

  /** Every deletion is of an object created earlier in the sequence. */
  predicate DeletesOnlyCreated(calls: seq<GlCall>)
  {
    forall j | 0 <= j < |calls| && calls[j].Delete? :: Create(calls[j].obj) in calls[..j]
  }

  /** `x` is issued at some point before `y`. */
  predicate Before(calls: seq<GlCall>, x: GlCall, y: GlCall)
  {
    exists j | 0 <= j < |calls| :: calls[j] == y && x in calls[..j]
  }

  /** The calls up to and including the vertex shader's compile. */
  function VertexStage(): seq<GlCall>
  {
    [Create(VertexShader), Compile(VertexShader)]
  }

  function FragmentStage(): seq<GlCall>
  {
    [Create(FragmentShader), Compile(FragmentShader)]
  }

  function LinkStage(id: nat): seq<GlCall>
  {
    [Create(Program(id)), Attach(VertexShader), Attach(FragmentShader), Link]
  }

  /** The calls on each path of `CreateShaderProgram` as written. */
  function VertexFailCalls(): seq<GlCall>
  {
    VertexStage() + [ReportError(VertexShader)]
  }

  function FragmentFailCalls(): seq<GlCall>
  {
    VertexStage() + FragmentStage() + [ReportError(FragmentShader), Delete(FragmentShader)]
  }

  function LinkFailCalls(id: nat): seq<GlCall>
  {
    VertexStage() + FragmentStage() + LinkStage(id) +
    [ReportError(Program(id)), Delete(Program(id)), Delete(FragmentShader)]
  }

  function SuccessCalls(id: nat): seq<GlCall>
  {
    VertexStage() + FragmentStage() + LinkStage(id) +
    [Detach(VertexShader), Delete(VertexShader), Detach(FragmentShader), Delete(FragmentShader)]
  }

  /** `CreateShaderProgram(prg, name, vs, fs)` as written. `programId` is the
      handle `glCreateProgram` returns. */
  function CreateShaderProgram(prg: ShaderProgram, vertexCompiles: bool, fragmentCompiles: bool,
                               links: bool, programId: nat): (r: Outcome)
    ensures r.ok <==> vertexCompiles && fragmentCompiles && links
    ensures r.ok ==> r.prg == ShaderProgram(programId)
    ensures !r.ok ==> r.prg == prg
    ensures DeletesOnlyCreated(r.calls)
    ensures Deleted(r.calls) ==
      if !vertexCompiles then {}
      else if !fragmentCompiles then {FragmentShader}
      else if !links then {Program(programId), FragmentShader}
      else {VertexShader, FragmentShader}
    ensures r.ok ==>
      && Before(r.calls, Detach(VertexShader), Delete(VertexShader))
      && Before(r.calls, Detach(FragmentShader), Delete(FragmentShader))
    ensures r.ok ==> Live(r.calls) == {Program(programId)}
    ensures !r.ok ==> Live(r.calls) == {VertexShader}
  {
    if !vertexCompiles then
      VertexFailLedger();
      Outcome(false, prg, VertexFailCalls())
    else if !fragmentCompiles then
      FragmentFailLedger();
      Outcome(false, prg, FragmentFailCalls())
    else if !links then
      LinkFailLedger(programId);
      Outcome(false, prg, LinkFailCalls(programId))
    else
      SuccessLedger(programId);
      Outcome(true, ShaderProgram(programId), SuccessCalls(programId))
  }

  lemma VertexFailLedger()
    ensures DeletesOnlyCreated(VertexFailCalls())
    ensures Created(VertexFailCalls()) == {VertexShader}
    ensures Deleted(VertexFailCalls()) == {}
    ensures Live(VertexFailCalls()) == {VertexShader}
  {
    var calls := VertexFailCalls();
    assert forall c | c in calls :: c == Create(VertexShader) || !c.Create?;
  }

  lemma FragmentFailLedger()
    ensures DeletesOnlyCreated(FragmentFailCalls())
    ensures Created(FragmentFailCalls()) == {VertexShader, FragmentShader}
    ensures Deleted(FragmentFailCalls()) == {FragmentShader}
    ensures Live(FragmentFailCalls()) == {VertexShader}
  {
    var calls := FragmentFailCalls();
    assert calls[0] == Create(VertexShader) && calls[2] == Create(FragmentShader);
    assert forall c | c in calls :: c in {Create(VertexShader), Create(FragmentShader), Delete(FragmentShader)} || (!c.Create? && !c.Delete?);
    assert calls[..5][2] == Create(FragmentShader);
  }

  lemma LinkFailLedger(id: nat)
    ensures DeletesOnlyCreated(LinkFailCalls(id))
    ensures Created(LinkFailCalls(id)) == {VertexShader, FragmentShader, Program(id)}
    ensures Deleted(LinkFailCalls(id)) == {Program(id), FragmentShader}
    ensures Live(LinkFailCalls(id)) == {VertexShader}
  {
    var calls := LinkFailCalls(id);
    assert calls[0] == Create(VertexShader) && calls[2] == Create(FragmentShader) && calls[4] == Create(Program(id));
    assert calls[9] == Delete(Program(id)) && calls[10] == Delete(FragmentShader);
    assert forall c | c in calls :: c in {Create(VertexShader), Create(FragmentShader), Create(Program(id)),
      Delete(Program(id)), Delete(FragmentShader)} || (!c.Create? && !c.Delete?);
    assert calls[..9][4] == Create(Program(id));
    assert calls[..10][2] == Create(FragmentShader);
  }

  lemma SuccessLedger(id: nat)
    ensures DeletesOnlyCreated(SuccessCalls(id))
    ensures Created(SuccessCalls(id)) == {VertexShader, FragmentShader, Program(id)}
    ensures Deleted(SuccessCalls(id)) == {VertexShader, FragmentShader}
    ensures Live(SuccessCalls(id)) == {Program(id)}
    ensures Before(SuccessCalls(id), Detach(VertexShader), Delete(VertexShader))
    ensures Before(SuccessCalls(id), Detach(FragmentShader), Delete(FragmentShader))
  {
    var calls := SuccessCalls(id);
    assert calls[0] == Create(VertexShader) && calls[2] == Create(FragmentShader) && calls[4] == Create(Program(id));
    assert calls[9] == Delete(VertexShader) && calls[11] == Delete(FragmentShader);
    assert forall c | c in calls :: c in {Create(VertexShader), Create(FragmentShader), Create(Program(id)),
      Delete(VertexShader), Delete(FragmentShader)} || (!c.Create? && !c.Delete?);
    assert calls[..9][0] == Create(VertexShader) && calls[..9][8] == Detach(VertexShader);
    assert calls[..11][2] == Create(FragmentShader) && calls[..11][10] == Detach(FragmentShader);
  }

  /** The vertex shader outlives a failed `CreateShaderProgram`: with the
      vertex shader compiled and the fragment shader failing, it is left
      allocated with nothing referring to it. */
  lemma FragmentFailureLeaksVertexShader()
    ensures VertexShader in Live(CreateShaderProgram(ShaderProgram(0), true, false, true, 3).calls)
  {
  }

  /** The calls on the failure paths once each of them also deletes the
      vertex shader. */
  function VertexFailReleasingCalls(): seq<GlCall>
  {
    VertexFailCalls() + [Delete(VertexShader)]
  }

  function FragmentFailReleasingCalls(): seq<GlCall>
  {
    FragmentFailCalls() + [Delete(VertexShader)]
  }

  function LinkFailReleasingCalls(id: nat): seq<GlCall>
  {
    LinkFailCalls(id) + [Delete(VertexShader)]
  }

  /** Appending the deletion of an object that was created keeps every
      deletion preceded by its creation. */
  lemma {:induction false} AppendDelete(calls: seq<GlCall>, o: GlObject)
    requires DeletesOnlyCreated(calls)
    requires Create(o) in calls
    ensures DeletesOnlyCreated(calls + [Delete(o)])
    ensures Created(calls + [Delete(o)]) == Created(calls)
    ensures Deleted(calls + [Delete(o)]) == Deleted(calls) + {o}
  {
    var calls' := calls + [Delete(o)];
    assert calls'[..|calls|] == calls;
    forall j | 0 <= j < |calls'| && calls'[j].Delete?
      ensures Create(calls'[j].obj) in calls'[..j]
    {
      if j < |calls| {
        assert calls'[..j] == calls[..j];
      }
    }
    LedgerAppend(calls, [Delete(o)]);
    assert Created([Delete(o)]) == {};
    assert Deleted([Delete(o)]) == {o};
  }

  /** `CreateShaderProgram` with every failure path releasing every object
      it created: the vertex shader is deleted as well. */
  function CreateShaderProgramReleasing(prg: ShaderProgram, vertexCompiles: bool, fragmentCompiles: bool,
                                        links: bool, programId: nat): (r: Outcome)
    ensures r.ok <==> vertexCompiles && fragmentCompiles && links
    ensures r.ok ==> r.prg == ShaderProgram(programId)
    ensures !r.ok ==> r.prg == prg
    ensures DeletesOnlyCreated(r.calls)
    ensures !r.ok ==> Live(r.calls) == {}
    ensures r.ok ==> Live(r.calls) == {Program(programId)}
  {
    if !vertexCompiles then
      VertexFailLedger();
      AppendDelete(VertexFailCalls(), VertexShader);
      Outcome(false, prg, VertexFailReleasingCalls())
    else if !fragmentCompiles then
      FragmentFailLedger();
      AppendDelete(FragmentFailCalls(), VertexShader);
      Outcome(false, prg, FragmentFailReleasingCalls())
    else if !links then
      LinkFailLedger(programId);
      AppendDelete(LinkFailCalls(programId), VertexShader);
      Outcome(false, prg, LinkFailReleasingCalls(programId))
    else
      CreateShaderProgram(prg, vertexCompiles, fragmentCompiles, links, programId)
  }

  /** `DeleteShaderProgram(prg)`: deletes the program if there is one and
      clears the handle either way. */
  function DeleteShaderProgram(prg: ShaderProgram): (r: (ShaderProgram, seq<GlCall>))
    ensures r.0.program == 0
    ensures Created(r.1) == {}
    ensures Deleted(r.1) == if prg.program != 0 then {Program(prg.program)} else {}
    ensures prg.program == 0 ==> r.1 == []
  {
    if prg.program != 0 then
      var calls := [Delete(Program(prg.program))];
      assert Deleted(calls) == {Program(prg.program)};
      (ShaderProgram(0), calls)
    else
      (ShaderProgram(0), [])
  }

  /** A program built successfully and later deleted leaves no GL object
      behind. */
  lemma {:induction false} CreateThenDeleteReleasesAll(prg: ShaderProgram, programId: nat)
    requires programId != 0
    ensures var r := CreateShaderProgram(prg, true, true, true, programId);
            var d := DeleteShaderProgram(r.prg);
            Live(r.calls + d.1) == {}
  {
    var r := CreateShaderProgram(prg, true, true, true, programId);
    var d := DeleteShaderProgram(r.prg);
    LedgerAppend(r.calls, d.1);
  }

  lemma LedgerAppend(xs: seq<GlCall>, ys: seq<GlCall>)
    ensures Created(xs + ys) == Created(xs) + Created(ys)
    ensures Deleted(xs + ys) == Deleted(xs) + Deleted(ys)
  {
    assert forall c :: c in xs + ys <==> c in xs || c in ys;
  }
}
