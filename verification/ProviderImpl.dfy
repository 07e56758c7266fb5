/** The provider as the program keeps it: fields that the request handlers
    update in place.  Each method is one stretch of a handler between two
    suspension points, and takes the ghost state machine one step. */
module ProviderImpl {
  import opened Words
  import opened ProviderSpec

  class PipelineState {
    var active: bool
    var iteration: u64
    /** What the backend was asked, and what it answered, in order. */
    var pipeline: seq<Call>

    constructor ()
      ensures !active && iteration == 0 && pipeline == []
    {
      active := false;
      iteration := 0;
      pipeline := [];
    }
  }

  class ProviderImpl {
    var m_group_hash: u64
    var m_pipelines: map<string, PipelineState>
    var m_num_active_pipelines: u64

    /** Every PipelineState ever created here, in order of creation. */
    ghost var created: seq<PipelineState>
    ghost var spec: Provider

    ghost predicate Valid()
      reads this, created
    {
      && Wf(spec)
      && m_group_hash == spec.hash
      && m_num_active_pipelines == spec.count
      && |created| == |spec.objs|
      && (forall i, j :: 0 <= i < j < |created| ==> created[i] != created[j])
      && (forall i :: 0 <= i < |created| ==>
            && created[i].active == spec.objs[i].active && created[i].iteration == spec.objs[i].iteration
            && created[i].pipeline == spec.objs[i].log)
      && m_pipelines.Keys == spec.names.Keys
      && (forall n :: n in m_pipelines ==> m_pipelines[n] == created[spec.names[n]])
    }

    constructor (groupHash: u64)
      ensures Valid() && created == [] && spec == NewProvider(groupHash)
    {
      m_group_hash := groupHash;
      m_pipelines := map[];
      m_num_active_pipelines := 0;
      created := [];
      spec := NewProvider(groupHash);
    }

    /** start, up to the call of the backend. */
    method Start(group_hash: u64, pipeline_name: string, iteration: u64)
      returns (error: Option<int>, state: PipelineState?)
      requires Valid()
      modifies this, created
      ensures Valid() && created == old(created)
      ensures spec == Next(old(spec), Req(pipeline_name, Request.Start(group_hash, iteration)))
      ensures Answers(old(spec), pipeline_name, Request.Start(group_hash, iteration), error, state)
      ensures error == None ==> state != null && state.pipeline == old(state.pipeline) + [StartCall(iteration)]
    {
      error, state := StartGuard(group_hash, pipeline_name, iteration);
      if error == None {
        m_num_active_pipelines := Inc(m_num_active_pipelines);
        state.pipeline := state.pipeline + [StartCall(iteration)];
      }
      spec := Next(spec, Req(pipeline_name, Request.Start(group_hash, iteration)));
    }

    /** The guards of start. */
    method StartGuard(group_hash: u64, pipeline_name: string, iteration: u64)
      returns (error: Option<int>, state: PipelineState?)
      requires Valid()
      ensures Answers(spec, pipeline_name, Request.Start(group_hash, iteration), error, state)
    {
      state := null;
      if group_hash != m_group_hash {
        error := Some(INVALID_GROUP_HASH);
      } else if pipeline_name !in m_pipelines {
        error := Some(INVALID_PIPELINE_NAME);
      } else {
        state := m_pipelines[pipeline_name];
        if state.active {
          error := Some(PIPELINE_IS_ACTIVE);
        } else if state.iteration != 0 && state.iteration >= iteration {
          error := Some(INVALID_ITERATION);
        } else {
          error := None;
        }
      }
    }

    /** The answer of a handler's guards: an error code, or the state to work on. */
    ghost predicate Answers(before: Provider, name: string, r: Request, error: Option<int>, state: PipelineState?)
      requires Wf(before)
      reads this
    {
      match Admit(before, name, r)
      case Refused(code) => error == Some(code)
      case Admitted(i) => error == None && i < |created| && state == created[i]
    }

    /** start, after the backend returned. */
    method StartReturned(ghost h: nat, state: PipelineState, iteration: u64, ok: bool)
      requires Valid() && Enabled(spec, BackendRet(h, ok)) && spec.handlers[h].pc == Starting(iteration)
      requires spec.handlers[h].obj < |created| && created[spec.handlers[h].obj] == state
      modifies this, state
      ensures Valid() && created == old(created) && spec == Next(old(spec), BackendRet(h, ok))
    {
      state.pipeline := state.pipeline + [StartRet(iteration, ok)];
      if ok {
        state.iteration := iteration;
        state.active := true;
      } else {
        m_num_active_pipelines := Dec(m_num_active_pipelines);
      }
      spec := Next(spec, BackendRet(h, ok));
    }

    /** The common guards of stage, execute, cleanup and abort. */
    method Guard(pipeline_name: string, iteration: u64, ghost r: Request)
      returns (error: Option<int>, state: PipelineState?)
      requires Valid() && !r.Start? && r.k == iteration
      ensures Answers(spec, pipeline_name, r, error, state)
    {
      state := null;
      if pipeline_name !in m_pipelines {
        error := Some(INVALID_PIPELINE_NAME);
      } else {
        state := m_pipelines[pipeline_name];
        if !state.active {
          error := Some(PIPELINE_NOT_ACTIVE);
        } else if state.iteration != iteration {
          error := Some(INVALID_ITERATION);
        } else {
          error := None;
        }
      }
    }

    /** stage, with its call of the backend. */
    method Stage(pipeline_name: string, iteration: u64) returns (error: Option<int>, state: PipelineState?)
      requires Valid()
      modifies this`spec, created
      ensures Valid() && spec == Next(old(spec), Req(pipeline_name, Request.Stage(iteration)))
      ensures Answers(old(spec), pipeline_name, Request.Stage(iteration), error, state)
      ensures error == None ==> state != null && state.pipeline == old(state.pipeline) + [StageCall(iteration)]
    {
      ghost var r := Request.Stage(iteration);
      error, state := Guard(pipeline_name, iteration, r);
      if error == None {
        state.pipeline := state.pipeline + [StageCall(iteration)];
      }
      spec := Next(spec, Req(pipeline_name, r));
    }

    /** execute, up to the call of the backend. */
    method Execute(pipeline_name: string, iteration: u64, autoCleanup: bool)
      returns (error: Option<int>, state: PipelineState?)
      requires Valid()
      modifies this`spec, created
      ensures Valid() && spec == Next(old(spec), Req(pipeline_name, Request.Execute(iteration, autoCleanup)))
      ensures Answers(old(spec), pipeline_name, Request.Execute(iteration, autoCleanup), error, state)
      ensures error == None ==> state != null && state.pipeline == old(state.pipeline) + [ExecuteCall(iteration)]
    {
      ghost var r := Request.Execute(iteration, autoCleanup);
      error, state := Guard(pipeline_name, iteration, r);
      if error == None {
        state.pipeline := state.pipeline + [ExecuteCall(iteration)];
      }
      spec := Next(spec, Req(pipeline_name, r));
    }

    /** cleanup, up to the call of the backend. */
    method Cleanup(pipeline_name: string, iteration: u64) returns (error: Option<int>, state: PipelineState?)
      requires Valid()
      modifies this`spec, created
      ensures Valid() && spec == Next(old(spec), Req(pipeline_name, Request.Cleanup(iteration)))
      ensures Answers(old(spec), pipeline_name, Request.Cleanup(iteration), error, state)
      ensures error == None ==> state != null && state.pipeline == old(state.pipeline) + [CleanupCall(iteration)]
    {
      ghost var r := Request.Cleanup(iteration);
      error, state := Guard(pipeline_name, iteration, r);
      if error == None {
        state.pipeline := state.pipeline + [CleanupCall(iteration)];
      }
      spec := Next(spec, Req(pipeline_name, r));
    }

    /** abort, up to the call of the backend. */
    method Abort(pipeline_name: string, iteration: u64) returns (error: Option<int>, state: PipelineState?)
      requires Valid()
      modifies this`spec, created
      ensures Valid() && spec == Next(old(spec), Req(pipeline_name, Request.Abort(iteration)))
      ensures Answers(old(spec), pipeline_name, Request.Abort(iteration), error, state)
      ensures error == None ==> state != null && state.pipeline == old(state.pipeline) + [AbortCall(iteration)]
    {
      ghost var r := Request.Abort(iteration);
      error, state := Guard(pipeline_name, iteration, r);
      if error == None {
        state.pipeline := state.pipeline + [AbortCall(iteration)];
      }
      spec := Next(spec, Req(pipeline_name, r));
    }

    /** execute, after the backend's execute returned; tells whether the handler
        goes on to the automatic cleanup. */
    method ExecuteReturned(ghost h: nat, state: PipelineState, iteration: u64, autoCleanup: bool, ok: bool)
      returns (cleanup: bool)
      requires Valid() && Enabled(spec, BackendRet(h, ok)) && spec.handlers[h].pc == Executing(iteration, autoCleanup)
      requires spec.handlers[h].obj < |created| && created[spec.handlers[h].obj] == state
      modifies this`spec, state
      ensures Valid() && spec == Next(old(spec), BackendRet(h, ok))
      ensures cleanup <==> spec.handlers[h].pc.Cleaning?
    {
      cleanup := ok && autoCleanup;
      if cleanup {
        state.pipeline := state.pipeline + [CleanupCall(iteration)];
      }
      spec := Next(spec, BackendRet(h, ok));
    }

    /** cleanup, or the automatic cleanup of execute, after the backend returned;
        tells whether notify_all is called next. */
    method CleanupReturned(ghost h: nat, state: PipelineState, iteration: u64, auto: bool, ok: bool)
      returns (notify: bool)
      requires Valid() && Enabled(spec, BackendRet(h, ok)) && spec.handlers[h].pc == Cleaning(iteration, auto)
      requires spec.handlers[h].obj < |created| && created[spec.handlers[h].obj] == state
      modifies this, state
      ensures Valid() && created == old(created) && spec == Next(old(spec), BackendRet(h, ok))
      ensures notify <==> spec.handlers[h].pc.Notifying?
    {
      state.pipeline := state.pipeline + [CleanupRet(iteration, ok)];
      if ok {
        state.active := false;
        m_num_active_pipelines := Dec(m_num_active_pipelines);
      }
      notify := ok || auto;
      spec := Next(spec, BackendRet(h, ok));
    }

    /** abort, after the backend returned. */
    method AbortReturned(ghost h: nat, state: PipelineState, iteration: u64)
      requires Valid() && Enabled(spec, BackendRet(h, true)) && spec.handlers[h].pc == Aborting(iteration)
      requires spec.handlers[h].obj < |created| && created[spec.handlers[h].obj] == state
      modifies this, state
      ensures Valid() && created == old(created) && spec == Next(old(spec), BackendRet(h, true))
    {
      state.pipeline := state.pipeline + [AbortRet(iteration)];
      state.active := false;
      state.iteration := Dec(state.iteration);
      m_num_active_pipelines := Dec(m_num_active_pipelines);
      spec := Next(spec, BackendRet(h, true));
    }

    /** _createPipeline: a new state replaces any state of that name. */
    method CreatePipeline(name: string)
      requires Valid() && Enabled(spec, Create(name))
      modifies this
      ensures Valid() && spec == Next(old(spec), Create(name))
      ensures |created| == |old(created)| + 1 && created[..|old(created)|] == old(created)
      ensures var state := created[|old(created)|];
              fresh(state) && !state.active && state.iteration == 0 && state.pipeline == []
              && m_pipelines == old(m_pipelines)[name := state]
    {
      var state := new PipelineState();
      m_pipelines := m_pipelines[name := state];
      created := created + [state];
      spec := Next(spec, Create(name));
    }

    /** destroyPipeline; `answer` is what the backend's destroy says (None for
        success): the pipeline is erased whatever that is. */
    method DestroyPipeline(pipeline_name: string, answer: Option<int>) returns (error: Option<int>)
      requires Valid()
      modifies this
      ensures Valid() && created == old(created) && spec == Next(old(spec), Destroy(pipeline_name))
      ensures error ==
              if pipeline_name !in old(spec).names then Some(INVALID_PIPELINE_NAME)
              else if old(spec).objs[old(spec).names[pipeline_name]].active then Some(PIPELINE_IS_ACTIVE)
              else answer
    {
      if pipeline_name !in m_pipelines {
        error := Some(INVALID_PIPELINE_NAME);
      } else if m_pipelines[pipeline_name].active {
        error := Some(PIPELINE_IS_ACTIVE);
      } else {
        error := answer;
        m_pipelines := m_pipelines - {pipeline_name};
      }
      spec := Next(spec, Destroy(pipeline_name));
    }

    /** One turn of the wait loop of leave, under the lock: `woken` tells whether
        the handler enters it or comes back from the condition variable. */
    method Leave(woken: bool) returns (left: bool)
      requires Valid() && (woken ==> Enabled(spec, LeaveWake))
      modifies this
      ensures Valid() && created == old(created)
      ensures spec == Next(old(spec), if woken then LeaveWake else LeaveReq)
      ensures left <==> old(m_num_active_pipelines) == 0
    {
      left := m_num_active_pipelines == 0;
      if left {
        m_pipelines := map[];
      }
      spec := Next(spec, if woken then LeaveWake else LeaveReq);
    }

    /** The hash part of _membershipUpdate. */
    method MembershipUpdate(member_id: u64)
      requires Valid()
      modifies this
      ensures Valid() && created == old(created) && spec == Next(old(spec), MemberUpdate(member_id))
    {
      m_group_hash := Xor(m_group_hash, member_id);
      spec := Next(spec, MemberUpdate(member_id));
    }
  }
}
