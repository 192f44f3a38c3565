/**
 * The development registry of AO processes: a module-level dictionary from
 * process id to process that every exported helper reads and overwrites,
 * failing with "Process not found" for an id it does not hold.
 */
module AoRegistry {
  import opened Wrappers
  import opened Json
  import Assoc
  import S = JsString

  datatype LuaHandler = LuaHandler(name: string, code: string, description: Option<string>)

  datatype AOProcess = AOProcess(
    id: string,
    name: string,
    description: Option<string>,
    handlers: seq<LuaHandler>,
    state: Option<Props>)

  /** `Partial<AOProcess>`: the fields an update carries. */
  datatype ProcessUpdate = ProcessUpdate(
    id: Option<string>,
    name: Option<string>,
    description: Option<Option<string>>,
    handlers: Option<seq<LuaHandler>>,
    state: Option<Option<Props>>)

  /** What `executeLuaHandler` returns: `{ success, result, params }`. */
  datatype Execution = Execution(success: bool, result: string, params: Props)

  /** Process id to process, in the order the ids were first stored. */
  type Registry = seq<(string, AOProcess)>

  const ProcessNotFound := "Process not found"
  const HandlerNotFound := "Handler not found"
  const IdPrefix := "process-"

  /** `process-${Date.now()}`. */
  function ProcessId(now: nat): string
  {
    IdPrefix + S.NatToString(now)
  }

  /** `createAOProcess(name, description, handlers)` at time `now`: the new process and the new registry. */
  function CreateProcess(reg: Registry, name: string, description: Option<string>,
                         handlers: Option<seq<LuaHandler>>, now: nat): (AOProcess, Registry)
  {
    var p := AOProcess(ProcessId(now), name, description, if handlers.Some? then handlers.value else [], Some([]));
    (p, Assoc.Put(reg, p.id, p))
  }

  /** `{ ...process, ...updates }`: each field the update carries replaces the stored one. */
  function Apply(p: AOProcess, u: ProcessUpdate): AOProcess
  {
    AOProcess(
      if u.id.Some? then u.id.value else p.id,
      if u.name.Some? then u.name.value else p.name,
      if u.description.Some? then u.description.value else p.description,
      if u.handlers.Some? then u.handlers.value else p.handlers,
      if u.state.Some? then u.state.value else p.state)
  }

  /** `updateAOProcess(processId, updates)`. */
  function UpdateProcess(reg: Registry, processId: string, u: ProcessUpdate): (Result<AOProcess, string>, Registry)
  {
    var stored := Assoc.Get(reg, processId);
    if stored.None? then (Err(ProcessNotFound), reg)
    else
      var updated := Apply(stored.value, u);
      (Ok(updated), Assoc.Put(reg, processId, updated))
  }

  /** `addLuaHandler(processId, handler)`. */
  function AddHandler(reg: Registry, processId: string, h: LuaHandler): (Result<AOProcess, string>, Registry)
  {
    var stored := Assoc.Get(reg, processId);
    if stored.None? then (Err(ProcessNotFound), reg)
    else
      var updated := stored.value.(handlers := stored.value.handlers + [h]);
      (Ok(updated), Assoc.Put(reg, processId, updated))
  }

  /** `handlers.find(h => h.name === name)`. */
  function FindHandler(hs: seq<LuaHandler>, name: string): (r: Option<LuaHandler>)
    ensures r.None? <==> forall i :: 0 <= i < |hs| ==> hs[i].name != name
    ensures r.Some? ==> exists i :: 0 <= i < |hs| && hs[i] == r.value && r.value.name == name
                                    && forall j :: 0 <= j < i ==> hs[j].name != name
  {
    if hs == [] then None
    else if hs[0].name == name then Some(hs[0])
    else
      var r := FindHandler(hs[1..], name);
      assert r.Some? ==> exists i :: 0 <= i < |hs[1..]| && hs[1..][i] == r.value && r.value.name == name
                                     && forall j :: 0 <= j < i ==> hs[1..][j].name != name;
      if r.Some? then
        var i :| 0 <= i < |hs[1..]| && hs[1..][i] == r.value && r.value.name == name
                 && forall j :: 0 <= j < i ==> hs[1..][j].name != name;
        assert hs[i + 1] == r.value;
        assert forall j :: 1 <= j < i + 1 ==> hs[j] == hs[1..][j - 1];
        r
      else r
  }

  /** `executeLuaHandler(processId, handlerName, params)`. */
  function ExecuteHandler(reg: Registry, processId: string, handlerName: string, params: Props): Result<Execution, string>
  {
    var stored := Assoc.Get(reg, processId);
    if stored.None? then Err(ProcessNotFound)
    else if FindHandler(stored.value.handlers, handlerName).None? then Err(HandlerNotFound)
    else Ok(Execution(true, "Mock execution of " + handlerName, params))
  }

  /** `getProcessState(processId)`: the stored state, `{}` when it has none. */
  function ProcessState(reg: Registry, processId: string): Result<Props, string>
  {
    var stored := Assoc.Get(reg, processId);
    if stored.None? then Err(ProcessNotFound)
    else Ok(if stored.value.state.Some? then stored.value.state.value else [])
  }

  /** `updateProcessState(processId, updates)`: the merged state and the new registry. */
  function UpdateState(reg: Registry, processId: string, updates: Props): (Result<Props, string>, Registry)
  {
    var stored := Assoc.Get(reg, processId);
    if stored.None? then (Err(ProcessNotFound), reg)
    else
      var current := if stored.value.state.Some? then stored.value.state.value else [];
      var merged := Assoc.Merge(current, updates);
      (Ok(merged), Assoc.Put(reg, processId, stored.value.(state := Some(merged))))
  }

  // ---------------------------------------------------------------- what the registry promises

  /** Every helper given an id the registry lacks fails with "Process not found" and changes nothing. */
  lemma UnknownIdFails(reg: Registry, processId: string, u: ProcessUpdate, h: LuaHandler,
                       handlerName: string, params: Props, updates: Props)
    requires processId !in Assoc.Keys(reg)
    ensures UpdateProcess(reg, processId, u) == (Err(ProcessNotFound), reg)
    ensures AddHandler(reg, processId, h) == (Err(ProcessNotFound), reg)
    ensures ExecuteHandler(reg, processId, handlerName, params) == Err(ProcessNotFound)
    ensures ProcessState(reg, processId) == Err(ProcessNotFound)
    ensures UpdateState(reg, processId, updates) == (Err(ProcessNotFound), reg)
  {
  }

  /**
   * `createAOProcess` stores the process it returns under its id
   * "process-<timestamp>", with the given name and description, no
   * handlers unless some are given, and an empty state; no other id changes.
   */
  lemma CreateStores(reg: Registry, name: string, description: Option<string>,
                     handlers: Option<seq<LuaHandler>>, now: nat)
    ensures var (p, next) := CreateProcess(reg, name, description, handlers, now);
      p.id == IdPrefix + S.NatToString(now) && p.name == name && p.description == description
      && p.handlers == (if handlers.None? then [] else handlers.value) && p.state == Some([])
      && Assoc.Get(next, p.id) == Some(p)
      && forall k :: k != p.id ==> Assoc.Get(next, k) == Assoc.Get(reg, k)
  {
  }

  /** Processes created at different times get different ids. */
  lemma CreateIdsDistinct(now1: nat, now2: nat)
    requires now1 != now2
    ensures ProcessId(now1) != ProcessId(now2)
  {
    if ProcessId(now1) == ProcessId(now2) {
      assert S.NatToString(now1) == ProcessId(now1)[|IdPrefix|..];
      assert S.NatToString(now2) == ProcessId(now2)[|IdPrefix|..];
      S.NatToStringInjective(now1, now2);
    }
  }

  /**
   * `updateAOProcess` on a known id stores, under the same id, the process
   * with every field the update carries replaced and every other field kept,
   * and returns it; no other id changes.
   */
  lemma UpdateMerges(reg: Registry, processId: string, u: ProcessUpdate)
    requires processId in Assoc.Keys(reg)
    ensures var (r, next) := UpdateProcess(reg, processId, u);
      var p := Assoc.Get(reg, processId).value;
      r.Ok? && Assoc.Get(next, processId) == Some(r.value)
      && r.value.id == (if u.id.Some? then u.id.value else p.id)
      && r.value.name == (if u.name.Some? then u.name.value else p.name)
      && r.value.description == (if u.description.Some? then u.description.value else p.description)
      && r.value.handlers == (if u.handlers.Some? then u.handlers.value else p.handlers)
      && r.value.state == (if u.state.Some? then u.state.value else p.state)
      && forall k :: k != processId ==> Assoc.Get(next, k) == Assoc.Get(reg, k)
  {
  }

  /** An empty update stores the process unchanged. */
  lemma EmptyUpdateKeeps(p: AOProcess)
    ensures Apply(p, ProcessUpdate(None, None, None, None, None)) == p
  {
  }

  /**
   * `addLuaHandler` on a known id appends the handler after the existing
   * ones and keeps every other field of the process; no other id changes.
   */
  lemma AddHandlerAppends(reg: Registry, processId: string, h: LuaHandler)
    requires processId in Assoc.Keys(reg)
    ensures var (r, next) := AddHandler(reg, processId, h);
      var p := Assoc.Get(reg, processId).value;
      r.Ok? && Assoc.Get(next, processId) == Some(r.value)
      && r.value.handlers == p.handlers + [h]
      && r.value.id == p.id && r.value.name == p.name && r.value.description == p.description
      && r.value.state == p.state
      && forall k :: k != processId ==> Assoc.Get(next, k) == Assoc.Get(reg, k)
  {
  }

  /** A handler just added is found by its name, unless an earlier one has the same name. */
  lemma AddedHandlerRuns(reg: Registry, processId: string, h: LuaHandler, params: Props)
    requires processId in Assoc.Keys(reg)
    ensures ExecuteHandler(AddHandler(reg, processId, h).1, processId, h.name, params)
         == Ok(Execution(true, "Mock execution of " + h.name, params))
  {
    var next := AddHandler(reg, processId, h).1;
    var hs := Assoc.Get(next, processId).value.handlers;
    assert hs[|hs| - 1] == h;
  }

  /**
   * `executeLuaHandler` on a known id fails with "Handler not found" exactly
   * when no handler has the name, and otherwise succeeds, echoing the params.
   */
  lemma ExecuteSpec(reg: Registry, processId: string, handlerName: string, params: Props)
    requires processId in Assoc.Keys(reg)
    ensures var r := ExecuteHandler(reg, processId, handlerName, params);
      var hs := Assoc.Get(reg, processId).value.handlers;
      (r == Err(HandlerNotFound) <==> forall i :: 0 <= i < |hs| ==> hs[i].name != handlerName)
      && (r.Ok? ==> r.value.success && r.value.params == params
                    && r.value.result == "Mock execution of " + handlerName)
  {
  }

  /** `getProcessState` on a known id returns the stored state, or `{}` when it has none. */
  lemma StateSpec(reg: Registry, processId: string)
    requires processId in Assoc.Keys(reg)
    ensures var p := Assoc.Get(reg, processId).value;
      ProcessState(reg, processId) == Ok(if p.state.None? then [] else p.state.value)
  {
  }

  /**
   * `updateProcessState` on a known id: a key of the updates takes the
   * update's value, every other key keeps the stored one; the merged state
   * is stored and returned, and the rest of the process and every other id
   * are unchanged.
   */
  lemma UpdateStateMerges(reg: Registry, processId: string, updates: Props, key: string)
    requires processId in Assoc.Keys(reg) && Assoc.UniqueKeys(updates)
    ensures var (r, next) := UpdateState(reg, processId, updates);
      var p := Assoc.Get(reg, processId).value;
      var prior := if p.state.Some? then p.state.value else [];
      r.Ok?
      && Assoc.Get(r.value, key) == (if key in Assoc.Keys(updates) then Assoc.Get(updates, key) else Assoc.Get(prior, key))
      && Assoc.Get(next, processId) == Some(p.(state := Some(r.value)))
      && ProcessState(next, processId) == r
      && forall k :: k != processId ==> Assoc.Get(next, k) == Assoc.Get(reg, k)
  {
    var p := Assoc.Get(reg, processId).value;
    var current := if p.state.Some? then p.state.value else [];
    Assoc.MergeGet(current, updates, key);
  }

  // ---------------------------------------------------------------- the module-level dictionary

  /** `mockProcesses` and the helpers that read and overwrite it. */
  class Mock {
    var mockProcesses: Registry

    constructor()
      ensures mockProcesses == []
    {
      mockProcesses := [];
    }

    method CreateAOProcess(name: string, description: Option<string>, handlers: Option<seq<LuaHandler>>, now: nat)
      returns (p: AOProcess)
      modifies this
      ensures (p, mockProcesses) == CreateProcess(old(mockProcesses), name, description, handlers, now)
    {
      p := AOProcess(IdPrefix + S.NatToString(now), name, description,
                     if handlers.Some? then handlers.value else [], Some([]));
      mockProcesses := Assoc.Put(mockProcesses, p.id, p);
    }

    method UpdateAOProcess(processId: string, updates: ProcessUpdate) returns (r: Result<AOProcess, string>)
      modifies this
      ensures (r, mockProcesses) == UpdateProcess(old(mockProcesses), processId, updates)
    {
      var process := Assoc.Get(mockProcesses, processId);
      if process.None? {
        return Err(ProcessNotFound);
      }
      var updatedProcess := Apply(process.value, updates);
      mockProcesses := Assoc.Put(mockProcesses, processId, updatedProcess);
      return Ok(updatedProcess);
    }

    method AddLuaHandler(processId: string, handler: LuaHandler) returns (r: Result<AOProcess, string>)
      modifies this
      ensures (r, mockProcesses) == AddHandler(old(mockProcesses), processId, handler)
    {
      var process := Assoc.Get(mockProcesses, processId);
      if process.None? {
        return Err(ProcessNotFound);
      }
      var updatedProcess := process.value.(handlers := process.value.handlers + [handler]);
      mockProcesses := Assoc.Put(mockProcesses, processId, updatedProcess);
      return Ok(updatedProcess);
    }

    method ExecuteLuaHandler(processId: string, handlerName: string, params: Props) returns (r: Result<Execution, string>)
      ensures r == ExecuteHandler(mockProcesses, processId, handlerName, params)
    {
      var process := Assoc.Get(mockProcesses, processId);
      if process.None? {
        return Err(ProcessNotFound);
      }
      var handler := FindHandler(process.value.handlers, handlerName);
      if handler.None? {
        return Err(HandlerNotFound);
      }
      return Ok(Execution(true, "Mock execution of " + handlerName, params));
    }

    method GetProcessState(processId: string) returns (r: Result<Props, string>)
      ensures r == ProcessState(mockProcesses, processId)
    {
      var process := Assoc.Get(mockProcesses, processId);
      if process.None? {
        return Err(ProcessNotFound);
      }
      return Ok(if process.value.state.Some? then process.value.state.value else []);
    }

    method UpdateProcessState(processId: string, updates: Props) returns (r: Result<Props, string>)
      modifies this
      ensures (r, mockProcesses) == UpdateState(old(mockProcesses), processId, updates)
    {
      var process := Assoc.Get(mockProcesses, processId);
      if process.None? {
        return Err(ProcessNotFound);
      }
      var current := if process.value.state.Some? then process.value.state.value else [];
      var updatedState := Assoc.Merge(current, updates);
      mockProcesses := Assoc.Put(mockProcesses, processId, process.value.(state := Some(updatedState)));
      return Ok(updatedState);
    }
  }
}
