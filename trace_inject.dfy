/** Trace injection as trace_inject.py performs it: a search loop for the
    owner function, lists built by appending in loops, and one update of
    the program in place. Each method is proved to compute what module
    SpliceSpec defines.
 */
module TraceInject {
  import opened Bril
  import opened SpliceSpec

  /** Scans the functions in order and stops at the first one named `name`. */
  method FindTarget(funcs: seq<Function>, name: string) returns (k: Option<nat>)
    ensures k.Some? ==> k.value < |funcs| && funcs[k.value].name == name
    ensures k.Some? ==> forall j :: 0 <= j < k.value ==> funcs[j].name != name
    ensures k.None? ==> forall j :: 0 <= j < |funcs| ==> funcs[j].name != name
    ensures k == FindIndex(funcs, name)
  {
    k := None;
    var i := 0;
    while i < |funcs|
      invariant 0 <= i <= |funcs|
      invariant forall j :: 0 <= j < i ==> funcs[j].name != name
    {
      if funcs[i].name == name {
        k := Some(i);
        return;
      }
      i := i + 1;
    }
  }

  /** Copies the trace, pointing every guard at the slow-path label. */
  method PatchGuards(trace: seq<Instr>, slow: string) returns (patched: seq<Instr>)
    ensures |patched| == |trace|
    ensures forall k :: 0 <= k < |trace| && IsGuard(trace[k]) ==> patched[k] == trace[k].(labels := [slow])
    ensures forall k :: 0 <= k < |trace| && !IsGuard(trace[k]) ==> patched[k] == trace[k]
    ensures patched == PatchedTrace(trace, slow)
  {
    patched := [];
    for i := 0 to |trace|
      invariant |patched| == i
      invariant forall k :: 0 <= k < i ==> patched[k] == PatchGuard(trace[k], slow)
    {
      var instr := trace[i];
      if IsGuard(instr) {
        instr := instr.(labels := [slow]);
      }
      patched := patched + [instr];
    }
    PatchedTraceAt(trace, slow);
  }

  /** Copies the original body for the slow path. With an entry label, only
      the instruction at index 0 is renamed (when it is a label, keeping its
      other keys); without one, a new label goes in front of the whole body. */
  method BuildSlowBlock(body: seq<Instr>, hasEntry: bool, slow: string) returns (block: seq<Instr>)
    ensures hasEntry ==> |block| == |body|
    ensures hasEntry && |body| > 0 && body[0].Label? ==> block[0] == body[0].(name := slow)
    ensures hasEntry && |body| > 0 && !body[0].Label? ==> block[0] == body[0]
    ensures hasEntry ==> forall k :: 1 <= k < |body| ==> block[k] == body[k]
    ensures !hasEntry ==> block == [NewLabel(slow)] + body
    ensures block == SlowBlock(body, hasEntry, slow)
  {
    block := [];
    if hasEntry {
      for idx := 0 to |body|
        invariant |block| == idx
        invariant idx > 0 ==> block[0] == RelabelHead(body[0], slow)
        invariant forall k :: 1 <= k < idx ==> block[k] == body[k]
      {
        var instr := body[idx];
        if idx == 0 && instr.Label? {
          instr := instr.(name := slow);
        }
        block := block + [instr];
      }
    } else {
      block := block + [NewLabel(slow)];
      for idx := 0 to |body|
        invariant block == [NewLabel(slow)] + body[..idx]
      {
        block := block + [body[idx]];
      }
      assert body[..|body|] == body;
    }
  }

  /** Resolves the entry, patches the trace and assembles fast path, slow
      path and join label into the owner's new body. */
  method SpliceBody(func: string, body: seq<Instr>, trace: seq<Instr>) returns (newBody: seq<Instr>)
    ensures newBody == SplicedBody(func, body, trace)
  {
    var e := ResolveEntry(func, body);
    var slowLabel := e.Slow();
    var afterLabel := e.After();
    var patched := PatchGuards(trace, slowLabel);

    var fastEntry := [];
    fastEntry := fastEntry + [NewLabel(e.name)];
    fastEntry := fastEntry + [Speculate()];
    fastEntry := fastEntry + patched;
    fastEntry := fastEntry + [Commit()];
    fastEntry := fastEntry + [Jmp(afterLabel)];

    var slowBlock := BuildSlowBlock(body, e.explicit, slowLabel);
    var afterBlock := [NewLabel(afterLabel)];
    newBody := fastEntry + slowBlock + afterBlock;
  }

  /** The program being rewritten: the list under its "functions" key. */
  class Program {
    var functions: seq<Function>

    constructor (functions: seq<Function>)
      ensures this.functions == functions
    {
      this.functions := functions;
    }

    /** Installs the trace in its owner function. Every refusal happens
        before the program is touched; on success only the owner's body is
        replaced. */
    method Inject(trace: Trace) returns (err: Option<SpliceError>)
      modifies this
      ensures Splice(old(functions), trace).Ok? ==>
        err == None && functions == Splice(old(functions), trace).value
      ensures Splice(old(functions), trace).Err? ==>
        err == Some(Splice(old(functions), trace).error) && functions == old(functions)
    {
      if trace.func.None? || trace.instrs.Absent? {
        return Some(MissingTraceField);
      }
      if trace.instrs.NotAList? || |trace.instrs.items| == 0 {
        return Some(EmptyOrInvalidTrace);
      }
      var name := trace.func.value;
      var target := FindTarget(functions, name);
      if target.None? {
        return Some(FunctionNotFound(name));
      }
      var k := target.value;
      var instrs := match functions[k].instrs
        case Absent => List([])
        case other => other;
      if instrs.NotAList? {
        return Some(InstrsNotAList);
      }
      var newBody := SpliceBody(name, instrs.items, trace.instrs.items);
      functions := functions[k := functions[k].(instrs := List(newBody))];
      err := None;
    }
  }
}
