/** What trace injection computes, stated as pure functions.

    The methods of module TraceInject build their results step by step, as
    trace_inject.py does; each of them is proved to return what the functions
    here define, and module SpliceProperties proves what those functions
    promise.
 */
module SpliceSpec {
  import opened Bril

  /** The index of the first function of `funcs` named `name`: lookup scans
      the program in order and stops at the first match, so a later function
      with the same name is never chosen. */
  function FindIndex(funcs: seq<Function>, name: string): (r: Option<nat>)
    ensures r.Some? ==> r.value < |funcs| && funcs[r.value].name == name
    ensures r.Some? ==> forall j :: 0 <= j < r.value ==> funcs[j].name != name
    ensures r.None? <==> forall j :: 0 <= j < |funcs| ==> funcs[j].name != name
  {
    if funcs == [] then None
    else if funcs[0].name == name then Some(0)
    else match FindIndex(funcs[1..], name)
      case None => None
      case Some(k) => Some(k + 1)
  }

  /** The body a function object holds: a missing "instrs" key reads as an
      empty body, a value that is not a list has none. */
  function BodyOf(instrs: InstrList): (r: Option<seq<Instr>>) {
    match instrs
    case Absent => Some([])
    case List(items) => Some(items)
    case NotAList => None
  }

  /** The entry label of the function and whether the body already had it
      as its first instruction; the slow-path and join labels are derived
      from it by suffixing. */
  datatype Entry = Entry(name: string, explicit: bool) {
    function Slow(): string { name + "_slow" }
    function After(): string { name + "_after" }
  }

  /** Takes the name of a leading label as the entry, or synthesises
      ".<func>_entry" when the body is empty or opens with an operation. */
  function ResolveEntry(func: string, body: seq<Instr>): (e: Entry) {
    if |body| > 0 && body[0].Label? then Entry(body[0].name, true)
    else Entry("." + func + "_entry", false)
  }

  /** A trace instruction after patching: a guard bails out to `slow`. */
  function PatchGuard(i: Instr, slow: string): (r: Instr) {
    if IsGuard(i) then i.(labels := [slow]) else i
  }

  function PatchedTrace(trace: seq<Instr>, slow: string): (r: seq<Instr>) {
    if trace == [] then [] else [PatchGuard(trace[0], slow)] + PatchedTrace(trace[1..], slow)
  }

  /** A body instruction renamed to `slow` when it is a label; only its
      "label" key changes, its other keys stay. */
  function RelabelHead(i: Instr, slow: string): (r: Instr) {
    if i.Label? then i.(name := slow) else i
  }

  /** The slow path: the original body with its entry label renamed, or,
      when the entry was synthesised, the whole body behind a new label. */
  function SlowBlock(body: seq<Instr>, explicit: bool, slow: string): (r: seq<Instr>) {
    if !explicit then [NewLabel(slow)] + body
    else if body == [] then []
    else [RelabelHead(body[0], slow)] + body[1..]
  }

  /** The fast path at the original entry: the patched trace between the
      speculation markers, then a jump to the join label. */
  function FastPath(e: Entry, patched: seq<Instr>): (r: seq<Instr>) {
    [NewLabel(e.name), Speculate()] + patched + [Commit(), Jmp(e.After())]
  }

  /** The body that replaces the owner's: fast path, slow path, join label. */
  function SplicedBody(func: string, body: seq<Instr>, trace: seq<Instr>): (r: seq<Instr>) {
    var e := ResolveEntry(func, body);
    FastPath(e, PatchedTrace(trace, e.Slow())) + SlowBlock(body, e.explicit, e.Slow()) + [NewLabel(e.After())]
  }

  /** The whole transformation of the program's function list, checks in
      the order trace_inject.py makes them. */
  function Splice(funcs: seq<Function>, trace: Trace): (r: Result<seq<Function>>) {
    if trace.func.None? || trace.instrs.Absent? then Err(MissingTraceField)
    else if trace.instrs.NotAList? || trace.instrs.items == [] then Err(EmptyOrInvalidTrace)
    else
      var name := trace.func.value;
      match FindIndex(funcs, name)
      case None => Err(FunctionNotFound(name))
      case Some(k) =>
        match BodyOf(funcs[k].instrs)
        case None => Err(InstrsNotAList)
        case Some(body) =>
          Ok(funcs[k := funcs[k].(instrs := List(SplicedBody(name, body, trace.instrs.items)))])
  }

  /** Patching keeps the trace's length, rebinds each guard to `slow` and
      nothing else, and passes every other instruction through. */
  lemma {:induction false} PatchedTraceAt(trace: seq<Instr>, slow: string)
    ensures |PatchedTrace(trace, slow)| == |trace|
    ensures forall k :: 0 <= k < |trace| ==>
      PatchedTrace(trace, slow)[k] == (if IsGuard(trace[k]) then trace[k].(labels := [slow]) else trace[k])
  {
    if trace != [] {
      PatchedTraceAt(trace[1..], slow);
      forall k | 0 <= k < |trace|
        ensures PatchedTrace(trace, slow)[k] == (if IsGuard(trace[k]) then trace[k].(labels := [slow]) else trace[k])
      {
        if k > 0 {
          assert PatchedTrace(trace, slow)[k] == PatchedTrace(trace[1..], slow)[k - 1];
        }
      }
    }
  }
}
