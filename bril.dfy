/** The Bril program shapes that trace injection reads and writes.

    A Bril program is a JSON object whose "functions" list holds function
    objects; a function object carries a "name", an "instrs" list and other
    fields (arguments, return type) that trace injection never looks at.
    An instruction object is either a label marker or an operation.
 */
module Bril {

  datatype Option<+T> = None | Some(value: T)

  /** Fields of an instruction or function object that trace injection copies
      without looking at them ("args", "dest", "type", "value", "funcs",
      "pos", ...), each as its key and its JSON text. The keys "label", "op",
      "labels", "name" and "instrs" never occur here: they are the typed
      fields of the datatypes below. */
  type Attrs = seq<(string, string)>

  /** One Bril instruction object: a label `{"label": name, ...}` or an
      operation `{"op": op, "labels": labels, ...}`, whose other fields (a
      source position "pos", say) are `rest`. */
  datatype Instr =
    | Label(name: string, rest: Attrs)
    | Op(op: string, labels: seq<string>, rest: Attrs)

  /** A value found under an "instrs" or "trace" key: the key is missing,
      the value is a list of instructions, or it is some other JSON value. */
  datatype InstrList = Absent | List(items: seq<Instr>) | NotAList

  /** A function object of the program. */
  datatype Function = Function(name: string, instrs: InstrList, rest: Attrs)

  /** The recorded trace: the owner function's name (the "func" key, which
      may be missing) and the recorded instructions (the "trace" key). */
  datatype Trace = Trace(func: Option<string>, instrs: InstrList)

  /** The ways trace injection refuses its inputs. */
  datatype SpliceError =
    | MissingTraceField        // the trace lacks "func" or "trace"
    | EmptyOrInvalidTrace      // "trace" is not a list, or is an empty one
    | FunctionNotFound(name: string)
    | InstrsNotAList           // the owner's "instrs" is not a list

  datatype Result<+T> = Ok(value: T) | Err(error: SpliceError)

  /** An instruction the tracer recorded as a guard; its "labels" name the
      place to go when the guard fails. */
  predicate IsGuard(i: Instr) {
    i.Op? && i.op == "guard"
  }

  /** A label object trace injection creates: `{"label": name}` alone. */
  function NewLabel(name: string): Instr { Label(name, []) }

  /** The markers the fast path is built from: `{"op": "speculate"}`,
      `{"op": "commit"}` and `{"op": "jmp", "labels": [target]}`. */
  function Speculate(): Instr { Op("speculate", [], []) }

  function Commit(): Instr { Op("commit", [], []) }

  function Jmp(target: string): Instr { Op("jmp", [target], []) }
}
