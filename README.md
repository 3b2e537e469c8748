# Trace injection for Bril, modelled in Dafny

`trace_inject.py` installs a recorded execution trace in a Bril program as a
speculative fast path. The trace names its owner function and lists the
instructions recorded along one hot path, guards included. The tool rewrites
the owner's body into three regions:

- a fast path at the function's original entry label: `speculate`, the trace
  with every guard pointed at the slow path, `commit`, and a `jmp` to the join
  label;
- a slow path: the original body, with its entry label renamed to
  `<entry>_slow`, or behind a new `<entry>_slow` label when the body had no
  entry label. In that case the entry is synthesised as `.<func>_entry`;
- the join label `<entry>_after`.

Nothing else in the program changes.

The model has five files:

- `bril.dfy` (module `Bril`) holds the data. Instructions are labels or
  operations. An "instrs" or "trace" value is either missing, a list, or some
  other JSON value. It also holds the function objects, the trace and the
  error kinds.
- `splice_spec.dfy` (module `SpliceSpec`) states, as pure functions, what the
  transformation computes. The first-match lookup is `FindIndex`, entry
  resolution is `ResolveEntry`, guard patching is `PatchedTrace`, the slow
  path is `SlowBlock` and the assembled body is `SplicedBody`. The whole
  program rewrite is `Splice`, which makes its checks in the same order as
  `trace_inject.py`.
- `trace_inject.dfy` (module `TraceInject`) does the work step by step, as
  `trace_inject.py` does: a search loop that stops at the first match, lists built by
  appending in loops, and a `Program` class whose `Inject` method replaces one
  element of its `functions` field. Each method is proved to return what the
  corresponding function of `SpliceSpec` defines.
- `properties.dfy` (module `SpliceProperties`) proves what the transformation
  guarantees: the layout of the new body, guard rebinding, slow-path fidelity,
  lengths, the derived labels, when labels stay unique, and that only the
  first owner is rewritten.
- `scenarios.dfy` (module `SpliceScenarios`) works through small programs:
  an explicit entry label, a synthesised entry, a duplicated function name, a
  missing owner and an empty trace.

The transformation is a function of its inputs, so two runs on the same
program and trace give the same result. `LabelsDistinctWhenFresh` proves that
labels stay unique when the trace carries no labels, the body's labels are
distinct, and the new names (the slow and join labels, and a synthesised
entry) are not among the body's labels. Each of these hypotheses is needed,
since the code checks none of them: the trace's labels are copied into the
fast path as they are (`trace_inject.py:91-97`). `CollisionNotDetected`
exhibits a body in which a label ends up twice.

Three facts about the code shape the model:

- The code never checks that `<entry>_slow` and `<entry>_after` are new names
  in the body, so the model has no label-collision error.
- The code refuses an empty trace itself (`trace_inject.py:47`), so the model
  reports that error too.
- Functions are a list searched in order, and the first match wins
  (`trace_inject.py:64-67`), so the program is a sequence of functions.

Label objects keep their other keys (a source position "pos", say). The
slow path's renamed head changes only its "label" key
(`trace_inject.py:113-114`). The fast path's entry label is a new
`{"label": entry}` object without those keys (`trace_inject.py:101`).

## Model

| member | source | states |
|---|---|---|
| `SpliceSpec.FindIndex` | trace_inject.py:62-71 | The chosen index is the first function named like the owner: in range, name matches, no earlier function has that name. The result is None exactly when no function has the name. |
| `SpliceSpec.PatchedTraceAt` | trace_inject.py:90-97 | The patched trace is as long as the trace. A guard's labels become exactly `[slow]` with its other fields kept. Every non-guard instruction is unchanged. |
| `SpliceSpec.BodyOf` | trace_inject.py:73-76 | No contract of its own: a missing "instrs" reads as an empty body and a non-list has none. `SpliceRewritesFirstOwnerOnly` states the consequences for the program. |
| `SpliceSpec.ResolveEntry` | trace_inject.py:80-88 | No contract of its own. `EntryLabels` states the entry it picks and the derived labels. |
| `SpliceSpec.PatchGuard` | trace_inject.py:94-96 | No contract of its own: one trace instruction after patching. `PatchedTraceAt` and `GuardsBailToSlowPath` state its effect. |
| `SpliceSpec.PatchedTrace` | trace_inject.py:90-97 | No contract of its own. `PatchedTraceAt` states its length and each element. |
| `SpliceSpec.RelabelHead` | trace_inject.py:113-114 | No contract of its own: the head label renamed, other keys kept. `SlowPathFidelity` states the slow path's head. |
| `SpliceSpec.SlowBlock` | trace_inject.py:107-120 | No contract of its own. `SlowPathFidelity` states both branches and the empty body. |
| `SpliceSpec.FastPath` | trace_inject.py:99-105 | No contract of its own. `SplicedBodyLayout` states the fast-path region index by index. |
| `SpliceSpec.SplicedBody` | trace_inject.py:78-123 | No contract of its own. `SplicedBodyLayout`, `SplicedBodyLength`, `GuardsBailToSlowPath` and `LabelsOfSplicedBody` state its properties. |
| `SpliceSpec.Splice` | trace_inject.py:40-126 | No contract of its own. `TraceCheckedFirst`, `MissingOwnerRefused` and `SpliceRewritesFirstOwnerOnly` state its refusals and its rewrite. |
| `TraceInject.FindTarget` | trace_inject.py:62-71 | The search loop returns the first function with the owner's name, or None when there is none. This agrees with `FindIndex`. |
| `TraceInject.PatchGuards` | trace_inject.py:90-97 | The append loop yields a list as long as the trace. Guards are rebound to `[slow]` and other instructions are copied unchanged. The result equals `PatchedTrace`. |
| `TraceInject.BuildSlowBlock` | trace_inject.py:107-120 | With an entry label, the block is as long as the body. Index 0, when it is a label, gets the slow label as its name and keeps its other keys. Every later index is the body's instruction. Without one, the block is `[Label(slow)] + body`. Both agree with `SlowBlock`. |
| `TraceInject.SpliceBody` | trace_inject.py:78-123 | Resolving the entry, patching, and appending the fast path, slow block and join label produce exactly `SplicedBody`. |
| `TraceInject.Program.Inject` | trace_inject.py:40-126 | A missing field, an empty or non-list trace, a missing owner, or a non-list "instrs" leaves `functions` unchanged and reports that error. Otherwise `functions` becomes `Splice` of the old list. |
| `SpliceProperties.EntryLabels` | trace_inject.py:78-88 | The entry is the head label's name exactly when the body is non-empty and opens with a label, and `"." + func + "_entry"` otherwise. The slow and join labels are the entry plus `_slow` and `_after`, and the three names are pairwise distinct. |
| `SpliceProperties.SplicedBodyLayout` | trace_inject.py:99-126 | The new body is, index by index: the entry label, speculate, the patched trace, commit, a jump to the join label, the slow block, and the join label last. Its length is trace + slow block + 5. |
| `SpliceProperties.GuardsBailToSlowPath` | trace_inject.py:90-105 | Each trace guard sits in the fast path retargeted to exactly the slow label, and other trace instructions sit there unchanged. No guard in the fast-path region targets anything but the slow label. |
| `SpliceProperties.SlowPathFidelity` | trace_inject.py:107-120 | With an entry label, the slow block has the body's length. It starts with the head label renamed to the slow label (other keys kept), and equals the body after index 0, interior labels included. Without one, it is the slow label followed by the whole body. An empty body takes the synthesised branch and yields exactly `[Label(slow)]`. |
| `SpliceProperties.SplicedBodyLength` | trace_inject.py:99-126 | The new body has trace + body + 5 instructions with an entry label, and + 6 without one. With an entry label, its first instruction is a label with the original entry's name. |
| `SpliceProperties.LabelsOfSplicedBody` | trace_inject.py:99-123 | The labels of the new body, in order, are: entry, the trace's labels, slow, the body's labels after its entry, join. |
| `SpliceProperties.LabelsDistinctWhenFresh` | trace_inject.py:87-123 | Suppose the trace has no labels, the body's labels are distinct, and the slow and join names (and a synthesised entry) are not among the body's labels. Then every label of the new body is distinct. |
| `SpliceProperties.CollisionNotDetected` | trace_inject.py:87-123 | A body that already holds `b_slow` yields a new body with that label twice: the code does not guarantee freshness. |
| `SpliceProperties.TraceLabelCollides` | trace_inject.py:91-105 | A trace label `c` that the body also holds appears twice in the new body, although `b_slow` and `b_after` are fresh: the trace's labels are copied without a check. |
| `SpliceProperties.TraceCheckedFirst` | trace_inject.py:40-49 | A trace missing "func" or "trace" is refused with the missing-field error, and an empty or non-list trace with the invalid-trace error. Both hold whatever the program. |
| `SpliceProperties.MissingOwnerRefused` | trace_inject.py:62-71 | For a well-formed trace, the result is the function-not-found error naming the owner exactly when no function has the owner's name. |
| `SpliceProperties.SpliceRewritesFirstOwnerOnly` | trace_inject.py:62-126 | For the first function named like the owner, a non-list "instrs" is refused. Otherwise the program keeps its length and order. Every other function is unchanged. The owner keeps its name and other fields, and its "instrs" (a missing key read as empty) becomes the spliced body. |
| `SpliceScenarios.ExplicitEntryScenario` | trace_inject.py:78-126 | `foo` opening with label `foo` (with a source position) becomes: a fast path at a new `foo` label without the position, the guard to `foo_slow`, the slow path under the head renamed `foo_slow` with its position, and the join `foo_after`. |
| `SpliceScenarios.SynthesisedEntryScenario` | trace_inject.py:78-126 | `bar` without a leading label gets entry `.bar_entry`, slow label `.bar_entry_slow` and join `.bar_entry_after`. |
| `SpliceScenarios.DuplicateNameScenario` | trace_inject.py:62-67 | With two functions named `f`, only the first is rewritten; its empty body becomes a slow path that is the slow label alone. |
| `SpliceScenarios.RefusalScenarios` | trace_inject.py:47-71 | An absent owner gives function-not-found, and an empty trace gives the invalid-trace error. |

## Left out

- Command-line handling, usage messages and exit codes (`trace_inject.py:8-15`) are process glue. Refusals are error results (`SpliceError`) instead of messages and `sys.exit(1)`.
- Reading the trace file, skipping output before the first `{` and parsing JSON (`trace_inject.py:17-37`, `51-56`) are I/O. The model starts from typed `Trace` and function values.
- The check for a "functions" key in the program (`trace_inject.py:58-60`) is not modelled: the program is a typed list of functions.
- Writing the program to standard output (`trace_inject.py:128-131`) is I/O.
- Copying with `deepcopy` (`trace_inject.py:93`, `112`, `120`) is not modelled, because Dafny datatype values cannot alias.
- An operation always has a "labels" list in the model. A missing "labels" key and an empty list are the same here, so the model's `speculate` and `commit` carry an empty list where the source emits no key.
- Trace and body entries that are not JSON objects are not modelled, nor are objects that carry both or neither of "label" and "op". So the `isinstance(instr, dict)` test on `trace_inject.py:94` always holds. The model also leaves out the substring test that `"label" in instrs[0]` would make on a non-object body head (`trace_inject.py:80`), and the unchanged copies of such entries into the slow path (`trace_inject.py:115`, `120`).
- Function names, and the trace's "func", are strings. A function object without a "name" cannot be expressed. In the source such a function matches only a "func" that is JSON null (`trace_inject.py:65` compares `None == None`), which then yields the entry `.None_entry`; the model cannot express a null "func" either.
- Error message texts are reduced to the error kinds.
- The runtime meaning of `guard`, `speculate` and `commit` is left out: the code only emits these markers.

