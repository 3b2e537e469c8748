/** What trace injection guarantees, proved about the functions of module
    SpliceSpec (and so, through the methods' postconditions, about what
    module TraceInject computes).
 */
module SpliceProperties {
  import opened Bril
  import opened SpliceSpec

  /** The names of the label instructions of `s`, in order. */
  function Labels(s: seq<Instr>): (r: seq<string>) {
    if s == [] then [] else (if s[0].Label? then [s[0].name] else []) + Labels(s[1..])
  }

  predicate Distinct(xs: seq<string>) {
    forall i, j :: 0 <= i < j < |xs| ==> xs[i] != xs[j]
  }

  /** The entry is the leading label's name exactly when the body opens with
      a label, and ".<func>_entry" otherwise; the slow and join labels extend
      it with "_slow" and "_after", so the three names are pairwise distinct. */
  lemma EntryLabels(func: string, body: seq<Instr>)
    ensures var e := ResolveEntry(func, body);
      && (e.explicit <==> |body| > 0 && body[0].Label?)
      && (e.explicit ==> e.name == body[0].name)
      && (!e.explicit ==> e.name == "." + func + "_entry")
      && e.Slow() == e.name + "_slow" && e.After() == e.name + "_after"
      && e.name != e.Slow() && e.name != e.After() && e.Slow() != e.After()
  {
  }

  /** The rewritten body, region by region: the entry label, the speculation
      marker, the patched trace, the commit marker, the jump to the join
      label, the slow path, and the join label last. */
  lemma SplicedBodyLayout(func: string, body: seq<Instr>, trace: seq<Instr>)
    ensures var e := ResolveEntry(func, body);
      var r := SplicedBody(func, body, trace);
      var slow := SlowBlock(body, e.explicit, e.Slow());
      var t := |trace|;
      && |r| == t + |slow| + 5
      && r[0] == NewLabel(e.name)
      && r[1] == Speculate()
      && (forall k :: 0 <= k < t ==> r[2 + k] == PatchGuard(trace[k], e.Slow()))
      && r[t + 2] == Commit()
      && r[t + 3] == Jmp(e.After())
      && (forall k :: 0 <= k < |slow| ==> r[t + 4 + k] == slow[k])
      && r[|r| - 1] == NewLabel(e.After())
  {
    var e := ResolveEntry(func, body);
    var p := PatchedTrace(trace, e.Slow());
    PatchedTraceAt(trace, e.Slow());
    var slow := SlowBlock(body, e.explicit, e.Slow());
    var r := SplicedBody(func, body, trace);
    assert r == [NewLabel(e.name), Speculate()] + p + [Commit(), Jmp(e.After())] + slow + [NewLabel(e.After())];
    forall k | 0 <= k < |trace|
      ensures r[2 + k] == PatchGuard(trace[k], e.Slow())
    {
      assert r[2 + k] == p[k];
    }
  }

  /** Every guard of the trace reaches the fast path rebound to the slow
      label and nothing else, every other trace instruction unchanged; so no
      guard in the fast path bails out anywhere but the slow path. */
  lemma GuardsBailToSlowPath(func: string, body: seq<Instr>, trace: seq<Instr>)
    ensures var e := ResolveEntry(func, body);
      var r := SplicedBody(func, body, trace);
      && |r| > |trace| + 2
      && (forall k :: 0 <= k < |trace| && IsGuard(trace[k]) ==> r[2 + k] == trace[k].(labels := [e.Slow()]))
      && (forall k :: 0 <= k < |trace| && !IsGuard(trace[k]) ==> r[2 + k] == trace[k])
      && (forall k :: 2 <= k < |trace| + 2 && IsGuard(r[k]) ==> r[k].labels == [e.Slow()])
  {
    var e := ResolveEntry(func, body);
    var r := SplicedBody(func, body, trace);
    SplicedBodyLayout(func, body, trace);
    forall k | 2 <= k < |trace| + 2 && IsGuard(r[k])
      ensures r[k].labels == [e.Slow()]
    {
      assert r[k] == PatchGuard(trace[k - 2], e.Slow());
    }
  }

  /** The slow path is the original body with at most its leading label
      renamed; an empty body gets a synthesised entry and a slow path that
      is the slow label alone. */
  lemma SlowPathFidelity(func: string, body: seq<Instr>)
    ensures var e := ResolveEntry(func, body);
      var slow := SlowBlock(body, e.explicit, e.Slow());
      && (e.explicit ==> |slow| == |body| && slow[0] == body[0].(name := e.Slow()) && slow[1..] == body[1..])
      && (!e.explicit ==> slow == [NewLabel(e.Slow())] + body)
      && (body == [] ==> !e.explicit && slow == [NewLabel(e.Slow())])
  {
  }

  /** The new body is as long as the trace and the slow path together plus
      the five instructions the assembly adds, and starts with the original
      entry label when there was one. */
  lemma SplicedBodyLength(func: string, body: seq<Instr>, trace: seq<Instr>)
    ensures var e := ResolveEntry(func, body);
      var r := SplicedBody(func, body, trace);
      && |r| == |trace| + |body| + (if e.explicit then 5 else 6)
      && (e.explicit ==> r[0].Label? && r[0].name == body[0].name)
  {
    SplicedBodyLayout(func, body, trace);
  }

  lemma {:induction false} LabelsAppend(a: seq<Instr>, b: seq<Instr>)
    ensures Labels(a + b) == Labels(a) + Labels(b)
  {
    if a == [] {
      assert a + b == b;
    } else {
      var head := if a[0].Label? then [a[0].name] else [];
      assert (a + b)[0] == a[0] && (a + b)[1..] == a[1..] + b;
      assert Labels(a + b) == head + Labels(a[1..] + b);
      LabelsAppend(a[1..], b);
      assert Labels(a) == head + Labels(a[1..]);
    }
  }

  lemma {:induction false} LabelsPatched(trace: seq<Instr>, slow: string)
    ensures Labels(PatchedTrace(trace, slow)) == Labels(trace)
  {
    if trace != [] {
      LabelsPatched(trace[1..], slow);
    }
  }

  lemma LabelsOfFastPath(e: Entry, p: seq<Instr>)
    ensures Labels(FastPath(e, p)) == [e.name] + Labels(p)
  {
    var head := [NewLabel(e.name), Speculate()];
    var tail := [Commit(), Jmp(e.After())];
    assert Labels([Speculate()]) == [];
    assert Labels(head) == [e.name] + Labels([Speculate()]);
    assert Labels([Jmp(e.After())]) == [];
    assert Labels(tail) == Labels([Jmp(e.After())]);
    LabelsAppend(head, p);
    LabelsAppend(head + p, tail);
  }

  /** The labels of the new body, in order: the entry, the labels of the
      trace, the slow label, the body's labels after its entry, the join. */
  lemma LabelsOfSplicedBody(func: string, body: seq<Instr>, trace: seq<Instr>)
    ensures var e := ResolveEntry(func, body);
      var rest := if e.explicit then Labels(body[1..]) else Labels(body);
      Labels(SplicedBody(func, body, trace)) == [e.name] + Labels(trace) + [e.Slow()] + rest + [e.After()]
  {
    var e := ResolveEntry(func, body);
    var p := PatchedTrace(trace, e.Slow());
    var tail := if e.explicit then body[1..] else body;
    var slow := SlowBlock(body, e.explicit, e.Slow());
    assert slow == [if e.explicit then body[0].(name := e.Slow()) else NewLabel(e.Slow())] + tail;
    LabelsPatched(trace, e.Slow());
    LabelsOfFastPath(e, p);
    LabelsAppend([slow[0]], tail);
    var fast := FastPath(e, p);
    LabelsAppend(fast, slow);
    LabelsAppend(fast + slow, [NewLabel(e.After())]);
  }

  /** The labels after a leading label are distinct, do not repeat it, and
      are labels of the whole body. */
  lemma LabelsAfterHead(body: seq<Instr>)
    requires |body| > 0 && body[0].Label?
    requires Distinct(Labels(body))
    ensures Distinct(Labels(body[1..]))
    ensures body[0].name !in Labels(body[1..])
    ensures forall x :: x in Labels(body[1..]) ==> x in Labels(body)
  {
    var all := Labels(body);
    var rest := Labels(body[1..]);
    assert all == [body[0].name] + rest;
    forall j | 0 <= j < |rest| ensures rest[j] != body[0].name {
      assert rest[j] == all[j + 1];
      assert all[0] != all[j + 1];
    }
    forall i, j | 0 <= i < j < |rest| ensures rest[i] != rest[j] {
      assert rest[i] == all[i + 1] && rest[j] == all[j + 1];
    }
  }

  /** The assembly adds labels without checking them against the body. When
      the trace carries no labels, the body's labels are distinct and the
      new names do not occur among them, the new body's labels are distinct. */
  lemma LabelsDistinctWhenFresh(func: string, body: seq<Instr>, trace: seq<Instr>)
    requires Labels(trace) == []
    requires Distinct(Labels(body))
    requires var e := ResolveEntry(func, body);
      && e.Slow() !in Labels(body) && e.After() !in Labels(body)
      && (!e.explicit ==> e.name !in Labels(body))
    ensures Distinct(Labels(SplicedBody(func, body, trace)))
  {
    var e := ResolveEntry(func, body);
    EntryLabels(func, body);
    LabelsOfSplicedBody(func, body, trace);
    var rest := if e.explicit then Labels(body[1..]) else Labels(body);
    if e.explicit {
      LabelsAfterHead(body);
    }
    DistinctFrame(e.name, e.Slow(), rest, e.After());
    assert [e.name] + Labels(trace) + [e.Slow()] + rest + [e.After()] == [e.name] + [e.Slow()] + rest + [e.After()];
  }

  lemma DistinctFrame(a: string, b: string, rest: seq<string>, c: string)
    requires a != b && a != c && b != c
    requires a !in rest && b !in rest && c !in rest
    requires Distinct(rest)
    ensures Distinct([a] + [b] + rest + [c])
  {
  }

  /** The freshness hypothesis above is needed: a body whose labels already
      include the derived slow label ends up with that label twice. */
  lemma CollisionNotDetected()
    ensures !Distinct(Labels(SplicedBody("f", [NewLabel("b"), NewLabel("b_slow")], [Op("id", [], [])])))
  {
    var body := [NewLabel("b"), NewLabel("b_slow")];
    var trace := [Op("id", [], [])];
    LabelsOfSplicedBody("f", body, trace);
    var ls := Labels(SplicedBody("f", body, trace));
    assert Labels(trace) == [];
    assert Labels(body[1..]) == ["b_slow"];
    assert ls[1] == ls[2] == "b_slow";
  }

  /** The hypothesis on the trace is needed too: a trace label that is
      also a body label ends up twice, although the derived names are fresh. */
  lemma TraceLabelCollides()
    ensures !Distinct(Labels(SplicedBody("f", [NewLabel("b"), NewLabel("c")], [NewLabel("c")])))
  {
    var body := [NewLabel("b"), NewLabel("c")];
    var trace := [NewLabel("c")];
    LabelsOfSplicedBody("f", body, trace);
    var ls := Labels(SplicedBody("f", body, trace));
    assert Labels(trace) == ["c"];
    assert Labels(body[1..]) == ["c"];
    assert ls[1] == ls[3] == "c";
  }

  /** A trace without its "func" or "trace" field, with a "trace" that is
      not a list, or with an empty one, is refused whatever the program. */
  lemma TraceCheckedFirst(funcs: seq<Function>, trace: Trace)
    ensures trace.func.None? || trace.instrs.Absent? ==> Splice(funcs, trace) == Err(MissingTraceField)
    ensures trace.func.Some? && (trace.instrs.NotAList? || trace.instrs == List([])) ==>
      Splice(funcs, trace) == Err(EmptyOrInvalidTrace)
  {
  }

  /** A well-formed trace whose owner is not in the program is refused,
      naming the owner. */
  lemma MissingOwnerRefused(funcs: seq<Function>, trace: Trace)
    requires trace.func.Some? && trace.instrs.List? && trace.instrs.items != []
    ensures (forall j :: 0 <= j < |funcs| ==> funcs[j].name != trace.func.value) <==>
      Splice(funcs, trace) == Err(FunctionNotFound(trace.func.value))
  {
  }

  /** When the program holds a function named like the trace's owner, the
      first such function decides: if its "instrs" is not a list the whole
      transformation is refused, otherwise its body, and nothing else of the
      program, is replaced. Functions keep their order and their other fields. */
  lemma SpliceRewritesFirstOwnerOnly(funcs: seq<Function>, trace: Trace, k: nat)
    requires trace.func.Some? && trace.instrs.List? && trace.instrs.items != []
    requires k < |funcs| && funcs[k].name == trace.func.value
    requires forall j :: 0 <= j < k ==> funcs[j].name != trace.func.value
    ensures funcs[k].instrs.NotAList? <==> Splice(funcs, trace) == Err(InstrsNotAList)
    ensures !funcs[k].instrs.NotAList? ==> Splice(funcs, trace).Ok?
    ensures !funcs[k].instrs.NotAList? ==>
      var fs := Splice(funcs, trace).value;
      var body := if funcs[k].instrs.Absent? then [] else funcs[k].instrs.items;
      && |fs| == |funcs|
      && (forall j :: 0 <= j < |funcs| && j != k ==> fs[j] == funcs[j])
      && fs[k].name == funcs[k].name && fs[k].rest == funcs[k].rest
      && fs[k].instrs == List(SplicedBody(trace.func.value, body, trace.instrs.items))
  {
  }
}
