/** Worked examples of trace injection on small programs. */
module SpliceScenarios {
  import opened Bril
  import opened SpliceSpec

  /** A guard as the tracer records it, with a placeholder target. */
  function RecordedGuard(): Instr { Op("guard", ["placeholder"], [("args", "[\"cond\"]")]) }

  function OpX(): Instr { Op("id", [], [("dest", "\"x\""), ("args", "[\"a\"]")]) }

  function OpY(): Instr { Op("id", [], [("dest", "\"y\""), ("args", "[\"b\"]")]) }

  /** The entry label object of `foo`, carrying a source position. */
  function HeadFoo(): Instr { Label("foo", [("pos", "{\"row\": 1, \"col\": 1}")]) }

  /** A body opening with its own entry label "foo": the fast path takes over
      that label (as a new object, without the position), the slow path is
      the body with its head renamed "foo_slow" (position kept), and the guard
      bails out to "foo_slow". */
  lemma ExplicitEntryScenario()
    ensures Splice([Function("foo", List([HeadFoo(), OpX(), Jmp("foo")]), [])],
                   Trace(Some("foo"), List([OpY(), RecordedGuard()])))
         == Ok([Function("foo", List([NewLabel("foo"), Speculate(), OpY(),
                                      Op("guard", ["foo_slow"], [("args", "[\"cond\"]")]),
                                      Commit(), Jmp("foo_after"),
                                      HeadFoo().(name := "foo_slow"), OpX(), Jmp("foo"),
                                      NewLabel("foo_after")]), [])])
  {
    var body := [HeadFoo(), OpX(), Jmp("foo")];
    var e := ResolveEntry("foo", body);
    assert e.Slow() == "foo_slow" && e.After() == "foo_after";
    assert PatchedTrace([OpY(), RecordedGuard()], "foo_slow")
        == [OpY(), Op("guard", ["foo_slow"], [("args", "[\"cond\"]")])];
    assert SlowBlock(body, true, "foo_slow") == [HeadFoo().(name := "foo_slow"), OpX(), Jmp("foo")];
    assert SplicedBody("foo", body, [OpY(), RecordedGuard()])
        == [NewLabel("foo"), Speculate(), OpY(), Op("guard", ["foo_slow"], [("args", "[\"cond\"]")]),
            Commit(), Jmp("foo_after"), HeadFoo().(name := "foo_slow"), OpX(), Jmp("foo"), NewLabel("foo_after")];
    var fs := [Function("foo", List(body), [])];
    assert FindIndex(fs, "foo") == Some(0);
    var nb := SplicedBody("foo", body, [OpY(), RecordedGuard()]);
    assert fs[0 := fs[0].(instrs := List(nb))] == [Function("foo", List(nb), [])];
  }

  /** A body without a leading label: the entry ".bar_entry" is synthesised
      and the slow path is the whole body behind ".bar_entry_slow". */
  lemma SynthesisedEntryScenario()
    ensures Splice([Function("bar", List([OpX()]), [])],
                   Trace(Some("bar"), List([OpY(), RecordedGuard()])))
         == Ok([Function("bar", List([NewLabel(".bar_entry"), Speculate(), OpY(),
                                      Op("guard", [".bar_entry_slow"], [("args", "[\"cond\"]")]),
                                      Commit(), Jmp(".bar_entry_after"),
                                      NewLabel(".bar_entry_slow"), OpX(),
                                      NewLabel(".bar_entry_after")]), [])])
  {
    var e := ResolveEntry("bar", [OpX()]);
    assert e.name == ".bar_entry";
    assert e.Slow() == ".bar_entry_slow" && e.After() == ".bar_entry_after";
    assert PatchedTrace([OpY(), RecordedGuard()], ".bar_entry_slow")
        == [OpY(), Op("guard", [".bar_entry_slow"], [("args", "[\"cond\"]")])];
    assert SlowBlock([OpX()], false, ".bar_entry_slow") == [NewLabel(".bar_entry_slow"), OpX()];
    assert SplicedBody("bar", [OpX()], [OpY(), RecordedGuard()])
        == [NewLabel(".bar_entry"), Speculate(), OpY(), Op("guard", [".bar_entry_slow"], [("args", "[\"cond\"]")]),
            Commit(), Jmp(".bar_entry_after"), NewLabel(".bar_entry_slow"), OpX(), NewLabel(".bar_entry_after")];
    var fs := [Function("bar", List([OpX()]), [])];
    assert FindIndex(fs, "bar") == Some(0);
    var nb := SplicedBody("bar", [OpX()], [OpY(), RecordedGuard()]);
    assert fs[0 := fs[0].(instrs := List(nb))] == [Function("bar", List(nb), [])];
  }

  /** Two functions share the owner's name: only the first is rewritten. */
  lemma DuplicateNameScenario()
    ensures var first := Function("f", List([]), []);
      var second := Function("f", List([OpX()]), []);
      var r := Splice([first, second], Trace(Some("f"), List([OpY()])));
      && r.Ok? && |r.value| == 2 && r.value[1] == second
      && r.value[0].instrs == List([NewLabel(".f_entry"), Speculate(), OpY(), Commit(),
                                    Jmp(".f_entry_after"), NewLabel(".f_entry_slow"),
                                    NewLabel(".f_entry_after")])
  {
    var e := ResolveEntry("f", []);
    assert e.name == ".f_entry" && !e.explicit;
    assert e.Slow() == ".f_entry_slow" && e.After() == ".f_entry_after";
    assert PatchedTrace([OpY()], ".f_entry_slow") == [OpY()];
    assert SlowBlock([], false, ".f_entry_slow") == [NewLabel(".f_entry_slow")];
    assert SplicedBody("f", [], [OpY()])
        == [NewLabel(".f_entry"), Speculate(), OpY(), Commit(), Jmp(".f_entry_after"),
            NewLabel(".f_entry_slow"), NewLabel(".f_entry_after")];
    assert FindIndex([Function("f", List([]), []), Function("f", List([OpX()]), [])], "f") == Some(0);
  }

  /** An owner missing from the program, and an empty trace, are refused. */
  lemma RefusalScenarios()
    ensures Splice([Function("foo", Absent, [])], Trace(Some("baz"), List([OpY()])))
         == Err(FunctionNotFound("baz"))
    ensures Splice([Function("foo", Absent, [])], Trace(Some("foo"), List([])))
         == Err(EmptyOrInvalidTrace)
  {
  }
}
