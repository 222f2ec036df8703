/** `output_test_cases`: every test case instance is serialized once and the
    document is written to one file per test template. The JSON text is not
    modelled, only the document it encodes. */
module TestCases {
  import opened Wrappers
  import opened UmlModel
  import opened Serializer
  import opened Generator

  /** A file written by `output_test_cases`: its absolute path and the document
      it holds. */
  datatype TestWrite = TestWrite(path: string, document: seq<Entry>)

  /** The files written so far, and the error that stopped the run, if any. */
  datatype TestOutput = TestOutput(writes: seq<TestWrite>, failure: Option<SerializeError>)

  /** The path of the file a test template writes for a case: its file-name
      template rendered with `ins=`, made absolute. */
  function TestPath(engine: Engine, dest: string, testCase: Instance): string
  {
    engine.absPath(engine.renderText(dest, InstanceCandidate(testCase)))
  }

  /** The writes of the first `n` test templates for one serialized case. */
  function CaseWrites(engine: Engine, dests: seq<string>, testCase: Instance, doc: seq<Entry>, n: nat): seq<TestWrite>
    requires n <= |dests|
  {
    if n == 0 then [] else CaseWrites(engine, dests, testCase, doc, n - 1) + [TestWrite(TestPath(engine, dests[n - 1], testCase), doc)]
  }

  /** The run over the first `n` cases: each case is serialized once and written
      by every test template; a case that fails to serialize stops the run, and
      the files already written stay. */
  function TestCasesOutput(engine: Engine, dests: seq<string>, cases: seq<Instance>, n: nat): TestOutput
    requires n <= |cases|
  {
    if n == 0 then TestOutput([], None)
    else
      var prev := TestCasesOutput(engine, dests, cases, n - 1);
      if prev.failure.Some? then prev
      else match Serialize(cases[n - 1])
        case Err(e) => TestOutput(prev.writes, Some(e))
        case Ok(doc) => TestOutput(prev.writes + CaseWrites(engine, dests, cases[n - 1], doc, |dests|), None)
  }

  /** The loop over the cases, and within a case over the test templates. */
  method OutputTestCases(engine: Engine, dests: seq<string>, cases: seq<Instance>)
    returns (writes: seq<TestWrite>, failure: Option<SerializeError>)
    ensures TestOutput(writes, failure) == TestCasesOutput(engine, dests, cases, |cases|)
  {
    writes := [];
    failure := None;
    for c := 0 to |cases|
      invariant TestOutput(writes, None) == TestCasesOutput(engine, dests, cases, c)
    {
      var serialised := SerializeInstance(cases[c]);
      if serialised.Err? {
        failure := Some(serialised.error);
        FailureSticks(engine, dests, cases, c + 1, |cases|);
        return;
      }
      writes := OutputCase(engine, dests, cases[c], serialised.value, writes);
    }
  }

  /** The loop over the test templates for one serialized case. */
  method OutputCase(engine: Engine, dests: seq<string>, testCase: Instance, doc: seq<Entry>, before: seq<TestWrite>)
    returns (writes: seq<TestWrite>)
    ensures writes == before + CaseWrites(engine, dests, testCase, doc, |dests|)
  {
    writes := before;
    for t := 0 to |dests|
      invariant writes == before + CaseWrites(engine, dests, testCase, doc, t)
    {
      writes := writes + [TestWrite(TestPath(engine, dests[t], testCase), doc)];
    }
  }

  /** Once a case has failed, later cases change nothing. */
  lemma {:induction false} FailureSticks(engine: Engine, dests: seq<string>, cases: seq<Instance>, m: nat, n: nat)
    requires m <= n <= |cases|
    requires TestCasesOutput(engine, dests, cases, m).failure.Some?
    ensures TestCasesOutput(engine, dests, cases, n) == TestCasesOutput(engine, dests, cases, m)
    decreases n - m
  {
    if m < n {
      FailureSticks(engine, dests, cases, m, n - 1);
    }
  }

  /** A run that has not failed has serialized every case so far. */
  lemma {:induction false} NoFailureAllSerialized(engine: Engine, dests: seq<string>, cases: seq<Instance>, n: nat)
    requires n <= |cases|
    requires TestCasesOutput(engine, dests, cases, n).failure.None?
    ensures forall i :: 0 <= i < n ==> Serialize(cases[i]).Ok?
  {
    if n > 0 {
      NoFailureAllSerialized(engine, dests, cases, n - 1);
    }
  }

  /** One case's block: one file per test template, in template order, each
      holding the case's document. */
  lemma {:induction false} CaseWritesLayout(engine: Engine, dests: seq<string>, testCase: Instance, doc: seq<Entry>, n: nat)
    requires n <= |dests|
    ensures |CaseWrites(engine, dests, testCase, doc, n)| == n
    ensures forall t :: 0 <= t < n ==> CaseWrites(engine, dests, testCase, doc, n)[t] == TestWrite(TestPath(engine, dests[t], testCase), doc)
  {
    if n > 0 {
      CaseWritesLayout(engine, dests, testCase, doc, n - 1);
    }
  }

  /** A run without failure writes |cases| × |templates| files. */
  lemma {:induction false} TestCasesCount(engine: Engine, dests: seq<string>, cases: seq<Instance>, n: nat)
    requires n <= |cases|
    requires TestCasesOutput(engine, dests, cases, n).failure.None?
    ensures |TestCasesOutput(engine, dests, cases, n).writes| == n * |dests|
  {
    if n > 0 {
      TestCasesCount(engine, dests, cases, n - 1);
      CaseWritesLayout(engine, dests, cases[n - 1], Serialize(cases[n - 1]).value, |dests|);
      assert (n - 1) * |dests| + |dests| == n * |dests|;
    }
  }

  /** Where the write for case `c` and template `t` sits. */
  function BlockIndex(c: nat, t: nat, width: nat): nat
  {
    c * width + t
  }

  lemma BlockIndexBound(c: nat, t: nat, width: nat, n: nat)
    requires c < n && t < width
    ensures BlockIndex(c, t, width) < n * width
  {
    assert c * width + width == (c + 1) * width;
    assert (c + 1) * width <= n * width;
  }

  /** In a run without failure the file for case `c` and template `t` comes
      after those of earlier cases and earlier templates of the same case, and
      holds case `c`'s one serialized document. */
  lemma {:induction false} TestCasesLayout(engine: Engine, dests: seq<string>, cases: seq<Instance>, n: nat, c: nat, t: nat)
    requires n <= |cases|
    requires TestCasesOutput(engine, dests, cases, n).failure.None?
    requires c < n && t < |dests|
    ensures Serialize(cases[c]).Ok?
    ensures BlockIndex(c, t, |dests|) < |TestCasesOutput(engine, dests, cases, n).writes|
    ensures TestCasesOutput(engine, dests, cases, n).writes[BlockIndex(c, t, |dests|)] ==
              TestWrite(TestPath(engine, dests[t], cases[c]), Serialize(cases[c]).value)
  {
    TestCasesCount(engine, dests, cases, n);
    BlockIndexBound(c, t, |dests|, n);
    var prev := TestCasesOutput(engine, dests, cases, n - 1);
    var doc := Serialize(cases[n - 1]).value;
    var block := CaseWrites(engine, dests, cases[n - 1], doc, |dests|);
    assert TestCasesOutput(engine, dests, cases, n).writes == prev.writes + block;
    TestCasesCount(engine, dests, cases, n - 1);
    if c < n - 1 {
      TestCasesLayout(engine, dests, cases, n - 1, c, t);
    } else {
      CaseWritesLayout(engine, dests, cases[n - 1], doc, |dests|);
      assert BlockIndex(c, t, |dests|) == |prev.writes| + t;
    }
  }

  /** A run that fails stops at the first case that cannot be serialized, with
      exactly the files of the cases before it written. */
  lemma {:induction false} FirstFailure(engine: Engine, dests: seq<string>, cases: seq<Instance>, n: nat) returns (c: nat)
    requires n <= |cases|
    requires TestCasesOutput(engine, dests, cases, n).failure.Some?
    ensures c < n
    ensures Serialize(cases[c]) == Err(TestCasesOutput(engine, dests, cases, n).failure.value)
    ensures forall i :: 0 <= i < c ==> Serialize(cases[i]).Ok?
    ensures TestCasesOutput(engine, dests, cases, c).failure.None?
    ensures TestCasesOutput(engine, dests, cases, n).writes == TestCasesOutput(engine, dests, cases, c).writes
  {
    var prev := TestCasesOutput(engine, dests, cases, n - 1);
    if prev.failure.Some? {
      c := FirstFailure(engine, dests, cases, n - 1);
    } else {
      c := n - 1;
      NoFailureAllSerialized(engine, dests, cases, n - 1);
    }
  }
}
