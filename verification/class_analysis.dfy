/**
 * `analyzeFiles` and `analyzeClassFile`: every class file is handed, in
 * collection order, to one JaCoCo `Analyzer` that fills one `CoverageBuilder`.
 * The analysis itself is not part of this model; it appears as an oracle over
 * the execution-data store, the builder so far, the class bytes and the path.
 * An IOException for one file (opening it or analysing it) is logged as a
 * warning and the loop goes on with the next file.
 */
module ClassAnalysis {
  import opened ReportReader

  /** A class file: the path given to the analyser, the absolute path logged on failure, and its content. */
  datatype ClassFile = ClassFile(path: string, absolutePath: string, content: Content)

  /** What became of one class file: analysed, or a warning naming its absolute path. */
  datatype FileOutcome = Analyzed(path: string) | Warned(absolutePath: string)

  /**
   * What `Analyzer.analyzeClass` did: the coverage builder afterwards, and
   * whether it ended in an IOException. Nothing is assumed about the builder
   * after a failure.
   */
  datatype LibraryAnalysis<B> = LibraryAnalysis(builder: B, ioFailure: bool)

  /** The coverage builder and the outcome of each file, in order. */
  datatype Batch<B> = Batch(builder: B, outcomes: seq<FileOutcome>)

  /** The one outcome `analyzeClassFile` may report for `file`. */
  predicate Describes(outcome: FileOutcome, file: ClassFile) {
    outcome == Analyzed(file.path) || outcome == Warned(file.absolutePath)
  }

  /** `analyzeClassFile`: one attempt at one file, from the builder `builder`. */
  function AnalyzeClassFile<S, B>(analyzeClass: (S, B, seq<bv8>, string) -> LibraryAnalysis<B>,
                                  store: S, builder: B, file: ClassFile): (r: (B, FileOutcome))
    ensures Describes(r.1, file)
    ensures r.1.Analyzed? <==>
              file.content.Bytes? && !analyzeClass(store, builder, file.content.data, file.path).ioFailure
    ensures file.content.CannotOpen? ==> r.0 == builder
    ensures file.content.Bytes? ==> r.0 == analyzeClass(store, builder, file.content.data, file.path).builder
  {
    match file.content
    case CannotOpen => (builder, Warned(file.absolutePath))
    case Bytes(data) =>
      var done := analyzeClass(store, builder, data, file.path);
      (done.builder, if done.ioFailure then Warned(file.absolutePath) else Analyzed(file.path))
  }

  /** The loop of `analyzeFiles`, from the builder `builder`: every file is attempted, in order. */
  function AnalyzeFrom<S, B>(analyzeClass: (S, B, seq<bv8>, string) -> LibraryAnalysis<B>,
                             store: S, builder: B, files: seq<ClassFile>): (r: Batch<B>)
    ensures |r.outcomes| == |files|
    ensures forall i {:trigger r.outcomes[i]} :: 0 <= i < |files| ==> Describes(r.outcomes[i], files[i])
    decreases |files|
  {
    if |files| == 0 then Batch(builder, [])
    else
      var (next, outcome) := AnalyzeClassFile(analyzeClass, store, builder, files[0]);
      var rest := AnalyzeFrom(analyzeClass, store, next, files[1..]);
      Batch(rest.builder, [outcome] + rest.outcomes)
  }

  /** `analyzeFiles`: the loop above, from a fresh coverage builder. */
  function AnalyzeFiles<S, B>(analyzeClass: (S, B, seq<bv8>, string) -> LibraryAnalysis<B>,
                              store: S, emptyBuilder: B, files: seq<ClassFile>): (r: Batch<B>)
    ensures |r.outcomes| == |files|
    ensures forall i {:trigger r.outcomes[i]} :: 0 <= i < |files| ==> Describes(r.outcomes[i], files[i])
  {
    AnalyzeFrom(analyzeClass, store, emptyBuilder, files)
  }

  /** Analysing `xs + ys` is analysing `xs`, then `ys` from the builder `xs` left. */
  lemma {:induction false} AnalyzeFromAppend<S, B>(analyzeClass: (S, B, seq<bv8>, string) -> LibraryAnalysis<B>,
                                                   store: S, builder: B, xs: seq<ClassFile>, ys: seq<ClassFile>)
    ensures var first := AnalyzeFrom(analyzeClass, store, builder, xs);
            var second := AnalyzeFrom(analyzeClass, store, first.builder, ys);
            AnalyzeFrom(analyzeClass, store, builder, xs + ys) == Batch(second.builder, first.outcomes + second.outcomes)
    decreases |xs|
  {
    if |xs| == 0 {
      assert xs + ys == ys;
    } else {
      var step := AnalyzeClassFile(analyzeClass, store, builder, xs[0]);
      AnalyzeFromAppend(analyzeClass, store, step.0, xs[1..], ys);
      var tail := AnalyzeFrom(analyzeClass, store, step.0, xs[1..]);
      var second := AnalyzeFrom(analyzeClass, store, tail.builder, ys);
      AnalyzeFromUnfold(analyzeClass, store, builder, xs);
      AnalyzeFromUnfold(analyzeClass, store, builder, xs + ys);
      assert (xs + ys)[0] == xs[0];
      assert (xs + ys)[1..] == xs[1..] + ys;
      assert [step.1] + (tail.outcomes + second.outcomes) == ([step.1] + tail.outcomes) + second.outcomes;
    }
  }

  /** One step of the loop: the first file, then the rest from the builder it left. */
  lemma AnalyzeFromUnfold<S, B>(analyzeClass: (S, B, seq<bv8>, string) -> LibraryAnalysis<B>,
                                store: S, builder: B, files: seq<ClassFile>)
    requires |files| > 0
    ensures var step := AnalyzeClassFile(analyzeClass, store, builder, files[0]);
            var rest := AnalyzeFrom(analyzeClass, store, step.0, files[1..]);
            AnalyzeFrom(analyzeClass, store, builder, files) == Batch(rest.builder, [step.1] + rest.outcomes)
  {
  }

  /**
   * Every file is attempted exactly once and in order: the outcome of file `i`
   * is that of analysing it from the builder the files before it left,
   * whatever became of them.
   */
  lemma EachFileAttemptedInOrder<S, B>(analyzeClass: (S, B, seq<bv8>, string) -> LibraryAnalysis<B>,
                                       store: S, builder: B, files: seq<ClassFile>, i: nat)
    requires i < |files|
    ensures var before := AnalyzeFrom(analyzeClass, store, builder, files[..i]).builder;
            AnalyzeFrom(analyzeClass, store, builder, files).outcomes[i] ==
              AnalyzeClassFile(analyzeClass, store, before, files[i]).1
  {
    var before := AnalyzeFrom(analyzeClass, store, builder, files[..i]);
    assert files == files[..i] + files[i..];
    AnalyzeFromAppend(analyzeClass, store, builder, files[..i], files[i..]);
  }

  /**
   * A file that cannot be opened costs one warning and nothing else: every
   * other file has the outcome it would have without it, and the builder ends
   * the same.
   */
  lemma UnopenableFileIsIsolated<S, B>(analyzeClass: (S, B, seq<bv8>, string) -> LibraryAnalysis<B>,
                                       store: S, builder: B, xs: seq<ClassFile>, bad: ClassFile, ys: seq<ClassFile>)
    requires bad.content.CannotOpen?
    ensures var with := AnalyzeFrom(analyzeClass, store, builder, xs + [bad] + ys);
            var without := AnalyzeFrom(analyzeClass, store, builder, xs + ys);
            && with.builder == without.builder
            && with.outcomes == without.outcomes[..|xs|] + [Warned(bad.absolutePath)] + without.outcomes[|xs|..]
  {
    var first := AnalyzeFrom(analyzeClass, store, builder, xs);
    AnalyzeFromAppend(analyzeClass, store, builder, xs, [bad] + ys);
    AnalyzeFromAppend(analyzeClass, store, builder, xs, ys);
    assert xs + [bad] + ys == xs + ([bad] + ys);
    assert ([bad] + ys)[1..] == ys;
  }

  /** The number of files analysed. */
  function CountAnalyzed(outcomes: seq<FileOutcome>): nat {
    if |outcomes| == 0 then 0 else (if outcomes[0].Analyzed? then 1 else 0) + CountAnalyzed(outcomes[1..])
  }

  /** The number of warnings logged. */
  function CountWarned(outcomes: seq<FileOutcome>): nat {
    if |outcomes| == 0 then 0 else (if outcomes[0].Warned? then 1 else 0) + CountWarned(outcomes[1..])
  }

  lemma {:induction false} CountsPartition(outcomes: seq<FileOutcome>)
    ensures CountAnalyzed(outcomes) + CountWarned(outcomes) == |outcomes|
  {
    if |outcomes| > 0 {
      CountsPartition(outcomes[1..]);
    }
  }

  /** Analysed files and warnings together account for every class file. */
  lemma AnalyzedPlusWarned<S, B>(analyzeClass: (S, B, seq<bv8>, string) -> LibraryAnalysis<B>,
                                 store: S, emptyBuilder: B, files: seq<ClassFile>)
    ensures var r := AnalyzeFiles(analyzeClass, store, emptyBuilder, files);
            CountAnalyzed(r.outcomes) + CountWarned(r.outcomes) == |files|
  {
    CountsPartition(AnalyzeFiles(analyzeClass, store, emptyBuilder, files).outcomes);
  }

  /**
   * Every file of the batch opens, and the analyser raises no IOException on
   * any of the calls the loop actually makes: each file's bytes, from the
   * builder the files before it left.
   */
  predicate NoFailureInBatch<S, B>(analyzeClass: (S, B, seq<bv8>, string) -> LibraryAnalysis<B>,
                                   store: S, builder: B, files: seq<ClassFile>)
    decreases |files|
  {
    |files| == 0 ||
    (&& files[0].content.Bytes?
     && !analyzeClass(store, builder, files[0].content.data, files[0].path).ioFailure
     && NoFailureInBatch(analyzeClass, store,
                         analyzeClass(store, builder, files[0].content.data, files[0].path).builder, files[1..]))
  }

  /** When no file of the batch fails, there are no warnings: every file is analysed. */
  lemma {:induction false} NoFailureNoWarning<S, B>(analyzeClass: (S, B, seq<bv8>, string) -> LibraryAnalysis<B>,
                                                    store: S, builder: B, files: seq<ClassFile>)
    requires NoFailureInBatch(analyzeClass, store, builder, files)
    ensures var r := AnalyzeFrom(analyzeClass, store, builder, files);
            CountWarned(r.outcomes) == 0 && CountAnalyzed(r.outcomes) == |files|
    decreases |files|
  {
    if |files| > 0 {
      var step := AnalyzeClassFile(analyzeClass, store, builder, files[0]);
      NoFailureNoWarning(analyzeClass, store, step.0, files[1..]);
      AnalyzeFromUnfold(analyzeClass, store, builder, files);
      var rest := AnalyzeFrom(analyzeClass, store, step.0, files[1..]);
      assert ([step.1] + rest.outcomes)[1..] == rest.outcomes;
    }
  }

  /**
   * When no file can be opened, every file gives a warning, nothing is
   * analysed, and the builder is never touched.
   */
  lemma {:induction false} NothingOpensAllWarned<S, B>(analyzeClass: (S, B, seq<bv8>, string) -> LibraryAnalysis<B>,
                                                       store: S, builder: B, files: seq<ClassFile>)
    requires forall i :: 0 <= i < |files| ==> files[i].content.CannotOpen?
    ensures var r := AnalyzeFrom(analyzeClass, store, builder, files);
            && CountWarned(r.outcomes) == |files|
            && CountAnalyzed(r.outcomes) == 0
            && r.builder == builder
    decreases |files|
  {
    if |files| > 0 {
      var step := AnalyzeClassFile(analyzeClass, store, builder, files[0]);
      NothingOpensAllWarned(analyzeClass, store, step.0, files[1..]);
      AnalyzeFromUnfold(analyzeClass, store, builder, files);
      var rest := AnalyzeFrom(analyzeClass, store, step.0, files[1..]);
      assert ([step.1] + rest.outcomes)[1..] == rest.outcomes;
    }
  }

  /** `analyzeFiles` as the Java loop writes it: one pass over the files, one attempt each. */
  method AnalyzeFilesLoop<S, B>(analyzeClass: (S, B, seq<bv8>, string) -> LibraryAnalysis<B>,
                                store: S, emptyBuilder: B, files: seq<ClassFile>)
    returns (builder: B, outcomes: seq<FileOutcome>)
    ensures Batch(builder, outcomes) == AnalyzeFiles(analyzeClass, store, emptyBuilder, files)
    ensures |outcomes| == |files|
  {
    builder := emptyBuilder;
    outcomes := [];
    for i := 0 to |files|
      invariant Batch(builder, outcomes) == AnalyzeFrom(analyzeClass, store, emptyBuilder, files[..i])
    {
      AnalyzeFromAppend(analyzeClass, store, emptyBuilder, files[..i], [files[i]]);
      assert files[..i + 1] == files[..i] + [files[i]];
      var (next, outcome) := AnalyzeClassFile(analyzeClass, store, builder, files[i]);
      builder, outcomes := next, outcomes + [outcome];
    }
    assert files[..|files|] == files;
  }
}
