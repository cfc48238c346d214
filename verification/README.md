# JaCoCo report reader of the Sonar Groovy plugin, in Dafny

This project models `JaCoCoReportReader` from the Sonar Groovy plugin. The
class is the plugin's entry point to JaCoCo coverage data. It does three things:

- **Format check.** Constructing a reader over an execution-data (`.exec`)
  file first checks that the file starts with JaCoCo's header block: the header
  block tag, then the magic number, then the supported format version. The tag
  is one byte. The magic number and the version are each two bytes, read
  big-endian by `DataInputStream.readChar`. The check has three verdicts:
  - A wrong tag, a wrong magic number, an early end of the file, or a file that
    cannot be opened is wrapped as "Unable to read <path> to determine JaCoCo
    binary format."
  - A wrong version alone escapes the check unwrapped, with the
    incompatible-version message and no path.
  - A missing file (`null`) is not checked.
- **Reading.** `readJacocoReport` hands the file to JaCoCo's
  `ExecutionDataReader`, which feeds the session-info and execution-data
  visitors. Any I/O failure becomes the single error "Unable to read <path>".
  Without a file, the call returns the same reader and does nothing.
- **Batch analysis.** `analyzeFiles` gives every class file, in collection
  order, to one JaCoCo `Analyzer` filling one `CoverageBuilder`. An
  IOException for one file is logged as a warning, and the loop goes on.

JaCoCo itself is not part of this model: its decoder and its bytecode analyser
appear as oracle functions that the caller passes in. Each oracle returns the
new visitor or builder state and whether the call ended in an IOException.

Files:
- `wrappers.dfy`: module `Wrappers` with `Option` (for `@Nullable`) and `Result` (for a thrown exception).
- `data_input.dfy`: module `DataInput` with the `readByte`/`readChar` reads over `seq<bv8>` and the big-endian char encoding.
- `exec_format.dfy`: module `ExecFormat` with the header block, the format check `Validate` and its properties.
- `report_reader.dfy`: module `ReportReader` with the reader, its constructor and `readJacocoReport`.
- `class_analysis.dfy`: module `ClassAnalysis` with `analyzeClassFile`, the `analyzeFiles` loop and its properties.

The three header constants live in JaCoCo's `ExecutionDataWriter`, which is
not part of this model. `Validate` takes them as a `Format` parameter, and
no proof depends on their values. The reader uses `ExecFormat.JaCoCo`, which
holds JaCoCo 0.8's values: tag 0x01, magic 0xC0C0, version 0x1007.

Notes on how `JaCoCoReportReader` behaves:
- A file that cannot be opened is not a separate kind of error.
  `FileNotFoundException` is an `IOException`, so it gets the same wrapped
  "determine JaCoCo binary format" error as a bad tag or magic number. The
  model gives it the cause `FileNotReadable`.
- A wrong tag and a wrong magic number throw the same bare
  `IllegalStateException`, and a truncated file throws an `EOFException`; all
  three end up as the same wrapped exception. The model's `Cause` adds the
  distinction between `NotAHeaderBlock` and `WrongMagicNumber`, which the
  exception does not carry; only `Truncated` and `FileNotReadable` stand for
  the chained `IOException`.
- Only a `null` report file is a no-op. A non-null file that does not exist
  makes the constructor fail.
- The constructor and `readJacocoReport` each open the file themselves. The
  model gives the read its own `current` content, so a file that changed or
  vanished after construction is a separate input.
- A per-file analysis failure is only logged, not returned. The model records
  it as a `Warned` outcome, in order, next to the `Analyzed` ones.

## Model

| member | source | states |
|---|---|---|
| DataInput.ReadByte | sonar-groovy-plugin/src/main/java/org/sonar/plugins/groovy/jacoco/JaCoCoReportReader.java:84 | `readByte` succeeds exactly when at least one byte is left; the byte and the rest together give back the stream |
| DataInput.ReadChar | sonar-groovy-plugin/src/main/java/org/sonar/plugins/groovy/jacoco/JaCoCoReportReader.java:85-89 | `readChar` succeeds exactly when at least two bytes are left; the bytes consumed are the big-endian encoding of the char read, so the read inverts the writer's encoding |
| ExecFormat.Validate | sonar-groovy-plugin/src/main/java/org/sonar/plugins/groovy/jacoco/JaCoCoReportReader.java:84-92 | the check passes iff byte 0 is the tag, bytes 1-2 (big-endian) the magic number and bytes 3-4 the version; it reports an incompatible version iff tag and magic match and the version does not; a wrong tag wins over everything (short-circuit, nothing more is read), a wrong magic wins over the version, and running out of bytes before a check can be made means truncated |
| ExecFormat.ValidateAgainstWriter | sonar-groovy-plugin/src/main/java/org/sonar/plugins/groovy/jacoco/JaCoCoReportReader.java:84-92 | a file passes the check iff its first five bytes are exactly the header block the writer emits |
| ExecFormat.IncompatibleAgainstWriter | sonar-groovy-plugin/src/main/java/org/sonar/plugins/groovy/jacoco/JaCoCoReportReader.java:85-92 | a file is reported as an incompatible version iff its first three bytes are the writer's tag and magic and its next two bytes differ from the writer's version |
| ExecFormat.DecidedVerdictIgnoresSuffix | sonar-groovy-plugin/src/main/java/org/sonar/plugins/groovy/jacoco/JaCoCoReportReader.java:84-89 | once the check has a verdict other than truncated, appending bytes to the file never changes it |
| ExecFormat.OnlyFirstFiveBytes | sonar-groovy-plugin/src/main/java/org/sonar/plugins/groovy/jacoco/JaCoCoReportReader.java:84-89 | the verdict depends on the first five bytes only |
| ReportReader.NewReader | sonar-groovy-plugin/src/main/java/org/sonar/plugins/groovy/jacoco/JaCoCoReportReader.java:79-99 | without a file, the reader is built with no check; otherwise it is built iff the file starts with the supported header; it fails with the unwrapped incompatible-version message iff only the version differs; every other failure is the wrapped format error carrying the file's absolute path, and a file that cannot be opened gets that error too; the version error always carries exactly the incompatible-version message; a file that neither passes nor differs only in version always gets the wrapped format error with its path; the constructor never produces the read error |
| ReportReader.ReadJacocoReport | sonar-groovy-plugin/src/main/java/org/sonar/plugins/groovy/jacoco/JaCoCoReportReader.java:59-77 | without a file, the same reader comes back and the visitors are untouched; on success it is always the same reader; it fails iff the file, opened again at read time, cannot be opened or the decoder ends in an I/O failure, and then with exactly one "Unable to read" error naming the absolute path; what the visitors received before a failure is kept |
| ReportReader.MissingReportIsNoOp | sonar-groovy-plugin/src/main/java/org/sonar/plugins/groovy/jacoco/JaCoCoReportReader.java:61-63 | with no report file, both the constructor's check and reading are no-ops, whatever the file system holds: the same reader comes back and the visitors are unchanged |
| ReportReader.ReadAfterCheck | sonar-groovy-plugin/src/main/java/org/sonar/plugins/groovy/jacoco/JaCoCoReportReader.java:66-76 | for a reader whose constructor accepted the file, reading the unchanged file fails iff the decoder reports an I/O failure, and then names the file's path |
| ReportReader.ReadAfterFileVanished | sonar-groovy-plugin/src/main/java/org/sonar/plugins/groovy/jacoco/JaCoCoReportReader.java:66-75 | passing the constructor's check does not protect the read: a file that can no longer be opened gives the read error with its path and leaves the visitors untouched |
| ClassAnalysis.AnalyzeClassFile | sonar-groovy-plugin/src/main/java/org/sonar/plugins/groovy/jacoco/JaCoCoReportReader.java:113-122 | one file is analysed iff it can be opened and the analyser raises no IOException; otherwise it yields a warning naming its absolute path; an unopenable file leaves the builder untouched, an opened one leaves it as the analyser left it |
| ClassAnalysis.AnalyzeFrom | sonar-groovy-plugin/src/main/java/org/sonar/plugins/groovy/jacoco/JaCoCoReportReader.java:107-109 | the loop yields exactly one outcome per class file, and each outcome is the analysed or warned outcome of that same file |
| ClassAnalysis.AnalyzeFiles | sonar-groovy-plugin/src/main/java/org/sonar/plugins/groovy/jacoco/JaCoCoReportReader.java:103-111 | starting from a fresh builder, one outcome per class file, each describing that file |
| ClassAnalysis.AnalyzeFromAppend | sonar-groovy-plugin/src/main/java/org/sonar/plugins/groovy/jacoco/JaCoCoReportReader.java:107-109 | analysing xs + ys is analysing xs, then ys from the builder that xs left, with the outcomes concatenated: a failure never stops the batch |
| ClassAnalysis.EachFileAttemptedInOrder | sonar-groovy-plugin/src/main/java/org/sonar/plugins/groovy/jacoco/JaCoCoReportReader.java:107-109 | the outcome of file i is the outcome of analysing file i from the builder the earlier files left, whether they failed or not |
| ClassAnalysis.UnopenableFileIsIsolated | sonar-groovy-plugin/src/main/java/org/sonar/plugins/groovy/jacoco/JaCoCoReportReader.java:114-121 | a file that cannot be opened adds one warning in its place; every other outcome and the final builder are as if it were absent |
| ClassAnalysis.AnalyzedPlusWarned | sonar-groovy-plugin/src/main/java/org/sonar/plugins/groovy/jacoco/JaCoCoReportReader.java:103-121 | the number of analysed files plus the number of warnings equals the number of class files |
| ClassAnalysis.NoFailureNoWarning | sonar-groovy-plugin/src/main/java/org/sonar/plugins/groovy/jacoco/JaCoCoReportReader.java:114-121 | when every file of the batch opens and the analyser raises no IOException on any call the loop makes (each file from the builder the earlier files left), no warning is logged and every file is analysed |
| ClassAnalysis.NothingOpensAllWarned | sonar-groovy-plugin/src/main/java/org/sonar/plugins/groovy/jacoco/JaCoCoReportReader.java:114-121 | when no file can be opened, every file gives a warning, none is analysed and the builder is never touched |
| ClassAnalysis.AnalyzeFilesLoop | sonar-groovy-plugin/src/main/java/org/sonar/plugins/groovy/jacoco/JaCoCoReportReader.java:103-111 | the Java for-loop computes the same builder and outcomes as the recursive definition, one outcome per file |

## Left out

- JaCoCo's `ExecutionDataReader`, `ExecutionDataStore`, `Analyzer` and `CoverageBuilder` are not part of this model. Block decoding, probe merging, bytecode analysis and line coverage are oracle parameters, and nothing is assumed about what they do.
- The values of `BLOCK_HEADER`, `MAGIC_NUMBER` and `FORMAT_VERSION` belong to JaCoCo's `ExecutionDataWriter`. The check is proved for any values.
- Opening files, buffering and closing streams are I/O. A file is its absolute path plus either its bytes or "cannot be opened". An I/O failure during the check other than end of stream, or while closing a stream, is not modelled.
- Logging is left out. The "Analysing" info line is not modelled, and a logged warning appears only as a `Warned` outcome.
- Exception messages are not formatted. An error keeps its kind, the path it names, and, for the version error, the exact message. The format error's `Cause` is the model's own label for why the check failed, not a copy of the chained exception.
- Runtime exceptions other than IOException from the JaCoCo calls would propagate in the source. They are not modelled: the oracles can only report an IOException.
- `File.getPath` and `File.getAbsolutePath` are given as data of each file, not computed.
