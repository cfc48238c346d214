/**
 * `JaCoCoReportReader`: a reader over an optional execution-data file. Building
 * one checks the file's format; reading it hands the file to JaCoCo's
 * `ExecutionDataReader`, which is not part of this model and appears here as an
 * oracle function supplied by the caller. The file is opened anew by each of the
 * two, so what the check saw and what the read sees are separate inputs.
 */
module ReportReader {
  import opened Wrappers
  import opened ExecFormat

  /** What opening a file yields: its bytes, or an I/O failure. */
  datatype Content = Bytes(data: seq<bv8>) | CannotOpen

  /** A file as the format check sees it: its absolute path and what opening it yields. */
  datatype ReportFile = ReportFile(absolutePath: string, content: Content)

  /**
   * A reader; `executionData` is the absolute path of the report file, or
   * `None` when no report exists for the run.
   */
  datatype Reader = Reader(executionData: Option<string>)

  /** The path of an optional file. */
  function PathOf(file: Option<ReportFile>): Option<string> {
    match file
    case None => None
    case Some(f) => Some(f.absolutePath)
  }

  /** The message of the unwrapped version error. */
  const IncompatibleJaCoCoError: string :=
    "You are using an incompatible JaCoCo binary format version, please consider upgrading to a supported JaCoCo version (0.8.x)."

  /** The `IllegalArgumentException`s the reader throws. */
  datatype ReaderError =
    | FormatUnknown(path: string, cause: Cause)  // "Unable to read <path> to determine JaCoCo binary format."
    | Incompatible(message: string)              // escapes the format check unwrapped, without a path
    | UnableToRead(path: string)                 // "Unable to read <path>"

  /** The file's bytes start with the header block of the supported format. */
  predicate HasSupportedHeader(file: ReportFile) {
    file.content.Bytes? && |file.content.data| >= 5 && file.content.data[..5] == HeaderBytes(JaCoCo)
  }

  /** The file's header block is JaCoCo's in tag and magic number but not in version. */
  predicate HasOtherVersion(file: ReportFile) {
    && file.content.Bytes?
    && |file.content.data| >= 5
    && file.content.data[..3] == HeaderBytes(JaCoCo)[..3]
    && file.content.data[3..5] != HeaderBytes(JaCoCo)[3..]
  }

  /**
   * The constructor: remember the file and check its format. A missing file is
   * accepted without a check; an unopenable or unrecognised file is reported
   * with its path; a wrong version only with the upgrade message.
   */
  function NewReader(file: Option<ReportFile>): (r: Result<Reader, ReaderError>)
    ensures file.None? ==> r == Success(Reader(None))
    ensures r.Success? ==> r.value == Reader(PathOf(file))
    ensures r.Success? <==> file.None? || HasSupportedHeader(file.value)
    ensures r.Failure? && r.error.Incompatible? <==> file.Some? && HasOtherVersion(file.value)
    ensures r.Failure? && r.error.Incompatible? ==> r.error.message == IncompatibleJaCoCoError
    ensures r.Failure? ==> r.error.FormatUnknown? || r.error.Incompatible?
    ensures file.Some? && !HasSupportedHeader(file.value) && !HasOtherVersion(file.value) ==>
              r.Failure? && r.error.FormatUnknown? && r.error.path == file.value.absolutePath
    ensures file.Some? && file.value.content.CannotOpen? ==>
              r == Failure(FormatUnknown(file.value.absolutePath, FileNotReadable))
  {
    match file
    case None => Success(Reader(None))
    case Some(ReportFile(path, CannotOpen)) => Failure(FormatUnknown(path, FileNotReadable))
    case Some(ReportFile(path, Bytes(data))) =>
      ValidateAgainstWriter(data, JaCoCo);
      IncompatibleAgainstWriter(data, JaCoCo);
      match Validate(data, JaCoCo)
      case Supported => Success(Reader(Some(path)))
      case IncompatibleVersion => Failure(Incompatible(IncompatibleJaCoCoError))
      case Unrecognised(cause) => Failure(FormatUnknown(path, cause))
  }

  /**
   * What `ExecutionDataReader.read` did: the state of the session-info and
   * execution-data visitors afterwards, and whether it ended in an IOException.
   */
  datatype LibraryRead<V> = LibraryRead(visitors: V, ioFailure: bool)

  /** The reader returned or the exception thrown, and the visitors' state. */
  datatype ReadOutcome<V> = ReadOutcome(result: Result<Reader, ReaderError>, visitors: V)

  /**
   * `readJacocoReport`: without a file, return the reader untouched; otherwise
   * open the file again (`current` is what that yields now) and decode it into
   * the visitors. Any I/O failure, including failing to open the file, becomes
   * the single error "Unable to read <path>"; what the visitors received before
   * the failure is kept.
   */
  function ReadJacocoReport<V>(reader: Reader, current: Content, visitors: V,
                               decode: (seq<bv8>, V) -> LibraryRead<V>): (o: ReadOutcome<V>)
    ensures reader.executionData.None? ==> o == ReadOutcome(Success(reader), visitors)
    ensures o.result.Success? ==> o.result.value == reader
    ensures o.result.Failure? <==>
              reader.executionData.Some? && (current.CannotOpen? || decode(current.data, visitors).ioFailure)
    ensures o.result.Failure? ==> o.result.error == UnableToRead(reader.executionData.value)
    ensures reader.executionData.Some? && current.Bytes? ==> o.visitors == decode(current.data, visitors).visitors
    ensures current.CannotOpen? ==> o.visitors == visitors
  {
    match reader.executionData
    case None => ReadOutcome(Success(reader), visitors)
    case Some(path) =>
      match current
      case CannotOpen => ReadOutcome(Failure(UnableToRead(path)), visitors)
      case Bytes(data) =>
        var done := decode(data, visitors);
        if done.ioFailure then ReadOutcome(Failure(UnableToRead(path)), done.visitors)
        else ReadOutcome(Success(reader), done.visitors)
  }

  /**
   * Without a report file the constructor checks nothing and reading neither
   * fails nor calls the decoder, whatever `current` is: the same reader comes
   * back and the visitors are unchanged.
   */
  lemma MissingReportIsNoOp<V>(current: Content, visitors: V, decode: (seq<bv8>, V) -> LibraryRead<V>)
    ensures NewReader(None).Success?
    ensures ReadJacocoReport(NewReader(None).value, current, visitors, decode) ==
              ReadOutcome(Success(NewReader(None).value), visitors)
  {
  }

  /**
   * A reader built over a file that starts with the supported header, read
   * while the file is unchanged, fails only when the decoder reports an I/O
   * failure, and then with the file's path.
   */
  lemma ReadAfterCheck<V>(file: ReportFile, visitors: V, decode: (seq<bv8>, V) -> LibraryRead<V>)
    requires NewReader(Some(file)).Success?
    ensures var o := ReadJacocoReport(NewReader(Some(file)).value, file.content, visitors, decode);
            && (o.result.Failure? <==> decode(file.content.data, visitors).ioFailure)
            && (o.result.Failure? ==> o.result.error == UnableToRead(file.absolutePath))
  {
  }

  /**
   * The check does not protect the read: a file that passed the check but can
   * no longer be opened when it is read gives the read error with its path.
   */
  lemma ReadAfterFileVanished<V>(file: ReportFile, visitors: V, decode: (seq<bv8>, V) -> LibraryRead<V>)
    requires NewReader(Some(file)).Success?
    ensures ReadJacocoReport(NewReader(Some(file)).value, CannotOpen, visitors, decode) ==
              ReadOutcome(Failure(UnableToRead(file.absolutePath)), visitors)
  {
  }
}
