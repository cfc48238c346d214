/**
 * The pre-check a reader runs on a JaCoCo execution-data (`.exec`) file before
 * anything else: the file must start with a header block, i.e. the header block
 * tag, the magic number and the one supported format version, in that order.
 */
module ExecFormat {
  import opened DataInput

  /** The three constants a header block carries. */
  datatype Format = Format(blockHeader: bv8, magicNumber: bv16, formatVersion: bv16)

  /**
   * `BLOCK_HEADER`, `MAGIC_NUMBER` and `FORMAT_VERSION` of JaCoCo 0.8's
   * `ExecutionDataWriter`. Nothing proved here depends on these values.
   */
  const JaCoCo: Format := Format(0x01, 0xC0C0, 0x1007)

  /** Why the format could not be determined. */
  datatype Cause =
    | FileNotReadable   // the file could not be opened: an IOException
    | Truncated         // the stream ended before the next read: an EOFException
    | NotAHeaderBlock   // the first byte is not the header tag: an IllegalStateException
    | WrongMagicNumber  // the magic number differs: an IllegalStateException

  /** The verdict of the check on the bytes of a file. */
  datatype Verdict = Supported | Unrecognised(cause: Cause) | IncompatibleVersion

  /** The header block `ExecutionDataWriter` writes first: tag, magic, version, big-endian. */
  function HeaderBytes(f: Format): (h: seq<bv8>)
    ensures |h| == 5
  {
    [f.blockHeader] + CharBytes(f.magicNumber) + CharBytes(f.formatVersion)
  }

  /**
   * The check as the reader performs it: read the tag, and only when it matches
   * read the magic number (the `||` short-circuits), then the version. A wrong
   * tag, a wrong magic number or an early end of stream is `Unrecognised`; only a
   * wrong version with a correct tag and magic is `IncompatibleVersion`.
   */
  function Validate(prefix: seq<bv8>, f: Format): (v: Verdict)
    ensures v == Supported <==>
              && |prefix| >= 5
              && prefix[0] == f.blockHeader
              && CharOf(prefix[1], prefix[2]) == f.magicNumber
              && CharOf(prefix[3], prefix[4]) == f.formatVersion
    ensures v == IncompatibleVersion <==>
              && |prefix| >= 5
              && prefix[0] == f.blockHeader
              && CharOf(prefix[1], prefix[2]) == f.magicNumber
              && CharOf(prefix[3], prefix[4]) != f.formatVersion
    ensures |prefix| == 0 ==> v == Unrecognised(Truncated)
    ensures |prefix| >= 1 && prefix[0] != f.blockHeader ==> v == Unrecognised(NotAHeaderBlock)
    ensures 1 <= |prefix| < 3 && prefix[0] == f.blockHeader ==> v == Unrecognised(Truncated)
    ensures |prefix| >= 3 && prefix[0] == f.blockHeader && CharOf(prefix[1], prefix[2]) != f.magicNumber ==>
              v == Unrecognised(WrongMagicNumber)
    ensures 3 <= |prefix| < 5 && prefix[0] == f.blockHeader && CharOf(prefix[1], prefix[2]) == f.magicNumber ==>
              v == Unrecognised(Truncated)
  {
    match ReadByte(prefix)
    case EndOfStream => Unrecognised(Truncated)
    case Got(tag, afterTag) =>
      if tag != f.blockHeader then Unrecognised(NotAHeaderBlock)
      else
        match ReadChar(afterTag)
        case EndOfStream => Unrecognised(Truncated)
        case Got(magic, afterMagic) =>
          if magic != f.magicNumber then Unrecognised(WrongMagicNumber)
          else
            match ReadChar(afterMagic)
            case EndOfStream => Unrecognised(Truncated)
            case Got(version, _) =>
              if version != f.formatVersion then IncompatibleVersion else Supported
  }

  /** A file that starts with the header block the writer emits passes the check, and only such a file. */
  lemma ValidateAgainstWriter(prefix: seq<bv8>, f: Format)
    ensures Validate(prefix, f) == Supported <==> |prefix| >= 5 && prefix[..5] == HeaderBytes(f)
  {
    if |prefix| >= 5 {
      CharBytesCharOf(prefix[1], prefix[2]);
      CharBytesCharOf(prefix[3], prefix[4]);
      CharOfCharBytes(f.magicNumber);
      CharOfCharBytes(f.formatVersion);
      assert prefix[..5] == [prefix[0]] + CharBytes(CharOf(prefix[1], prefix[2])) + CharBytes(CharOf(prefix[3], prefix[4]));
    }
  }

  /** A file fails only on its version exactly when its first three bytes are the writer's and the next two are not. */
  lemma IncompatibleAgainstWriter(prefix: seq<bv8>, f: Format)
    ensures Validate(prefix, f) == IncompatibleVersion <==>
              |prefix| >= 5 && prefix[..3] == HeaderBytes(f)[..3] && prefix[3..5] != HeaderBytes(f)[3..]
  {
    if |prefix| >= 5 {
      var h := HeaderBytes(f);
      CharBytesCharOf(prefix[1], prefix[2]);
      CharBytesCharOf(prefix[3], prefix[4]);
      CharOfCharBytes(f.magicNumber);
      CharOfCharBytes(f.formatVersion);
      assert h[..3] == [f.blockHeader] + CharBytes(f.magicNumber);
      assert h[3..] == CharBytes(f.formatVersion);
      assert prefix[..3] == [prefix[0]] + CharBytes(CharOf(prefix[1], prefix[2]));
      assert prefix[3..5] == CharBytes(CharOf(prefix[3], prefix[4]));
    }
  }

  /**
   * Once the check has decided (it did not run out of bytes), appending bytes to
   * the file does not change the verdict.
   */
  lemma DecidedVerdictIgnoresSuffix(prefix: seq<bv8>, suffix: seq<bv8>, f: Format)
    requires Validate(prefix, f) != Unrecognised(Truncated)
    ensures Validate(prefix + suffix, f) == Validate(prefix, f)
  {
  }

  /** The verdict depends on the first five bytes of the file only. */
  lemma OnlyFirstFiveBytes(prefix: seq<bv8>, f: Format)
    ensures |prefix| >= 5 ==> Validate(prefix, f) == Validate(prefix[..5], f)
  {
  }
}
