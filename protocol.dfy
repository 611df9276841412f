/**
 * The manifest's protocol action: the minimum reader and writer versions a
 * client needs before it may read or write the log.
 */
module ManifestAction {
  import opened Ints

  type ProtocolVersion = u16

  /** The current reader and writer versions. */
  const ReaderVersion: ProtocolVersion := 0
  const WriterVersion: ProtocolVersion := 0

  /** `supported_protocol_version`: the (reader, writer) versions this code may use. */
  function SupportedProtocolVersion(): (versions: (ProtocolVersion, ProtocolVersion))
    ensures versions.0 == ReaderVersion == 0 && versions.1 == WriterVersion == 0
  {
    (ReaderVersion, WriterVersion)
  }

  datatype ProtocolAction = ProtocolAction(minReaderVersion: ProtocolVersion, minWriterVersion: ProtocolVersion)
  {
    /** `ProtocolAction::default`: the minimums are the supported versions, both 0. */
    static function Default(): (a: ProtocolAction)
      ensures (a.minReaderVersion, a.minWriterVersion) == SupportedProtocolVersion()
      ensures a.minReaderVersion == 0 && a.minWriterVersion == 0
    {
      var (r, w) := SupportedProtocolVersion();
      ProtocolAction(r, w)
    }

    /** `ProtocolAction::new`, the same as the default. */
    static function New(): (a: ProtocolAction)
      ensures a.minReaderVersion == 0 && a.minWriterVersion == 0
    {
      Default()
    }

    predicate IsReadable(readerVersion: ProtocolVersion)
    {
      readerVersion >= minReaderVersion
    }

    predicate IsWritable(writerVersion: ProtocolVersion)
    {
      writerVersion >= minWriterVersion
    }
  }

  /** The minimum reader version is exactly the least version that may read. */
  lemma MinReaderVersionIsLeastReadable(a: ProtocolAction)
    ensures a.IsReadable(a.minReaderVersion)
    ensures forall v: ProtocolVersion :: a.IsReadable(v) <==> a.minReaderVersion <= v
  {
  }

  /** The minimum writer version is exactly the least version that may write. */
  lemma MinWriterVersionIsLeastWritable(a: ProtocolAction)
    ensures a.IsWritable(a.minWriterVersion)
    ensures forall v: ProtocolVersion :: a.IsWritable(v) <==> a.minWriterVersion <= v
  {
  }

  /** A client that may read (write) at some version may also at every later one. */
  lemma AccessIsMonotone(a: ProtocolAction, v: ProtocolVersion, w: ProtocolVersion)
    requires v <= w
    ensures a.IsReadable(v) ==> a.IsReadable(w)
    ensures a.IsWritable(v) ==> a.IsWritable(w)
  {
  }

  /** The default action blocks nobody: it is readable and writable at every version. */
  lemma DefaultAdmitsEveryVersion(v: ProtocolVersion)
    ensures ProtocolAction.New().IsReadable(v) && ProtocolAction.New().IsWritable(v)
  {
  }

  /** The source's example: minimums raised to 2 and 3. */
  lemma RaisedMinimumsExample()
    ensures var a := ProtocolAction.New().(minReaderVersion := 2, minWriterVersion := 3);
      && !a.IsReadable(0) && !a.IsWritable(0)
      && a.IsReadable(2) && a.IsReadable(3)
      && a.IsWritable(3) && a.IsWritable(4)
  {
  }
}
