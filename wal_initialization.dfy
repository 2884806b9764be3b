/**
 * WAL initialisation: the logger is required, a missing configuration
 * disables the WAL without an error, and each setting falls back to its
 * default when the configuration leaves it at its zero value.
 */
module WalInit {
  import opened Wrappers
  import Wal
  import WalReader

  /** The WAL section of the configuration file; the timeout is in nanoseconds. */
  datatype WALConfig = WALConfig(flushingBatchLength: int, flushingBatchTimeout: int,
                                 maxSegmentSize: string, dataDirectory: string)

  const DefaultFlushingBatchSize: int := 100
  /** Ten milliseconds, in nanoseconds. */
  const DefaultFlushingBatchTimeout: int := 10 * 1_000_000
  /** 10 << 20 bytes. */
  const DefaultMaxSegmentSize: int := 10 * 1024 * 1024
  const DefaultWALDataDirectory: string := "./data/spider/wal"

  /** The resolved settings. */
  datatype WalSettings = WalSettings(batchSize: int, flushTimeout: int, maxSegmentSize: int, dataDirectory: string)

  /** The size parser behind the max segment size (its syntax is not part of this model). */
  type SizeParser = string -> Result<int, string>

  /** Each configured value replaces its default unless it is the zero value; the segment size is parsed. */
  function ResolveSettings(cfg: WALConfig, parseSize: SizeParser): (r: Result<WalSettings, string>)
    ensures r.Failure? <==> cfg.maxSegmentSize != "" && parseSize(cfg.maxSegmentSize).Failure?
    ensures r.Failure? ==> r.error == "max segment size is incorrect"
    ensures r.Success? ==>
      && (cfg.flushingBatchLength != 0 ==> r.value.batchSize == cfg.flushingBatchLength)
      && (cfg.flushingBatchLength == 0 ==> r.value.batchSize == DefaultFlushingBatchSize)
      && (cfg.flushingBatchTimeout != 0 ==> r.value.flushTimeout == cfg.flushingBatchTimeout)
      && (cfg.flushingBatchTimeout == 0 ==> r.value.flushTimeout == DefaultFlushingBatchTimeout)
      && (cfg.maxSegmentSize != "" ==> r.value.maxSegmentSize == parseSize(cfg.maxSegmentSize).value)
      && (cfg.maxSegmentSize == "" ==> r.value.maxSegmentSize == DefaultMaxSegmentSize)
      && (cfg.dataDirectory != "" ==> r.value.dataDirectory == cfg.dataDirectory)
      && (cfg.dataDirectory == "" ==> r.value.dataDirectory == DefaultWALDataDirectory)
  {
    var batchSize := if cfg.flushingBatchLength != 0 then cfg.flushingBatchLength else DefaultFlushingBatchSize;
    var timeout := if cfg.flushingBatchTimeout != 0 then cfg.flushingBatchTimeout else DefaultFlushingBatchTimeout;
    var directory := if cfg.dataDirectory != "" then cfg.dataDirectory else DefaultWALDataDirectory;
    if cfg.maxSegmentSize == "" then
      Success(WalSettings(batchSize, timeout, DefaultMaxSegmentSize, directory))
    else
      match parseSize(cfg.maxSegmentSize)
      case Failure(_) => Failure("max segment size is incorrect")
      case Success(size) => Success(WalSettings(batchSize, timeout, size, directory))
  }

  /** An all-zero configuration resolves to the defaults, whatever the parser. */
  lemma ZeroConfigurationUsesDefaults(parseSize: SizeParser)
    ensures ResolveSettings(WALConfig(0, 0, "", ""), parseSize)
         == Success(WalSettings(100, 10_000_000, 10485760, "./data/spider/wal"))
  {
  }

  /**
   * CreateWAL: the logger is checked first; no configuration means no WAL;
   * otherwise the resolved settings build the reader over the data
   * directory, the writer over a segment of the resolved size, and a WAL
   * whose batch size and flush period are the resolved ones.
   */
  method CreateWAL<L>(cfg: Option<WALConfig>, logger: Option<L>, parseSize: SizeParser,
                      segmentsDirectory: string -> WalReader.SegmentsDirectory,
                      newLogsWriter: (string, int) -> Result<Wal.LogsWriter, string>)
    returns (r: Result<Option<Wal.WAL>, string>)
    ensures logger.None? ==> r == Failure("logger is invalid")
    ensures logger.Some? && cfg.None? ==> r == Success(None)
    ensures logger.Some? && cfg.Some? && ResolveSettings(cfg.value, parseSize).Failure? ==>
      r == Failure("max segment size is incorrect")
    ensures logger.Some? && cfg.Some? && ResolveSettings(cfg.value, parseSize).Success? ==>
      var settings := ResolveSettings(cfg.value, parseSize).value;
      var writer := newLogsWriter(settings.dataDirectory, settings.maxSegmentSize);
      && (writer.Failure? ==> r == Failure(writer.error))
      && (writer.Success? ==>
            && r.Success? && r.value.Some? && fresh(r.value.value)
            && r.value.value.Valid() && r.value.value.Model() == Wal.Initial()
            && r.value.value.maxBatchSize == settings.batchSize
            && r.value.value.flushTimeout == settings.flushTimeout
            && r.value.value.logsWriter == writer.value
            && r.value.value.logsReader == WalReader.LogsReader(segmentsDirectory(settings.dataDirectory)))
  {
    if logger.None? {
      return Failure("logger is invalid");
    } else if cfg.None? {
      return Success(None);
    }
    var resolved := ResolveSettings(cfg.value, parseSize);
    if resolved.Failure? {
      return Failure(resolved.error);
    }
    var settings := resolved.value;
    var reader := WalReader.NewLogsReader(Some(segmentsDirectory(settings.dataDirectory)));
    // The directory reaches NewLogsReader as a typed pointer inside an interface value,
    // which never compares equal to nil, so the reader's error return is never taken.
    assert reader.Success?;
    var writer := newLogsWriter(settings.dataDirectory, settings.maxSegmentSize);
    if writer.Failure? {
      return Failure(writer.error);
    }
    var w := Wal.WAL.NewWAL(Some(writer.value), Some(reader.value), settings.flushTimeout, settings.batchSize);
    // Both collaborators are present, so NewWAL succeeds.
    assert w.Success?;
    r := Success(Some(w.value));
  }
}
