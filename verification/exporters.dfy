/** Which exporters a detector gets: `create_exporters` of src/cowcatcher/exporters/factory.py
    with the constructor guards of the exporters it builds, and the exporter list of
    `Detector.fromConfig` in src/aidetector/detector.py. A configuration string that is
    absent is `None`; Python's `a or b` treats the empty string as false. */
module Exporters {
  import opened Common

  /** An exporter as configured: a Telegram chat, or a directory on disk. */
  datatype Exporter = TelegramExporter(botToken: string, chatId: string) | DiskExporter(directory: string)

  /** The global settings the factories read. */
  datatype Config = Config(telegramBotToken: Option<string>, telegramChatId: Option<string>)

  /** The per-detector settings the factories read. */
  datatype DetectorConfig = DetectorConfig(saveDirectory: Option<string>, telegramChatId: Option<string>)

  /** Python's truth value of an optional string. */
  predicate Truthy(s: Option<string>) {
    s.Some? && s.value != ""
  }

  /** Python's `a or b` on optional strings. */
  function Or(a: Option<string>, b: Option<string>): (r: Option<string>)
    ensures Truthy(a) ==> r == a
    ensures !Truthy(a) ==> r == b
  {
    if Truthy(a) then a else b
  }

  /** The chat id a Telegram exporter uses: the detector's own if it is non-empty,
      otherwise the global one. */
  function ChatId(cfg: Config, det: DetectorConfig): Option<string> {
    Or(det.telegramChatId, cfg.telegramChatId)
  }

  /** The `ValueError`s the exporter constructors raise. */
  datatype SetupFault = BotTokenNotSet | ChatIdNotSet | SaveDirectoryNotSet

  /** `TelegramExporter.__init__` of the cowcatcher package. */
  function NewTelegramExporter(cfg: Config, det: DetectorConfig): (r: Result<Exporter, SetupFault>)
    ensures r.Failure? <==> cfg.telegramBotToken.None? || ChatId(cfg, det).None?
    ensures r.Failure? && cfg.telegramBotToken.None? ==> r.error == BotTokenNotSet
    ensures r.Success? ==>
      r.value == TelegramExporter(cfg.telegramBotToken.value, ChatId(cfg, det).value)
  {
    if cfg.telegramBotToken.None? then Failure(BotTokenNotSet)
    else
      var chat := ChatId(cfg, det);
      if chat.None? then Failure(ChatIdNotSet)
      else Success(TelegramExporter(cfg.telegramBotToken.value, chat.value))
  }

  /** `DiskExporter.__init__` of the cowcatcher package. */
  function NewDiskExporter(det: DetectorConfig): (r: Result<Exporter, SetupFault>)
    ensures r.Failure? <==> det.saveDirectory.None?
    ensures r.Success? ==> r.value == DiskExporter(det.saveDirectory.value)
  {
    if det.saveDirectory.None? then Failure(SaveDirectoryNotSet)
    else Success(DiskExporter(det.saveDirectory.value))
  }

  /** The factory's Telegram guard: a token, and a chat id at either level that is not `None`. */
  predicate TelegramWanted(cfg: Config, det: DetectorConfig) {
    cfg.telegramBotToken.Some? && (cfg.telegramChatId.Some? || det.telegramChatId.Some?)
  }

  /** `create_exporters`, as written: Disk first, then Telegram. The guard tests `is not
      None` while the constructor uses `or`, so an empty per-detector chat id without a
      global one passes the guard and makes the constructor raise. */
  function CreateExporters(cfg: Config, det: DetectorConfig): (r: Result<seq<Exporter>, SetupFault>)
    ensures r.Failure? <==> TelegramWanted(cfg, det) && ChatId(cfg, det).None?
    ensures r.Failure? ==> r.error == ChatIdNotSet
    ensures r.Success? ==>
      var xs := r.value;
      && |xs| <= 2
      && (forall d :: DiskExporter(d) in xs <==> det.saveDirectory == Some(d))
      && (forall t, c :: TelegramExporter(t, c) in xs <==>
            TelegramWanted(cfg, det) && cfg.telegramBotToken == Some(t) && ChatId(cfg, det) == Some(c))
      && (|xs| == 2 ==> xs[0].DiskExporter? && xs[1].TelegramExporter?)
  {
    var disk := if det.saveDirectory.Some? then [NewDiskExporter(det).value] else [];
    if TelegramWanted(cfg, det) then
      match NewTelegramExporter(cfg, det)
      case Failure(e) => Failure(e)
      case Success(t) => Success(disk + [t])
    else Success(disk)
  }

  /** The guard mismatch: a token, an empty per-detector chat id and no global chat id. */
  lemma EmptyChatIdBreaksFactory()
    ensures CreateExporters(Config(Some("token"), None), DetectorConfig(None, Some("")))
      == Failure(ChatIdNotSet)
  {
  }

  /** `create_exporters` with the guard evidently intended: Telegram is added when the
      constructor will accept the configuration. */
  function CreateExportersIntended(cfg: Config, det: DetectorConfig): (r: seq<Exporter>)
    ensures |r| <= 2
    ensures forall d :: DiskExporter(d) in r <==> det.saveDirectory == Some(d)
    ensures forall t, c :: TelegramExporter(t, c) in r <==>
      cfg.telegramBotToken == Some(t) && ChatId(cfg, det) == Some(c)
    ensures |r| == 2 ==> r[0].DiskExporter? && r[1].TelegramExporter?
  {
    var disk := if det.saveDirectory.Some? then [NewDiskExporter(det).value] else [];
    if cfg.telegramBotToken.Some? && ChatId(cfg, det).Some? then disk + [NewTelegramExporter(cfg, det).value]
    else disk
  }

  /** The intended factory agrees with the one as written wherever the latter succeeds,
      and never makes a constructor raise. */
  lemma IntendedFactoryAgrees(cfg: Config, det: DetectorConfig)
    ensures CreateExporters(cfg, det).Success? ==>
      CreateExporters(cfg, det).value == CreateExportersIntended(cfg, det)
    ensures CreateExporters(cfg, det).Failure? ==>
      CreateExportersIntended(cfg, det) == (if det.saveDirectory.Some? then [DiskExporter(det.saveDirectory.value)] else [])
  {
  }

  /** `TelegramExporter.fromConfig` of the aidetector package: a token and a chat id. */
  function TelegramFromConfig(cfg: Config, det: DetectorConfig): (r: Option<Exporter>)
    ensures r.Some? <==> cfg.telegramBotToken.Some? && ChatId(cfg, det).Some?
    ensures r.Some? ==> r.value == TelegramExporter(cfg.telegramBotToken.value, ChatId(cfg, det).value)
  {
    var chat := ChatId(cfg, det);
    if cfg.telegramBotToken.None? || chat.None? then None
    else Some(TelegramExporter(cfg.telegramBotToken.value, chat.value))
  }

  /** `DiskExporter.fromConfig` of the aidetector package: a save directory. */
  function DiskFromConfig(det: DetectorConfig): (r: Option<Exporter>)
    ensures r.Some? <==> det.saveDirectory.Some?
    ensures r.Some? ==> r.value == DiskExporter(det.saveDirectory.value)
  {
    if det.saveDirectory.None? then None else Some(DiskExporter(det.saveDirectory.value))
  }

  /** The present values of a list of optional exporters, in order (`filter(None, ...)`). */
  function Present(xs: seq<Option<Exporter>>): (r: seq<Exporter>)
    ensures |r| <= |xs|
    ensures forall e :: e in r <==> Some(e) in xs
    decreases |xs|
  {
    if xs == [] then []
    else
      assert forall x :: x in xs <==> x == xs[0] || x in xs[1..];
      (if xs[0].Some? then [xs[0].value] else []) + Present(xs[1..])
  }

  /** `Detector.fromConfig`'s exporter list: Telegram first, then Disk, each present when
      its `fromConfig` builds it. */
  function AiDetectorExporters(cfg: Config, det: DetectorConfig): (r: seq<Exporter>)
    ensures |r| <= 2
    ensures forall e :: e in r <==> Some(e) == TelegramFromConfig(cfg, det) || Some(e) == DiskFromConfig(det)
    ensures |r| == 2 ==> r[0].TelegramExporter? && r[1].DiskExporter?
  {
    var r := Present([TelegramFromConfig(cfg, det), DiskFromConfig(det)]);
    assert r == (if TelegramFromConfig(cfg, det).Some? then [TelegramFromConfig(cfg, det).value] else [])
      + (if DiskFromConfig(det).Some? then [DiskFromConfig(det).value] else []) by {
      var xs := [TelegramFromConfig(cfg, det), DiskFromConfig(det)];
      assert xs[1..] == [DiskFromConfig(det)];
      assert xs[1..][1..] == [];
      assert Present(xs[1..]) == (if DiskFromConfig(det).Some? then [DiskFromConfig(det).value] else []) + Present([]);
    }
    r
  }

  /** The aidetector package builds no Telegram exporter for an empty per-detector chat id
      without a global one, where the cowcatcher factory raises. */
  lemma AiDetectorSkipsEmptyChatId()
    ensures var cfg := Config(Some("token"), None);
      var det := DetectorConfig(None, Some(""));
      AiDetectorExporters(cfg, det) == [] && CreateExporters(cfg, det).Failure?
  {
  }
}
