// The engine's configuration (internal/scan/engine.go:74-101), and why a token request for a batch is granted
// unless the process context is done (engine.go:413-423, walk.go:60-68).

module EngineConfig {
  import opened HardLinks
  import Scan = ScanProtocol

  // Durations in nanoseconds, entries per second as a real.
  datatype Settings = Settings(
    concurrency: int, batchSize: int, shareThreshold: int, queueLimit: int, maxTrackedInodes: int,
    workerDrainTimeout: int, heartbeatEvery: int, rateLimit: real, rateLimitBurst: int,
    scanTimeout: int, hardTimeout: int, oneFilesystem: bool, dedupHardlinks: bool)

  // What a setting becomes when it is missing.
  const DEFAULT_CONCURRENCY := 2
  const DEFAULT_BATCH := 1024
  const DEFAULT_SHARE := 32
  const DEFAULT_QUEUE := 65536
  const DEFAULT_INODES := 2_000_000
  const DEFAULT_DRAIN := 5_000_000_000
  const DEFAULT_HEARTBEAT := 30_000_000_000

  // Nothing the engine divides by, waits for or fills up is zero or less, and a whole batch and its directory
  // can be paid for at once.
  predicate Sound(c: Settings) {
    && c.concurrency > 0 && c.batchSize > 0 && c.shareThreshold > 0 && c.queueLimit > 0 && c.maxTrackedInodes > 0
    && c.workerDrainTimeout > 0 && c.heartbeatEvery > 0
    && (c.rateLimit > 0.0 ==> c.rateLimitBurst > c.batchSize)
  }

  // Nothing is invented: each setting is the one given or its default.
  predicate FromGiven(given: Settings, c: Settings) {
    && c.concurrency in {given.concurrency, DEFAULT_CONCURRENCY} && c.batchSize in {given.batchSize, DEFAULT_BATCH}
    && c.shareThreshold in {given.shareThreshold, DEFAULT_SHARE} && c.queueLimit in {given.queueLimit, DEFAULT_QUEUE}
    && c.maxTrackedInodes in {given.maxTrackedInodes, DEFAULT_INODES}
    && c.workerDrainTimeout in {given.workerDrainTimeout, DEFAULT_DRAIN}
    && c.heartbeatEvery in {given.heartbeatEvery, DEFAULT_HEARTBEAT}
    && c.rateLimitBurst in {given.rateLimitBurst, c.batchSize + 1}
  }

  // A setting that was fit to use is left alone.
  predicate Respects(given: Settings, c: Settings) {
    && (given.concurrency > 0 ==> c.concurrency == given.concurrency)
    && (given.batchSize > 0 ==> c.batchSize == given.batchSize)
    && (given.shareThreshold > 0 ==> c.shareThreshold == given.shareThreshold)
    && (given.queueLimit > 0 ==> c.queueLimit == given.queueLimit)
    && (given.maxTrackedInodes > 0 ==> c.maxTrackedInodes == given.maxTrackedInodes)
    && (given.workerDrainTimeout > 0 ==> c.workerDrainTimeout == given.workerDrainTimeout)
    && (given.heartbeatEvery > 0 ==> c.heartbeatEvery == given.heartbeatEvery)
    && (given.rateLimit <= 0.0 || given.rateLimitBurst > c.batchSize ==> c.rateLimitBurst == given.rateLimitBurst)
    && c.rateLimit == given.rateLimit && c.scanTimeout == given.scanTimeout && c.hardTimeout == given.hardTimeout
    && c.oneFilesystem == given.oneFilesystem && c.dedupHardlinks == given.dedupHardlinks
  }

  // What the scan goes by: the queue's limit, the local depth past which work is given away, the batch and the
  // inode cap, each in its place, and a timer only where one was asked for.
  predicate Reads(p: Scan.Config, given: Settings, c: Settings) {
    && p.limit == c.queueLimit && p.shareOver == c.shareThreshold && p.batch == c.batchSize
    && p.policy.maxTracked == c.maxTrackedInodes && p.policy.dedup == given.dedupHardlinks && p.oneFs == given.oneFilesystem
    && (p.limiter <==> given.rateLimit > 0.0) && (p.scanTimeout <==> given.scanTimeout > 0) && (p.hard <==> given.hardTimeout > 0)
  }

  // Whatever was given, the result is sound, and differs only where it had to.
  method WithDefaults(given: Settings) returns (c: Settings)
    ensures Sound(c) && FromGiven(given, c) && Respects(given, c)
    ensures forall capInode :: Scan.ValidConfig(Protocol(c, capInode)) && Reads(Protocol(c, capInode), given, c)
  {
    var concurrency, batchSize := given.concurrency, given.batchSize;
    var shareThreshold, queueLimit := given.shareThreshold, given.queueLimit;
    var maxTrackedInodes, workerDrainTimeout := given.maxTrackedInodes, given.workerDrainTimeout;
    var heartbeatEvery, rateLimitBurst := given.heartbeatEvery, given.rateLimitBurst;
    if concurrency <= 0 { concurrency := DEFAULT_CONCURRENCY; }
    if batchSize <= 0 { batchSize := DEFAULT_BATCH; }
    if shareThreshold <= 0 { shareThreshold := DEFAULT_SHARE; }
    if queueLimit <= 0 { queueLimit := DEFAULT_QUEUE; }
    if maxTrackedInodes <= 0 { maxTrackedInodes := DEFAULT_INODES; }
    if workerDrainTimeout <= 0 { workerDrainTimeout := DEFAULT_DRAIN; }
    if heartbeatEvery <= 0 { heartbeatEvery := DEFAULT_HEARTBEAT; }
    if given.rateLimit > 0.0 && rateLimitBurst < batchSize + 1 { rateLimitBurst := batchSize + 1; }
    c := given.(concurrency := concurrency, batchSize := batchSize, shareThreshold := shareThreshold, queueLimit := queueLimit,
                maxTrackedInodes := maxTrackedInodes, workerDrainTimeout := workerDrainTimeout,
                heartbeatEvery := heartbeatEvery, rateLimitBurst := rateLimitBurst);
  }

  // The three together leave no choice: sound settings pass through unchanged, and no other result would do.
  lemma DefaultsAreDetermined(given: Settings, c: Settings, d: Settings)
    requires Sound(c) && FromGiven(given, c) && Respects(given, c)
    requires Sound(d) && FromGiven(given, d) && Respects(given, d)
    ensures c == d
    ensures Sound(given) ==> c == given
  {
    assert c.batchSize == d.batchSize;
  }

  // So a configuration left blank runs on these.
  lemma BlankGetsDefaults(c: Settings)
    requires Sound(c) && FromGiven(BLANK, c) && Respects(BLANK, c)
    ensures c.concurrency == 2 && c.batchSize == 1024 && c.shareThreshold == 32 && c.queueLimit == 65536
    ensures c.maxTrackedInodes == 2_000_000 && c.workerDrainTimeout == 5 * NANOS && c.heartbeatEvery == 30 * NANOS
  {
  }

  const NANOS := 1_000_000_000
  const BLANK := Settings(0, 0, 0, 0, 0, 0, 0, 0.0, 0, 0, 0, false, false)

  // The protocol's view of a configuration.
  function Protocol(c: Settings, capInode: bool): Scan.Config {
    Scan.Config(c.queueLimit, c.shareThreshold, c.batchSize, c.rateLimit > 0.0, c.scanTimeout > 0, c.hardTimeout > 0,
                c.oneFilesystem, capInode, Policy(c.dedupHardlinks, c.maxTrackedInodes))
  }

  // waitForTokens asks for no more than the burst.
  function Asked(n: int, burst: int): int { if n > burst then burst else n }

  // No request exceeds the burst, so WaitN has no reason of its own to refuse one; none is empty; and in sound
  // settings none is cut down: a batch and its directory are paid for in full (walk.go:66).
  lemma BatchIsPaid(c: Settings, entries: int)
    requires c.rateLimit > 0.0 && entries >= 0
    ensures Asked(entries + 1, c.rateLimitBurst) <= c.rateLimitBurst
    ensures Asked(entries + 1, c.rateLimitBurst) == entries + 1 <==> entries < c.rateLimitBurst
    ensures Sound(c) ==> Asked(entries + 1, c.rateLimitBurst) > 0
    ensures Sound(c) && entries <= c.batchSize ==> Asked(entries + 1, c.rateLimitBurst) == entries + 1
  {
  }
}
