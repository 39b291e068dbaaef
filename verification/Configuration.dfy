/** Configuration defaults, and what they guarantee about crash recovery. */
module Configuration {
  import opened Jobs
  import opened Protocol
  import opened Timing

  /** The backend named in the configuration: nothing, one of the two, or other text. */
  datatype Backend = Unset | InMemory | OnRedis | Unknown(text: string)

  datatype Values = Values(backend: Backend, workerCount: int, maxAttempts: int, highWaterMark: int,
                           scanInterval: int, channelDefault: string, lockTimeout: int, reaperInterval: int)

  /** A configuration every default has been applied to. */
  predicate Complete(v: Values) {
    && (v.backend.InMemory? || v.backend.OnRedis?)
    && v.workerCount != 0 && v.maxAttempts != 0 && v.highWaterMark != 0 && v.scanInterval != 0 && v.channelDefault != ""
    && v.lockTimeout >= 1 && 1 <= v.reaperInterval <= v.lockTimeout
    && (v.reaperInterval == v.lockTimeout ==> v.lockTimeout == 1)
  }

  class Config {
    var backend: Backend
    var workerCount: int
    var maxAttempts: int
    var highWaterMark: int
    var scanInterval: int
    var channelDefault: string
    var lockTimeout: int
    var reaperInterval: int

    function Current(): Values
      reads this
    {
      Values(backend, workerCount, maxAttempts, highWaterMark, scanInterval, channelDefault, lockTimeout, reaperInterval)
    }

    constructor (v: Values)
      ensures Current() == v
    {
      backend, workerCount, maxAttempts, highWaterMark := v.backend, v.workerCount, v.maxAttempts, v.highWaterMark;
      scanInterval, channelDefault := v.scanInterval, v.channelDefault;
      lockTimeout, reaperInterval := v.lockTimeout, v.reaperInterval;
    }

    /** setConfigDefaults: every input becomes a complete configuration, a complete one is
        kept as it is, and every value given is kept unless it is out of range. */
    method SetDefaults()
      modifies this
      ensures Complete(Current())
      ensures old(Complete(Current())) ==> Current() == old(Current())
      ensures backend == if old(backend).OnRedis? then OnRedis else InMemory
      ensures workerCount == if old(workerCount) == 0 then 1 else old(workerCount)
      ensures maxAttempts == if old(maxAttempts) == 0 then 3 else old(maxAttempts)
      ensures highWaterMark == if old(highWaterMark) == 0 then 10000 else old(highWaterMark)
      ensures scanInterval == if old(scanInterval) == 0 then 1 else old(scanInterval)
      ensures channelDefault == if old(channelDefault) == "" then "job" else old(channelDefault)
      ensures lockTimeout == if old(lockTimeout) <= 0 then 300 else old(lockTimeout)
      ensures var asked := if old(reaperInterval) <= 0 then 30 else old(reaperInterval);
              reaperInterval == if asked < lockTimeout then asked else if lockTimeout < 2 then 1 else lockTimeout / 2
    {
      if backend.Unset? {
        backend := InMemory;
      } else if !backend.InMemory? && !backend.OnRedis? {
        backend := InMemory;
      }
      DefaultCounts();
      if channelDefault == "" { channelDefault := "job"; }
      DefaultIntervals();
    }

    method DefaultCounts()
      modifies `workerCount, `maxAttempts, `highWaterMark, `scanInterval
      ensures workerCount == if old(workerCount) == 0 then 1 else old(workerCount)
      ensures maxAttempts == if old(maxAttempts) == 0 then 3 else old(maxAttempts)
      ensures highWaterMark == if old(highWaterMark) == 0 then 10000 else old(highWaterMark)
      ensures scanInterval == if old(scanInterval) == 0 then 1 else old(scanInterval)
    {
      if workerCount == 0 { workerCount := 1; }
      if maxAttempts == 0 { maxAttempts := 3; }
      if highWaterMark == 0 { highWaterMark := 10000; }
      if scanInterval == 0 { scanInterval := 1; }
    }

    method DefaultIntervals()
      modifies `lockTimeout, `reaperInterval
      ensures lockTimeout >= 1 && 1 <= reaperInterval <= lockTimeout
      ensures reaperInterval == lockTimeout ==> lockTimeout == 1
      ensures lockTimeout == if old(lockTimeout) <= 0 then 300 else old(lockTimeout)
      ensures var asked := if old(reaperInterval) <= 0 then 30 else old(reaperInterval);
              reaperInterval == if asked < lockTimeout then asked else if lockTimeout < 2 then 1 else lockTimeout / 2
    {
      if lockTimeout <= 0 { lockTimeout := 300; }
      if reaperInterval <= 0 { reaperInterval := 30; }
      if reaperInterval >= lockTimeout {
        reaperInterval := lockTimeout / 2;
        if reaperInterval < 1 { reaperInterval := 1; }
      }
    }
  }

  /** Under any completed configuration, a lock of a job without a LockFor override is
      gone within twice the lock timeout, unless a fresh claim replaced it. */
  lemma RecoveryWithinTwoTimeouts(v: Values, hasDb: bool, t: Instant, es: seq<Event>, taken: Instant)
    requires Complete(v)
    requires var cfg := Settings(v.maxAttempts, v.lockTimeout, v.reaperInterval, hasDb);
             && Prompt(cfg, Init(t), es)
             && var c := Run(cfg, Init(t), es);
                && (c.origin.Some? ==> c.origin.value.lockFor <= 0)
                && c.h.locked.Some? && c.h.locked.value.lockedAt == At(Stamp(taken))
    ensures var cfg := Settings(v.maxAttempts, v.lockTimeout, v.reaperInterval, hasDb);
            Run(cfg, Init(t), es).now < taken + Seconds(2 * v.lockTimeout)
  {
    OrphanWindow(Settings(v.maxAttempts, v.lockTimeout, v.reaperInterval, hasDb), t, es, taken);
  }
}
