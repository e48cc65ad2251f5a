/**
  Client code that drives the manager and the store through their contracts only:
  what a host adapter can rely on.
 */
module Scenarios {
  import opened GoInt
  import opened Params
  import opened Serializers
  import opened Drivers
  import opened Lifecycle
  import opened CgiSession

  /**
    With a 24-hour TTL and IP matching off: `New()`, set `user` to "alice", `Flush`,
    then `Load` by the new id returns the parameters written, with ATIME the flush time.
   */
  method FlushThenLoadScenario() returns (created: string, loaded: SessionStore?)
    ensures loaded != null && loaded.sessionId == created
    ensures loaded.params == map[CTimeKey := I64(1_600_000_000), ATimeKey := I64(1_600_000_010),
                                 ETimeKey := I64(86400), IdKey := Str(created), "user" := Str("alice")]
  {
    var backend := new MapDriver(map[], true);
    var manager := new CGISession([Config("memcached", backend, "md5", "datadumper", 86400, false)], backend);
    var ss := manager.New([], 1_600_000_000, "");
    created := ss.sessionId;
    ss.SetParam("user", Str("alice"));
    var ok := ss.Flush(1_600_000_010);
    ghost var stored := ss.params;
    assert stored == map[CTimeKey := I64(1_600_000_000), ATimeKey := I64(1_600_000_010),
                         ETimeKey := I64(86400), IdKey := Str(created), "user" := Str("alice")];
    assert Encodable(stored);
    assert backend.records == map[created := Frozen(stored)];
    loaded := manager.Load(created, 1_600_000_020, "");
  }

  /**
    An expired session heals itself: `New(x)` on a record whose ATIME + ETIME has
    passed removes it and creates a fresh session, here again under `x` itself; the
    store then holds the fresh record in place of the stale one.
   */
  method ExpiredSelfHealScenario(x: string) returns (ss: SessionStore, backend: MapDriver)
    requires x != ""
    ensures ss.sessionId == x
    ensures ss.params == FreshParams(x, 2_000, 100, "")
    ensures backend.records == map[x := Frozen(FreshParams(x, 2_000, 100, ""))]
  {
    var stale := map[CTimeKey := I64(1_000), ATimeKey := I64(1_000), ETimeKey := I64(100), IdKey := Str(x)];
    backend := new MapDriver(map[x := Frozen(stale)], true);
    var manager := new CGISession([Config("memcached", backend, "md5", "datadumper", 100, false)], backend);
    ss := manager.New([x], 2_000, "");
  }
}
