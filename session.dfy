/**
  The session manager (`CGISession`) and one session's parameter store
  (`SessionStore`). The clock and the `REMOTE_ADDR` environment variable are the
  parameters `now` and `clientAddr`; Go's variadic arguments are sequences.
 */
module CgiSession {
  import opened Wrappers
  import opened GoInt
  import opened Params
  import opened Serializers
  import opened SessionIds
  import opened Drivers
  import opened Lifecycle

  /**
    `CGISessionConfig`: strategy names, the TTL and the IP-match switch. `backend`
    stands for the memcached servers the driver configuration names; the id and
    serializer configurations are ignored by their strategies and left out.
   */
  datatype Config = Config(driverName: string, backend: MapDriver, idName: string,
                           serializerName: string, expireSeconds: int64, ipMatch: bool)

  /** The configuration `Session()` uses when given none; `local` is the memcached at 127.0.0.1:11211. */
  function DefaultConfig(local: MapDriver): (c: Config)
    ensures c.backend == local && ResolveId(c.idName) == Md5
    ensures ResolveSerializer(c.serializerName) == DataDumper
    ensures c.expireSeconds == 86400 && !c.ipMatch
  {
    Config("memcached", local, "md5", "datadumper", 86400, false)
  }

  class CGISession {
    const config: Config
    var driver: MapDriver?
    var idGen: Option<IdKind>
    var serializer: Option<SerializerKind>

    /** `Session(config...)`: one configuration is used as given, otherwise the default. */
    constructor (configs: seq<Config>, local: MapDriver)
      ensures config == if |configs| == 1 then configs[0] else DefaultConfig(local)
      ensures driver == null && idGen == None && serializer == None
    {
      config := if |configs| == 1 then configs[0] else DefaultConfig(local);
      driver, idGen, serializer := null, None, None;
    }

    /** The driver bound now, or the one `Driver()` would bind: memcached for any name. */
    function ActiveDriver(): MapDriver
      reads this
    {
      if driver != null then driver else config.backend
    }

    /** The id strategy bound now, or the one `Id()` would bind. */
    function BoundId(): IdKind
      reads this
    {
      if idGen.Some? then idGen.value else ResolveId(config.idName)
    }

    /** The serializer bound now, or the one `Serializer()` would bind. */
    function BoundSerializer(): SerializerKind
      reads this
    {
      if serializer.Some? then serializer.value else ResolveSerializer(config.serializerName)
    }

    /** `Id(idgen...)`: binds the id strategy if none is bound yet; otherwise does nothing. */
    method Id(inject: seq<IdKind>)
      modifies this`idGen
      ensures idGen == if old(idGen).Some? then old(idGen)
                       else Some(if |inject| == 1 then inject[0] else ResolveId(config.idName))
    {
      if idGen.None? {
        if |inject| == 1 {
          idGen := Some(inject[0]);
        } else {
          idGen := Some(ResolveId(config.idName));
        }
      }
    }

    /** `Serializer(serializer...)`: binds the serializer if none is bound yet. */
    method Serializer(inject: seq<SerializerKind>)
      modifies this`serializer
      ensures serializer == if old(serializer).Some? then old(serializer)
                            else Some(if |inject| == 1 then inject[0] else ResolveSerializer(config.serializerName))
    {
      if serializer.None? {
        if |inject| == 1 {
          serializer := Some(inject[0]);
        } else {
          serializer := Some(ResolveSerializer(config.serializerName));
        }
      }
    }

    /** `Driver(driver...)`: binds the driver if none is bound yet. */
    method Driver(inject: seq<MapDriver>)
      modifies this`driver
      ensures driver == if old(driver) != null then old(driver)
                        else if |inject| == 1 then inject[0] else config.backend
    {
      if driver == null {
        if |inject| == 1 {
          driver := inject[0];
        } else {
          driver := config.backend;
        }
      }
    }

    /** `GenerateSessionId()`: binds the id strategy, then asks it for an id. */
    method GenerateSessionId() returns (id: string)
      modifies this`idGen
      ensures idGen == Some(old(BoundId()))
      ensures idGen.value == Md5 ==> IsMd5Id(id)
    {
      Id([]);
      id := Generate(idGen.value);
    }

    /** `Thaw(data)`: binds the serializer, then decodes. */
    method Thaw(data: Payload) returns (r: Option<Params>)
      modifies this`serializer
      ensures serializer == Some(old(BoundSerializer()))
      ensures r == Serializers.Thaw(serializer.value, data)
    {
      Serializer([]);
      r := Serializers.Thaw(serializer.value, data);
    }

    /** `Freeze(params)`: binds the serializer, then encodes. */
    method Freeze(params: Params) returns (r: Option<Payload>)
      modifies this`serializer
      ensures serializer == Some(old(BoundSerializer()))
      ensures r == Serializers.Freeze(serializer.value, params)
    {
      Serializer([]);
      r := Serializers.Freeze(serializer.value, params);
    }

    /**
      `Load(sessionId)`: a store for the record under `id` when it decodes, matches
      the client address and has not expired; otherwise null, and a record rejected
      for its address or its age is removed from the store.
     */
    method Load(id: string, now: int64, clientAddr: string) returns (ss: SessionStore?)
      requires LoadCheckable(BoundSerializer(), ActiveDriver().records, ActiveDriver().online,
                             id, config.ipMatch, clientAddr)
      modifies this`driver, this`serializer, ActiveDriver()`records
      ensures driver == old(ActiveDriver())
      ensures serializer == if driver.online && id in old(ActiveDriver().records)
                            then Some(old(BoundSerializer())) else old(serializer)
      ensures var o := Lookup(old(BoundSerializer()), old(ActiveDriver().records), driver.online,
                              id, config.ipMatch, clientAddr, now);
              && (ss == null <==> !o.Valid?)
              && (ss != null ==> fresh(ss) && ss.session == this && ss.sessionId == id && ss.params == o.params)
              && driver.records == if o.Rejected? then old(ActiveDriver().records) - {id}
                                   else old(ActiveDriver().records)
    {
      Driver([]);
      ss := new SessionStore(this);
      var data := driver.Retrieve(id);
      if data.None? {
        return null;
      }
      var params := Thaw(data.value);
      if params.None? {
        return null;
      }
      ss.params := params.value;
      if !IPMatches(ss.params, config.ipMatch, clientAddr) {
        var _ := DeleteSession(id);
        return null;
      }
      if IsExpired(ss.params, now) {
        var _ := DeleteSession(id);
        return null;
      }
      ss.sessionId := id;
    }

    /** `Exists(sessionId)`: whether the driver retrieves a record; no expiry or IP check. */
    method Exists(id: string) returns (b: bool)
      modifies this`driver
      ensures driver == old(ActiveDriver())
      ensures b <==> driver.online && id in driver.records
    {
      Driver([]);
      var data := driver.Retrieve(id);
      b := data.Some?;
    }

    /** `deleteSession(sessionId)`: removes the record through the bound driver. */
    method DeleteSession(id: string) returns (ok: bool)
      requires driver != null
      modifies driver`records
      ensures ok == driver.online
      ensures driver.records == if driver.online then old(driver.records) - {id} else old(driver.records)
    {
      ok := driver.Remove(id);
    }

    /**
      `createSession(sessionId...)`: a fresh session under the one non-empty id given,
      or else under a generated id, flushed through the driver.
     */
    method CreateSession(ids: seq<string>, now: int64, clientAddr: string) returns (ss: SessionStore)
      requires driver != null
      modifies this`idGen, this`serializer, driver`records
      ensures fresh(ss) && ss.session == this
      ensures |ids| == 1 && ids[0] != "" ==> ss.sessionId == ids[0] && idGen == old(idGen)
      ensures !(|ids| == 1 && ids[0] != "") ==>
                (old(BoundId()) == Md5 ==> IsMd5Id(ss.sessionId)) && idGen == Some(old(BoundId()))
      ensures serializer == Some(old(BoundSerializer()))
      ensures ss.params == FreshParams(ss.sessionId, now, config.expireSeconds, clientAddr)
      ensures driver.records == Persisted(serializer.value, old(driver.records), driver.online,
                                          ss.sessionId, ss.params)
    {
      ss := new SessionStore(this);
      if |ids| == 1 && ids[0] != "" {
        ss.sessionId := ids[0];
      } else {
        ss.sessionId := GenerateSessionId();
      }
      ss.params := map[];
      var _ := ss.ParamInt64(CTimeKey, [now]);
      var _ := ss.ParamInt64(ATimeKey, [now]);
      var _ := ss.ParamInt64(ETimeKey, [config.expireSeconds]);
      if clientAddr != "" {
        var _ := ss.ParamString(RemoteAddrKey, [clientAddr]);
      }
      var _ := ss.ParamString(IdKey, [ss.sessionId]);
      ghost var initial := FreshParams(ss.sessionId, now, config.expireSeconds, clientAddr);
      assert ss.params == initial;
      assert initial[ATimeKey := I64(now)] == initial;
      var _ := ss.Flush(now);
    }

    /**
      The rotation step of `New`: removes the record under `oldId`, rebinds `ss` to
      `newId`, resets the three times and flushes, keeping every other parameter.
     */
    method Rotate(ss: SessionStore, oldId: string, newId: string, now: int64)
      requires driver != null && ss.session == this
      modifies ss`sessionId, ss`params, this`serializer, driver`records
      ensures ss.sessionId == newId
      ensures ss.params == Rotated(old(ss.params), now, config.expireSeconds)
      ensures serializer == Some(old(BoundSerializer()))
      ensures driver.records == Persisted(serializer.value,
                                          if driver.online then old(driver.records) - {oldId} else old(driver.records),
                                          driver.online, newId, ss.params)
    {
      var _ := DeleteSession(oldId);
      ss.sessionId := newId;
      var _ := ss.ParamInt64(CTimeKey, [now]);
      var _ := ss.ParamInt64(ATimeKey, [now]);
      var _ := ss.ParamInt64(ETimeKey, [config.expireSeconds]);
      ghost var rotated := Rotated(old(ss.params), now, config.expireSeconds);
      assert ss.params == rotated;
      assert rotated[ATimeKey := I64(now)] == rotated;
      var _ := ss.Flush(now);
    }

    /**
      `New(sessionId...)`: no id creates a session under a generated id. With ids
      `x` (and optionally `y`, else `y` is `x`): when `Load(x)` fails, a session is
      created under `y` (generated if `y` is empty); when it succeeds and `y != x`,
      the record under `x` is removed and the loaded parameters move to `y` with
      reset times and are flushed.
     */
    method New(ids: seq<string>, now: int64, clientAddr: string) returns (ss: SessionStore)
      requires |ids| > 0 ==> LoadCheckable(BoundSerializer(), ActiveDriver().records, ActiveDriver().online,
                                           ids[0], config.ipMatch, clientAddr)
      modifies this`driver, this`idGen, this`serializer, ActiveDriver()`records
      ensures fresh(ss) && ss.session == this
      ensures driver == old(ActiveDriver())
      ensures serializer == Some(old(BoundSerializer()))
      ensures |ids| == 0 ==>
                && (old(BoundId()) == Md5 ==> IsMd5Id(ss.sessionId)) && idGen == Some(old(BoundId()))
                && ss.params == FreshParams(ss.sessionId, now, config.expireSeconds, clientAddr)
                && driver.records == Persisted(old(BoundSerializer()), old(ActiveDriver().records),
                                               driver.online, ss.sessionId, ss.params)
      ensures |ids| > 0 ==>
                var x := ids[0];
                var y := if |ids| == 2 then ids[1] else ids[0];
                var kind := old(BoundSerializer());
                var rec := old(ActiveDriver().records);
                var o := Lookup(kind, rec, driver.online, x, config.ipMatch, clientAddr, now);
                && (o.Valid? && y == x ==>
                      ss.sessionId == x && ss.params == o.params && driver.records == rec)
                && (o.Valid? && y != x ==>
                      && ss.sessionId == y
                      && ss.params == Rotated(o.params, now, config.expireSeconds)
                      && driver.records == Persisted(kind, rec - {x}, true, y, ss.params))
                && (o.Valid? ==> idGen == old(idGen))
                && (!o.Valid? ==>
                      && (y != "" ==> ss.sessionId == y && idGen == old(idGen))
                      && (y == "" ==> (old(BoundId()) == Md5 ==> IsMd5Id(ss.sessionId)) && idGen == Some(old(BoundId())))
                      && ss.params == FreshParams(ss.sessionId, now, config.expireSeconds, clientAddr)
                      && driver.records == Persisted(kind, if o.Rejected? then rec - {x} else rec,
                                                     driver.online, ss.sessionId, ss.params))

    {
      ghost var kind := BoundSerializer();
      ghost var rec := ActiveDriver().records;
      Driver([]);
      if |ids| > 0 {
        var newSessionId := if |ids| == 2 then ids[1] else ids[0];
        ghost var o := Lookup(kind, rec, driver.online, ids[0], config.ipMatch, clientAddr, now);
        var loaded := Load(ids[0], now, clientAddr);
        if loaded == null {
          assert !o.Valid?;
          ss := CreateSession([newSessionId], now, clientAddr);
        } else {
          assert o.Valid? && loaded.params == o.params;
          ss := loaded;
          if newSessionId != ids[0] {
            Rotate(ss, ids[0], newSessionId, now);
          }
        }
      } else {
        ss := CreateSession([], now, clientAddr);
      }
    }
  }

  class SessionStore {
    const session: CGISession
    var sessionId: string
    var params: Params

    constructor (session: CGISession)
      ensures this.session == session && sessionId == "" && params == map[]
    {
      this.session := session;
      sessionId := "";
      params := map[];
    }

    /**
      `ParamInt64(name, value...)`: with one value, stores it; then reads the key
      through the int64 coercion ladder.
     */
    method ParamInt64(name: string, values: seq<int64>) returns (r: int64)
      requires |values| == 1 || ReadsAsInt64(params, name)
      modifies this`params
      ensures params == if |values| == 1 then old(params)[name := I64(values[0])] else old(params)
      ensures r == Int64Param(params, name)
      ensures |values| == 1 ==> r == values[0]
    {
      if |values| == 1 {
        params := params[name := I64(values[0])];
      }
      if name !in params || params[name].Nil? {
        r := 0;
      } else if params[name].I64? {
        r := params[name].i;
      } else {
        r := Strconv.ParseInt(params[name].s).0;
      }
    }

    /** `ParamString(name, value...)`: with one value, stores it; then reads the key. */
    method ParamString(name: string, values: seq<string>) returns (r: string)
      requires |values| == 1 || ReadsAsString(params, name)
      modifies this`params
      ensures params == if |values| == 1 then old(params)[name := Str(values[0])] else old(params)
      ensures r == StringParam(params, name)
      ensures |values| == 1 ==> r == values[0]
    {
      if |values| == 1 {
        params := params[name := Str(values[0])];
      }
      if name !in params || params[name].Nil? {
        r := "";
      } else {
        r := params[name].s;
      }
    }

    /** `GetParam(name)`: the stored value, or nil when the key is absent. */
    method GetParam(name: string) returns (r: Value)
      ensures name in params ==> r == params[name]
      ensures name !in params ==> r == Nil
    {
      if name in params {
        r := params[name];
      } else {
        r := Nil;
      }
    }

    /** `SetParam(name, value)`: stores any value under the key (its error result is always nil). */
    method SetParam(name: string, value: Value)
      modifies this`params
      ensures params == old(params)[name := value]
    {
      params := params[name := value];
    }

    /** `ClearParam(name)`: removes the key and nothing else; removing an absent key changes nothing. */
    method ClearParam(name: string)
      modifies this`params
      ensures params == old(params) - {name}
    {
      params := params - {name};
    }

    /**
      `Flush()`: stamps `_SESSION_ATIME` with `now`, freezes the map and stores it
      under the session id; false when freezing or storing fails, and a failed freeze
      leaves the store untouched.
     */
    method Flush(now: int64) returns (ok: bool)
      requires session.driver != null
      modifies this`params, session`serializer, session.driver`records
      ensures params == old(params)[ATimeKey := I64(now)]
      ensures session.serializer == Some(old(session.BoundSerializer()))
      ensures ok == (Encodable(params) && session.driver.online)
      ensures session.driver.records == Persisted(session.serializer.value, old(session.driver.records),
                                                  session.driver.online, sessionId, params)
    {
      var _ := ParamInt64(ATimeKey, [now]);
      var data := session.Freeze(params);
      if data.None? {
        return false;
      }
      ok := session.driver.Store(sessionId, data.value);
    }
  }
}
