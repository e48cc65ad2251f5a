# go-cgi-session: the session lifecycle, modelled and proved in Dafny

This project models the core of go-cgi-session (`session.go`). It is a session
manager for CGI-style programs, where nothing stays in memory between requests. Each
request rebuilds its session from an external store.

- `CGISession`, the manager, binds three capabilities lazily and at most once: a
  driver (the external key-value store), a serializer (`Freeze`/`Thaw`) and an id
  generator. An unknown strategy name binds the default strategy.
- `SessionStore` holds one session's id and its parameter map. It has get-or-set
  typed accessors, with an int64 coercion ladder. It also has untyped
  `GetParam`/`SetParam`/`ClearParam`, and `Flush`.
- The lifecycle methods are `New`, `Load`, `createSession`, `Exists` and
  `deleteSession`. They create sessions under supplied or generated ids and load
  them with fail-closed validation. `Load` removes a record whose address does not
  match or that has expired. `New` rotates a loaded session to a new id.

Files and modules:

- `goint.dfy` (`GoInt`): Go's `int64` and its wrapping `+`.
- `strconv.dfy` (`Strconv`): `strconv.ParseInt(s, 10, 64)`, as the accessor uses it, and `FormatInt`, its inverse.
- `params.dfy` (`Params`): parameter values, the reserved `_SESSION_*` keys, and what the read accessors return.
- `serializers.dfy`, `sessionids.dfy`, `drivers.dfy`: the three capabilities.
- `lifecycle.dfy` (`Lifecycle`): the lifecycle as functions of the store's contents (`Lookup`, `FreshParams`, `Rotated`, `Persisted`, `IsExpired`, `IPMatches`), with the lemmas that relate them.
- `session.dfy` (`CgiSession`): the classes `CGISession` and `SessionStore`. Their methods change fields in place, as the Go code does. `Load`, `createSession`, the rotation in `New` and `Flush` are proved against the `Lifecycle` functions; the accessors and the binding methods state their new fields directly.
- `scenarios.dfy` (`Scenarios`): client code that relies only on the contracts.

Environment inputs become parameters. `now` is the Unix time that `time.Now().Unix()`
would give. `clientAddr` is the `REMOTE_ADDR` environment variable. A Go variadic
argument becomes a sequence, so the arity rules hold exactly: one value sets a
parameter; `New` with two ids rotates, and with any other non-zero count it uses the
first id.

Behaviours of `session.go` that the model keeps:

- After a failed `Load`, `New(x)` with a non-empty `x` creates the fresh session under `x` itself (session.go:153-158, 219). It does not generate a new id; for `x == ""` one is generated.
- `New(x)` and `New(x, x)` do not flush when `Load(x)` succeeds.
- A rotation carries every parameter forward. It leaves `_SESSION_ID` holding the old id.
- `_SESSION_ATIME + _SESSION_ETIME` is an int64 sum that wraps. `MaximalTtlWraps` shows that with a TTL of the largest int64, a session whose ATIME is positive is expired at every non-negative time.

## Model

| member | source | states |
|---|---|---|
| GoInt.WrapAdd | session.go:341 | the int64 sum equals the mathematical sum when it fits, and is congruent to it modulo 2^64 |
| Strconv.ParseInt | session.go:281-283 | no error only for an optional sign followed by at least one decimal digit and nothing else; a range error only when at least 19 decimal digits follow the sign, so an empty rest or a non-digit among its first 19 characters is a syntax error; a syntax error yields 0; a range error yields MinInt64 when the text starts with '-' and MaxInt64 otherwise |
| Strconv.ParseIntOverflow | session.go:281-283 | every spelling of a magnitude of 2^63 or more (more than 2^63 after '-'), leading zeros allowed, is a range error yielding the bound of its sign |
| Strconv.ParseIntSpellings | session.go:281-283 | leading zeros after any sign, and a leading '+' on a non-negative number, parse to the same int64 with no error; "-0" and "-00" parse to 0 |
| Strconv.ParseFormatInt | session.go:281-283 | parsing the decimal spelling of any int64 gives that int64 and no error |
| Params.Int64Param | session.go:276-288 | an absent or nil key reads as 0, an int64 as itself, an unparsable string as 0, and an out-of-range string as the int64 bound of its sign |
| Params.StringParam | session.go:317-320 | a string value reads as itself; a non-empty result is exactly the stored string; absent or nil reads as "" |
| Params.Int64Ladder | session.go:271-289 | ParamInt64 reads an absent or nil key as 0, an int64 as itself, its decimal string as the same number, and an unparsable string as 0 |
| Serializers.ThawFreeze | session.go:116-129 | Freeze fails exactly when a value is unencodable, and Thaw of a frozen map gives the map back |
| Serializers.ResolveSerializer | session.go:106-111 | every serializer name, "datadumper" or unknown, resolves to datadumper |
| SessionIds.ResolveId | session.go:86-91 | every id strategy name, "md5" or unknown, resolves to md5 |
| SessionIds.Generate | id/md5.go:19-23 | an id from the md5 strategy is 32 lower-case hex digits; an injected generator's is unconstrained |
| Drivers.MapDriver.Store | session.go:45 | the payload is written under the key iff the backend is up, and the result reports that |
| Drivers.MapDriver.Retrieve | session.go:44 | returns the stored payload; fails when the key is absent or the backend is down |
| Drivers.MapDriver.Remove | session.go:46 | the key is gone afterwards when the backend is up; nothing else changes |
| Lifecycle.IsExpired | session.go:340-345 | without overflow, expired iff ATIME + ETIME <= now (already expired at equality) |
| Lifecycle.IPMatches | session.go:242-259 | true iff IP matching is off, the client address is empty, or the stored REMOTE_ADDR is that address |
| Lifecycle.Lookup | session.go:177-202 | valid, with the decoded map, iff the backend is up and the record exists, decodes, matches the address and has not expired; rejected iff the record decodes and fails the address or expiry check |
| Lifecycle.Persisted | session.go:328-337 | when the backend is up and the map freezes, the record under the id thaws back to the map; otherwise the store is unchanged; other ids are never touched |
| Lifecycle.FreshParams | session.go:224-232 | a fresh map holds exactly CTIME = ATIME = now, ETIME = TTL, ID, and REMOTE_ADDR only for a non-empty client address |
| Lifecycle.Rotated | session.go:164-167 | rotation keeps every key and value except the three times, which become now, now and the TTL |
| Lifecycle.FreshSessionExpiry | session.go:340-345 | when CTIME + TTL fits in an int64, a fresh session is expired at time t iff CTIME + TTL <= t, and it is live at creation iff the TTL is positive |
| Lifecycle.FlushThenLoad | session.go:327-338 | when t + ETIME fits in an int64 and the map matches the client's address, a map flushed at t loads back (ATIME = t) while now < t + ETIME, and is rejected from then on |
| Lifecycle.CreateThenLoad | session.go:217-235 | when CTIME + TTL fits in an int64, a created and flushed session loads back for the same client until CTIME + TTL, and is rejected after |
| Lifecycle.RotationMovesSession | session.go:159-169 | when now + TTL fits in an int64, after rotating x to y nothing is found under x, and the carried map loads under y until now + TTL |
| Lifecycle.RejectedIsReaped | session.go:188-196 | a record Load rejects existed, and once removed it is not found again |
| Lifecycle.ForeignAddressRejected | session.go:188-192 | with IP matching on, a record bound to another address is rejected whatever its times |
| Lifecycle.MaximalTtlWraps | session.go:341 | with ETIME the largest int64 and ATIME positive, the wrapped sum makes the session expired at every non-negative time |
| CgiSession.DefaultConfig | session.go:76 | the default configuration: md5 ids, datadumper, a TTL of 86400 seconds, IP matching off, the memcached backend |
| CgiSession.CGISession.constructor | session.go:71-79 | one configuration is used as given, any other count selects the default; no capability is bound |
| CgiSession.CGISession.Id | session.go:81-94 | binds the injected or named id strategy only when none is bound; unknown names fall back to md5 |
| CgiSession.CGISession.Serializer | session.go:101-114 | binds the injected or named serializer only when none is bound; unknown names fall back to datadumper |
| CgiSession.CGISession.Driver | session.go:131-144 | binds the injected or configured driver only when none is bound |
| CgiSession.CGISession.GenerateSessionId | session.go:96-99 | binds the id strategy and returns its id, 32 lower-case hex digits under md5 |
| CgiSession.CGISession.Thaw | session.go:116-123 | binds the serializer and decodes with it |
| CgiSession.CGISession.Freeze | session.go:125-129 | binds the serializer and encodes with it |
| CgiSession.CGISession.Load | session.go:177-202 | null unless Lookup is valid; a valid outcome gives a new store bound to the id with the decoded map; the record is removed exactly when rejected; the serializer is bound only when a record was retrieved |
| CgiSession.CGISession.Exists | session.go:204-211 | true iff the driver holds a record under the id and is up; no expiry or address check |
| CgiSession.CGISession.DeleteSession | session.go:213-215 | removes the record under the id through the bound driver |
| CgiSession.CGISession.CreateSession | session.go:217-235 | uses the single non-empty id given or else a generated one (md5-shaped under md5); the map is FreshParams, and the store holds it under the id when the flush succeeds |
| CgiSession.CGISession.Rotate | session.go:160-169 | removes the old record, rebinds the store to the new id with rotated times, and flushes under the new id |
| CgiSession.CGISession.New | session.go:147-175 | no id: fresh session under a generated id; otherwise Load, then either the loaded session, its rotation to the second id, or a fresh session under the target id, with the store stated exactly in each case |
| CgiSession.SessionStore.constructor | session.go:65-69 | a store of the manager with an empty id and an empty map |
| CgiSession.SessionStore.ParamInt64 | session.go:271-289 | one value is stored and returned; without a value the map is unchanged and the ladder's reading is returned |
| CgiSession.SessionStore.ParamString | session.go:313-321 | one value is stored and returned; without a value the map is unchanged and the string or "" is returned |
| CgiSession.SessionStore.GetParam | session.go:291-296 | the stored value, or nil for an absent key |
| CgiSession.SessionStore.SetParam | session.go:298-301 | the key maps to the value afterwards and no other key changes |
| CgiSession.SessionStore.ClearParam | session.go:323-325 | removes only the named key; an absent key leaves the map unchanged |
| CgiSession.SessionStore.Flush | session.go:327-338 | ATIME := now; true iff freezing and storing succeed; the store then holds the map under the session id and is untouched otherwise |
| Scenarios.FlushThenLoadScenario | session.go:147-202 | New(), set user, Flush, Load by the id returns the five expected parameters with ATIME the flush time |
| Scenarios.ExpiredSelfHealScenario | session.go:153-158 | New(x) on an expired record returns a fresh session under x itself, and the store then holds exactly that fresh record |

## Left out

- Floating point: `ParamFloat64` and the `float64` truncation branch of `ParamInt64` (session.go:284-285, 303-311) are not modelled, and values have no float kind.
- `ParamInt` (session.go:261-269) is not modelled. It has no coercion ladder: it reads 0 for an absent or nil key, and its `.(int)` type assertion panics on anything else. That includes an int64 or a decimal string, which `ParamInt64` reads. The model's values have no Go `int` kind to tell the two apart.
- Failed type assertions in the accessors panic in Go. They become preconditions: `ReadsAsInt64` and `ReadsAsString` on the keys actually read. `Load` and `New` require them of the stored record they check (`LoadCheckable`).
- `SessionId()` (session.go:237-239) only reads a field, so the model reads `sessionId` directly.
- The memcached driver (drivers/memcached.go) is not part of this model. `MapDriver` follows the driver interface and reports an offline backend as an error. The memcached `Store` and `Remove` ignore client errors instead.
- The JSON codec (serializers/data_dumper.go) is not part of this model. `Freeze`/`Thaw` are an identity codec that fails on unencodable values or undecodable bytes. The drift of integers to floats through JSON is not modelled. A payload that decodes to something other than a map (session.go:122) makes Go's type assertion panic; the model treats it as undecodable, so `Load` finds nothing and `New` creates a fresh session.
- `CgiSession.CGISession.Serializer`: an injected serializer can only be the package's own datadumper strategy, since the model has one serializer kind. Custom serializers are not modelled.
- `SessionIds.Generate`: an injected id generator (`Custom`) may return any string; the model promises nothing about it.
- The md5 id generator (id/md5.go) is not part of this model. `Generate` chooses any id of the digest's shape. Uniqueness and unguessability are not modelled.
- The beego provider (beegoSessionProvider/sess_cgi.go) is not part of this model.
- Log output is not modelled, and neither are the driver, id and serializer configuration blobs, beyond naming the backend.
- The clock: the source reads `time.Now()` again inside `createSession`, `New`, `Flush`, `IsExpired` (session.go:341) and the md5 generator (id/md5.go:20). The model takes one `now` per call.
- The backend's availability (`MapDriver.online`) is fixed for the length of a call, so each of `Load`'s and `New`'s driver calls succeeds or fails together. A failure between `Retrieve` and `Remove`, or between `Remove` and `Store`, is not modelled. Go ignores the results of `deleteSession` (session.go:162, 190, 195) and of `Flush` (session.go:168, 233). So `Load`'s "removed exactly when rejected" and rotation's "nothing is found under x" hold only while the backend stays up.
- Concurrency is not modelled, and neither is last-write-wins between concurrent requests on the same id.
- `CgiSession.CGISession.Rotate` is the rotation branch of `New` (session.go:160-169) as a separate method. Go has no such method.
- `SetParam` always returns a nil error, and `deleteSession` returns `(bool, error)`. The model drops the nil error and keeps the bool.
