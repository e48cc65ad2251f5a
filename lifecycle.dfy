/**
  The session lifecycle as functions of the store's contents: the validity
  predicates a `SessionStore` evaluates, what `Load` decides for a stored record,
  the parameters a fresh or rotated session holds, and what a flush leaves in the
  store. The methods of `CgiSession` are proved to follow these definitions.
 */
module Lifecycle {
  import opened Wrappers
  import opened GoInt
  import opened Params
  import opened Serializers
  import opened Drivers

  /**
    `IsExpired`: `ATIME + ETIME <= now`, the sum taken in wrapping int64 arithmetic.
    Without overflow it is the plain comparison, so a session is already expired at
    `now == ATIME + ETIME`.
   */
  function IsExpired(m: Params, now: int64): (r: bool)
    requires ReadsAsInt64(m, ATimeKey) && ReadsAsInt64(m, ETimeKey)
    ensures AddFits(Int64Param(m, ATimeKey), Int64Param(m, ETimeKey)) ==>
              (r <==> Int64Param(m, ATimeKey) as int + Int64Param(m, ETimeKey) as int <= now as int)
  {
    WrapAdd(Int64Param(m, ATimeKey), Int64Param(m, ETimeKey)) <= now
  }

  /**
    `IPMatches`: true when IP matching is off or the client address is unknown,
    otherwise exactly when the stored `_SESSION_REMOTE_ADDR` is the client address.
   */
  function IPMatches(m: Params, ipMatch: bool, clientAddr: string): (r: bool)
    requires ipMatch && clientAddr != "" ==> ReadsAsString(m, RemoteAddrKey)
    ensures r <==> !ipMatch || clientAddr == "" ||
                   (RemoteAddrKey in m && m[RemoteAddrKey] == Str(clientAddr))
  {
    !ipMatch || clientAddr == "" || StringParam(m, RemoteAddrKey) == clientAddr
  }

  /** The validity checks of `Load` can read the reserved keys of `m` they consult. */
  predicate Checkable(m: Params, ipMatch: bool, clientAddr: string) {
    && (ipMatch && clientAddr != "" ==> ReadsAsString(m, RemoteAddrKey))
    && (IPMatches(m, ipMatch, clientAddr) ==> ReadsAsInt64(m, ATimeKey) && ReadsAsInt64(m, ETimeKey))
  }

  /** A `Load` of `id` runs its checks only on a map they can read. */
  predicate LoadCheckable(kind: SerializerKind, rec: Records, online: bool, id: string,
                          ipMatch: bool, clientAddr: string) {
    online && id in rec && Thaw(kind, rec[id]).Some? ==>
      Checkable(Thaw(kind, rec[id]).value, ipMatch, clientAddr)
  }

  /**
    What `Load` finds: nothing (no record, backend down, undecodable payload), a
    record it rejects and removes (IP mismatch or expired), or a valid session.
   */
  datatype LoadOutcome = NotFound | Rejected | Valid(params: Params)

  function Lookup(kind: SerializerKind, rec: Records, online: bool, id: string,
                  ipMatch: bool, clientAddr: string, now: int64): (o: LoadOutcome)
    requires LoadCheckable(kind, rec, online, id, ipMatch, clientAddr)
    ensures o != NotFound ==> online && id in rec && Thaw(kind, rec[id]).Some?
    ensures o.Valid? ==> Thaw(kind, rec[id]) == Some(o.params)
                         && IPMatches(o.params, ipMatch, clientAddr)
                         && !IsExpired(o.params, now)
    ensures o.Rejected? <==>
              (&& online && id in rec && Thaw(kind, rec[id]).Some?
               && (|| !IPMatches(Thaw(kind, rec[id]).value, ipMatch, clientAddr)
                   || IsExpired(Thaw(kind, rec[id]).value, now)))
    ensures o.Valid? <==>
              (&& online && id in rec && Thaw(kind, rec[id]).Some?
               && IPMatches(Thaw(kind, rec[id]).value, ipMatch, clientAddr)
               && !IsExpired(Thaw(kind, rec[id]).value, now))
  {
    if !online || id !in rec then NotFound
    else
      match Thaw(kind, rec[id])
      case None => NotFound
      case Some(m) =>
        if !IPMatches(m, ipMatch, clientAddr) || IsExpired(m, now) then Rejected else Valid(m)
  }

  /**
    The store after a flush of `m` under `sid`: written when it freezes and the
    backend is up, so that it thaws back to `m`; every other record is untouched.
   */
  function Persisted(kind: SerializerKind, rec: Records, online: bool, sid: string, m: Params): (r: Records)
    ensures forall k :: k != sid ==> (k in r <==> k in rec) && (k in r ==> r[k] == rec[k])
    ensures sid in r <==> sid in rec || (online && Freeze(kind, m).Some?)
    ensures online && Freeze(kind, m).Some? ==> Thaw(kind, r[sid]) == Some(m)
    ensures !online || Freeze(kind, m).None? ==> r == rec
  {
    match Freeze(kind, m)
    case None => rec
    case Some(p) => if online then rec[sid := p] else rec
  }

  /**
    The map `createSession` builds for session `sid` at time `now`: exactly
    CTIME = ATIME = now, ETIME, its id, and the client address when one is known.
   */
  function FreshParams(sid: string, now: int64, etime: int64, clientAddr: string): (m: Params)
    ensures m.Keys == TimeKeys + {IdKey} + (if clientAddr != "" then {RemoteAddrKey} else {})
    ensures m[CTimeKey] == I64(now) && m[ATimeKey] == I64(now) && m[ETimeKey] == I64(etime)
    ensures m[IdKey] == Str(sid)
    ensures clientAddr != "" ==> m[RemoteAddrKey] == Str(clientAddr)
    ensures Encodable(m)
  {
    var times := map[CTimeKey := I64(now), ATimeKey := I64(now), ETimeKey := I64(etime)];
    var bound := if clientAddr != "" then times[RemoteAddrKey := Str(clientAddr)] else times;
    bound[IdKey := Str(sid)]
  }

  /**
    The map a rotation carries to the new id: it keeps every key and every value
    except the three times, which become now, now and the TTL; in particular
    `_SESSION_ID` keeps the old id.
   */
  function Rotated(m: Params, now: int64, etime: int64): (r: Params)
    ensures r.Keys == m.Keys + TimeKeys
    ensures r[CTimeKey] == I64(now) && r[ATimeKey] == I64(now) && r[ETimeKey] == I64(etime)
    ensures forall k :: k in m && k !in TimeKeys ==> r[k] == m[k]
    ensures Encodable(m) ==> Encodable(r)
  {
    m[CTimeKey := I64(now)][ATimeKey := I64(now)][ETimeKey := I64(etime)]
  }

  /**
    A fresh session is not expired while `now < ATIME + ETIME` and expired from the
    instant `now == ATIME + ETIME`, so it is live at its creation exactly when the TTL
    is positive.
   */
  lemma FreshSessionExpiry(sid: string, created: int64, etime: int64, clientAddr: string, now: int64)
    requires AddFits(created, etime)
    ensures IsExpired(FreshParams(sid, created, etime, clientAddr), now) <==>
              created as int + etime as int <= now as int
    ensures !IsExpired(FreshParams(sid, created, etime, clientAddr), created) <==> etime > 0
  {
  }

  /**
    Flush then Load: a map flushed at time `t` under `sid` loads back, ATIME stamped,
    until `now` reaches `t + ETIME`, and is rejected from then on.
   */
  lemma FlushThenLoad(kind: SerializerKind, rec: Records, sid: string, m: Params, t: int64,
                      ipMatch: bool, clientAddr: string, now: int64)
    requires Encodable(m[ATimeKey := I64(t)])
    requires ReadsAsInt64(m, ETimeKey)
    requires ipMatch && clientAddr != "" ==> ReadsAsString(m, RemoteAddrKey)
    requires IPMatches(m, ipMatch, clientAddr)
    requires AddFits(t, Int64Param(m, ETimeKey))
    ensures var stamped := m[ATimeKey := I64(t)];
            var rec' := Persisted(kind, rec, true, sid, stamped);
            && LoadCheckable(kind, rec', true, sid, ipMatch, clientAddr)
            && Lookup(kind, rec', true, sid, ipMatch, clientAddr, now) ==
                 if t as int + Int64Param(m, ETimeKey) as int <= now as int then Rejected else Valid(stamped)
  {
  }

  /**
    A session created at `created` and flushed loads back for the same client until
    `created + etime`, and is rejected from then on.
   */
  lemma CreateThenLoad(kind: SerializerKind, rec: Records, sid: string, created: int64, etime: int64,
                       ipMatch: bool, clientAddr: string, now: int64)
    requires AddFits(created, etime)
    ensures var m := FreshParams(sid, created, etime, clientAddr);
            var rec' := Persisted(kind, rec, true, sid, m);
            && LoadCheckable(kind, rec', true, sid, ipMatch, clientAddr)
            && Lookup(kind, rec', true, sid, ipMatch, clientAddr, now) ==
                 if created as int + etime as int <= now as int then Rejected else Valid(m)
  {
  }

  /**
    Rotation of a valid session from `x` to `y`: afterwards nothing is found under `x`,
    and the carried-forward map loads under `y` until `now + etime`.
   */
  lemma RotationMovesSession(kind: SerializerKind, rec: Records, x: string, y: string, m: Params,
                             rotatedAt: int64, etime: int64, ipMatch: bool, clientAddr: string, now: int64)
    requires LoadCheckable(kind, rec, true, x, ipMatch, clientAddr)
    requires Lookup(kind, rec, true, x, ipMatch, clientAddr, rotatedAt) == Valid(m)
    requires x != y
    requires Encodable(m)
    requires AddFits(rotatedAt, etime)
    ensures var r := Rotated(m, rotatedAt, etime);
            var rec' := Persisted(kind, rec - {x}, true, y, r);
            && LoadCheckable(kind, rec', true, x, ipMatch, clientAddr)
            && Lookup(kind, rec', true, x, ipMatch, clientAddr, now) == NotFound
            && LoadCheckable(kind, rec', true, y, ipMatch, clientAddr)
            && Lookup(kind, rec', true, y, ipMatch, clientAddr, now) ==
                 if rotatedAt as int + etime as int <= now as int then Rejected else Valid(r)
  {
  }

  /** A rejected record, once removed, is not found again: stale sessions are reaped. */
  lemma RejectedIsReaped(kind: SerializerKind, rec: Records, online: bool, id: string,
                         ipMatch: bool, clientAddr: string, now: int64, later: int64)
    requires LoadCheckable(kind, rec, online, id, ipMatch, clientAddr)
    requires Lookup(kind, rec, online, id, ipMatch, clientAddr, now) == Rejected
    ensures online && id in rec
    ensures LoadCheckable(kind, rec - {id}, online, id, ipMatch, clientAddr)
    ensures Lookup(kind, rec - {id}, online, id, ipMatch, clientAddr, later) == NotFound
  {
  }

  /**
    With IP matching on, a record bound to one address is rejected for a request
    from another address, whatever its times say.
   */
  lemma ForeignAddressRejected(kind: SerializerKind, rec: Records, id: string, m: Params,
                               bound: string, clientAddr: string, now: int64)
    requires id in rec && rec[id] == Frozen(m)
    requires RemoteAddrKey in m && m[RemoteAddrKey] == Str(bound)
    requires clientAddr != "" && bound != clientAddr
    ensures LoadCheckable(kind, rec, true, id, true, clientAddr)
    ensures Lookup(kind, rec, true, id, true, clientAddr, now) == Rejected
  {
  }

  /**
    The expiry sum wraps: with a TTL of the largest int64 and a positive ATIME the
    sum is negative, so such a session is expired at every non-negative time.
   */
  lemma MaximalTtlWraps(m: Params, now: int64)
    requires ReadsAsInt64(m, ATimeKey) && ReadsAsInt64(m, ETimeKey)
    requires Int64Param(m, ETimeKey) == MaxInt64 && Int64Param(m, ATimeKey) > 0
    requires now >= 0
    ensures IsExpired(m, now)
  {
  }
}
