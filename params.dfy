/**
  The values a session's parameter map holds, the reserved `_SESSION_*` keys, and
  what the typed read accessors of a `SessionStore` return for a key.
 */
module Params {
  import opened GoInt
  import opened Strconv

  /**
    A parameter value: Go's `nil`, an int64, a string, any other structure the codec
    can encode (a boolean, a nested map, ...), or a Go value the codec refuses to
    encode (a channel, a function, ...). Floating-point values are not modelled.
   */
  datatype Value = Nil | I64(i: int64) | Str(s: string) | Other(tag: nat) | Unencodable(tag: nat)

  type Params = map<string, Value>

  const CTimeKey: string := "_SESSION_CTIME"
  const ATimeKey: string := "_SESSION_ATIME"
  const ETimeKey: string := "_SESSION_ETIME"
  const IdKey: string := "_SESSION_ID"
  const RemoteAddrKey: string := "_SESSION_REMOTE_ADDR"

  /** The time-keeping keys, which a rotation rewrites. */
  const TimeKeys: set<string> := {CTimeKey, ATimeKey, ETimeKey}

  /** `ParamInt64(k)` without a value reads `m[k]` without a failed type assertion. */
  predicate ReadsAsInt64(m: Params, k: string) {
    k in m ==> m[k].Nil? || m[k].I64? || m[k].Str?
  }

  /** `ParamString(k)` without a value reads `m[k]` without a failed type assertion. */
  predicate ReadsAsString(m: Params, k: string) {
    k in m ==> m[k].Nil? || m[k].Str?
  }

  /**
    The coercion ladder of `ParamInt64` when it reads: absent or nil gives 0, an int64
    gives itself, a string gives what `strconv.ParseInt` makes of it in base 10, the
    error being ignored.
   */
  function Int64Param(m: Params, k: string): (r: int64)
    requires ReadsAsInt64(m, k)
    ensures k !in m || m[k].Nil? ==> r == 0
    ensures k in m && m[k].I64? ==> r == m[k].i
    ensures k in m && m[k].Str? && ParseInt(m[k].s).1 == ErrSyntax ==> r == 0
    ensures k in m && m[k].Str? && ParseInt(m[k].s).1 == ErrRange ==>
              r == if m[k].s != [] && m[k].s[0] == '-' then MinInt64 else MaxInt64
  {
    if k in m && m[k].I64? then m[k].i
    else if k in m && m[k].Str? then ParseInt(m[k].s).0
    else 0
  }

  /** What `ParamString` returns when it reads: absent or nil gives "". */
  function StringParam(m: Params, k: string): (r: string)
    requires ReadsAsString(m, k)
    ensures r != "" ==> k in m && m[k] == Str(r)
    ensures k in m && m[k].Str? ==> r == m[k].s
  {
    if k in m && m[k].Str? then m[k].s else ""
  }

  /**
    The rungs of the int64 ladder: an absent key reads 0, a stored int64 reads as
    itself, its decimal spelling stored as a string reads as the same number, and a
    string `ParseInt` rejects as a syntax error reads 0.
   */
  lemma Int64Ladder(m: Params, k: string, v: int64, s: string)
    ensures Int64Param(m - {k}, k) == 0
    ensures Int64Param(m[k := Nil], k) == 0
    ensures Int64Param(m[k := I64(v)], k) == v
    ensures Int64Param(m[k := Str(FormatInt(v))], k) == v
    ensures ParseInt(s).1 == ErrSyntax ==> Int64Param(m[k := Str(s)], k) == 0
  {
    ParseFormatInt(v);
  }
}
