/** The session-id capability. */
module SessionIds {
  /**
    The id strategies: the package's own `md5`, or a generator injected through
    `Id(idgen)`, of which nothing is known.
   */
  datatype IdKind = Md5 | Custom

  /** Strategy resolution by name: "md5", and the same for any unknown name. */
  function ResolveId(name: string): (k: IdKind)
    ensures k == Md5
  {
    if name == "md5" then Md5 else Md5
  }

  predicate IsLowerHex(c: char) {
    '0' <= c <= '9' || 'a' <= c <= 'f'
  }

  /** The shape of an MD5 digest printed with `%x`: 32 lower-case hex digits. */
  predicate IsMd5Id(s: string) {
    |s| == 32 && forall i :: 0 <= i < |s| ==> IsLowerHex(s[i])
  }

  /**
    `Generate()`: the md5 strategy hashes the process id, the clock and a random
    number; the model keeps only the shape of the digest and chooses which digest it
    is freely. An injected generator may return any string, the empty one included.
   */
  method Generate(kind: IdKind) returns (id: string)
    ensures kind == Md5 ==> IsMd5Id(id)
  {
    match kind
    case Md5 =>
      var zeros := seq(32, _ => '0');
      assert IsMd5Id(zeros);
      id :| IsMd5Id(id);
    case Custom =>
      id :| true;
  }
}
