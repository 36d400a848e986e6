/** Vocabulary shared by both services: optional values and the HTTP error a
    request handler raises to make the web framework answer with a non-2xx
    status and a JSON `detail`. */
module Http {

  datatype Option<+T> = None | Some(value: T)

  /** An error response: the status code and the `detail` text of the body. */
  datatype HttpException = HttpException(statusCode: int, detail: string)

  /** Status code the framework answers with when a handler lets an
      exception other than an HttpException escape. */
  const InternalServerError: int := 500

  /** Status code of a successful POST route without an explicit one. */
  const DefaultOk: int := 200

  /** A 2xx status: the only ones an httpx response accepts in
      `raise_for_status` without raising. */
  predicate IsSuccess(code: int)
    ensures IsSuccess(code) <==> code / 100 == 2
  {
    200 <= code < 300
  }

  /** True when `p` is a prefix of `s`. */
  predicate StartsWith(s: string, p: string) {
    |p| <= |s| && s[..|p|] == p
  }

  /** Glueing a prefix on is undone by dropping that many characters. */
  lemma DropPrefix(p: string, s: string)
    ensures StartsWith(p + s, p)
    ensures (p + s)[|p|..] == s
  {
    assert (p + s)[..|p|] == p;
  }

  /** A fixed prefix followed by the rest is an injective map of the rest. */
  lemma PrefixInjective(p: string, a: string, b: string)
    ensures p + a == p + b <==> a == b
  {
    if p + a == p + b {
      DropPrefix(p, a);
      DropPrefix(p, b);
    }
  }
}
