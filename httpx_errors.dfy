/** The exception classes that can reach the `except` clauses of the order
    handler, with the class hierarchy of the httpx client library, and the
    first-match semantics of a Python `try`/`except` chain.

    The hierarchy is the one httpx documents:
      Exception
        ValueError > JSONDecodeError
        InvalidURL
        HTTPError
          RequestError
            TransportError
              TimeoutException > ConnectTimeout, ReadTimeout, WriteTimeout, PoolTimeout
              NetworkError     > ConnectError, ReadError, WriteError, CloseError
              ProtocolError    > LocalProtocolError, RemoteProtocolError
              ProxyError
              UnsupportedProtocol
            DecodingError
            TooManyRedirects
          HTTPStatusError
*/
module Httpx {
  import opened Http

  datatype ExcClass =
    | Exception
    | ValueError | JSONDecodeError
    | InvalidURL
    | HTTPError
    | RequestError
    | TransportError
    | TimeoutException | ConnectTimeout | ReadTimeout | WriteTimeout | PoolTimeout
    | NetworkError | ConnectError | ReadError | WriteError | CloseError
    | ProtocolError | LocalProtocolError | RemoteProtocolError
    | ProxyError | UnsupportedProtocol
    | DecodingError | TooManyRedirects
    | HTTPStatusError

  /** Distance from the root class `Exception`. */
  function Depth(c: ExcClass): nat {
    match c
    case Exception => 0
    case ValueError | InvalidURL | HTTPError => 1
    case JSONDecodeError | RequestError | HTTPStatusError => 2
    case TransportError | DecodingError | TooManyRedirects => 3
    case TimeoutException | NetworkError | ProtocolError | ProxyError | UnsupportedProtocol => 4
    case _ => 5
  }

  /** The direct base class; `Exception` is the root of this model. */
  function Parent(c: ExcClass): (p: Option<ExcClass>)
    ensures p.None? <==> c == Exception
    ensures p.Some? ==> Depth(p.value) + 1 == Depth(c)
  {
    match c
    case Exception => None
    case ValueError | InvalidURL | HTTPError => Some(Exception)
    case JSONDecodeError => Some(ValueError)
    case RequestError | HTTPStatusError => Some(HTTPError)
    case TransportError | DecodingError | TooManyRedirects => Some(RequestError)
    case TimeoutException | NetworkError | ProtocolError | ProxyError | UnsupportedProtocol => Some(TransportError)
    case ConnectTimeout | ReadTimeout | WriteTimeout | PoolTimeout => Some(TimeoutException)
    case ConnectError | ReadError | WriteError | CloseError => Some(NetworkError)
    case LocalProtocolError | RemoteProtocolError => Some(ProtocolError)
  }

  /** `issubclass(c, d)`: `d` is `c` or one of its ancestors. */
  predicate IsSubclass(c: ExcClass, d: ExcClass)
    decreases Depth(c)
  {
    c == d || (Parent(c).Some? && IsSubclass(Parent(c).value, d))
  }

  /** Every class is a subclass of the root, and subclassing only goes up. */
  lemma {:induction false} SubclassGoesUp(c: ExcClass, d: ExcClass)
    requires IsSubclass(c, d)
    ensures Depth(d) <= Depth(c)
    ensures Depth(d) == Depth(c) ==> c == d
    decreases Depth(c)
  {
    if c != d {
      SubclassGoesUp(Parent(c).value, d);
    }
  }

  /** `issubclass` is transitive. */
  lemma {:induction false} SubclassTransitive(c: ExcClass, d: ExcClass, e: ExcClass)
    requires IsSubclass(c, d) && IsSubclass(d, e)
    ensures IsSubclass(c, e)
    decreases Depth(c)
  {
    if c != d {
      SubclassTransitive(Parent(c).value, d, e);
    }
  }

  /** Every httpx timeout is also a RequestError: an `except RequestError`
      placed first would swallow timeouts. */
  lemma TimeoutIsRequestError(c: ExcClass)
    requires IsSubclass(c, TimeoutException)
    ensures IsSubclass(c, RequestError)
    ensures !IsSubclass(c, HTTPStatusError)
  {
    assert IsSubclass(TimeoutException, RequestError);
    SubclassTransitive(c, TimeoutException, RequestError);
    if IsSubclass(c, HTTPStatusError) {
      SubclassGoesUp(c, HTTPStatusError);
      SubclassGoesUp(c, TimeoutException);
      assert !IsSubclass(TimeoutException, HTTPStatusError);
      assert false;
    }
  }

  /** Two classes met on the way up from one class are ordered: the class
      hierarchy is a tree. */
  lemma {:induction false} AncestorsOrdered(c: ExcClass, d: ExcClass, e: ExcClass)
    requires IsSubclass(c, d) && IsSubclass(c, e)
    ensures IsSubclass(d, e) || IsSubclass(e, d)
    decreases Depth(c)
  {
    if c != d && c != e {
      AncestorsOrdered(Parent(c).value, d, e);
    }
  }

  /** A request error is never a status error. */
  lemma RequestErrorIsNotStatusError(c: ExcClass)
    requires IsSubclass(c, RequestError)
    ensures !IsSubclass(c, HTTPStatusError)
  {
    if IsSubclass(c, HTTPStatusError) {
      AncestorsOrdered(c, RequestError, HTTPStatusError);
      SubclassGoesUp(RequestError, HTTPStatusError);
      SubclassGoesUp(HTTPStatusError, RequestError);
      assert false;
    }
  }

  /** A raised exception: its class, its `str()` text, and the text of the
      HTTP response it carries ("" when it carries none). */
  datatype Exc = Exc(cls: ExcClass, message: string, responseText: string)

  /** What the `detail` of an except clause appends to its fixed prefix. */
  datatype DetailSource = Nothing | ResponseText | Message

  /** `except <catches> as e: raise HTTPException(status, prefix + <source of e>)` */
  datatype ExceptClause = ExceptClause(catches: ExcClass, status: int, prefix: string, source: DetailSource)

  /** The HTTP error that a clause raises for the exception it caught. */
  function Respond(clause: ExceptClause, e: Exc): (r: HttpException)
    ensures r.statusCode == clause.status
    ensures StartsWith(r.detail, clause.prefix)
  {
    var suffix := match clause.source
      case Nothing => ""
      case ResponseText => e.responseText
      case Message => e.message;
    DropPrefix(clause.prefix, suffix);
    HttpException(clause.status, clause.prefix + suffix)
  }

  /** Index of the first clause, in source order, whose class `e` is an
      instance of; None when the exception escapes the chain. */
  function FirstMatch(clauses: seq<ExceptClause>, e: Exc): (r: Option<nat>)
    ensures r.Some? ==> r.value < |clauses| && IsSubclass(e.cls, clauses[r.value].catches)
    ensures r.Some? ==> forall j :: 0 <= j < r.value ==> !IsSubclass(e.cls, clauses[j].catches)
    ensures r.None? ==> forall j :: 0 <= j < |clauses| ==> !IsSubclass(e.cls, clauses[j].catches)
  {
    if |clauses| == 0 then None
    else if IsSubclass(e.cls, clauses[0].catches) then Some(0)
    else match FirstMatch(clauses[1..], e)
      case None => None
      case Some(k) => Some(k + 1)
  }

  /** Outcome of running an `except` chain on a raised exception. */
  datatype Caught = Handled(error: HttpException) | Escaped(exc: Exc)

  function Dispatch(clauses: seq<ExceptClause>, e: Exc): (r: Caught)
    ensures r.Escaped? ==> r.exc == e
    ensures r.Handled? <==> exists j :: 0 <= j < |clauses| && IsSubclass(e.cls, clauses[j].catches)
    ensures r.Handled? ==>
      exists j :: 0 <= j < |clauses| && IsSubclass(e.cls, clauses[j].catches)
        && (forall i :: 0 <= i < j ==> !IsSubclass(e.cls, clauses[i].catches))
        && r.error == Respond(clauses[j], e)
  {
    match FirstMatch(clauses, e)
    case None => Escaped(e)
    case Some(k) => Handled(Respond(clauses[k], e))
  }
}
