/** Values exchanged with the SimPRO server and the error kinds the client
    can raise.

    A server record is a JSON object: a map from attribute names to JSON
    values. Python exceptions become the `Error` alternatives of a `Result`.
 */
module Values {

  /** A JSON value as decoded by the client (floating-point numbers are not
      modelled). */
  datatype Value =
    | Null
    | Bool(b: bool)
    | Int(i: int)
    | Str(s: string)
    | List(items: seq<Value>)
    | Dict(fields: map<string, Value>)

  /** A decoded JSON object: one server record or one request body. */
  type Record = map<string, Value>

  datatype Option<+T> = None | Some(value: T)

  /** The exceptions the modelled code raises or lets through. */
  datatype Error =
    | HttpError(status: int)         // raise_for_status on a response that is not ok
    | TransportError(reason: string) // any other exception from the HTTP library
    | KeyError(key: string)          // dict.pop / dict[...] of a missing key
    | AttributeError(name: string)   // a method looked up on a value that lacks it
    | UnsupportedId                  // a record whose "ID" is not an integer
    | JobRecordCreationError         // the site retry loop gave up

  datatype Result<+T> = Ok(value: T) | Err(error: Error) {
    function PropagateFailure<U>(): Result<U>
      requires Err?
    {
      Err(error)
    }
  }

  /** The set of elements of a sequence. */
  function Elements<T>(xs: seq<T>): set<T>
  {
    set x | x in xs
  }

  /** No element occurs twice. */
  predicate NoDuplicates<T(==)>(xs: seq<T>) {
    forall i, j :: 0 <= i < j < |xs| ==> xs[i] != xs[j]
  }

  /** A duplicate-free sequence has as many elements as its element set. */
  lemma {:induction false} DistinctCardinality<T>(xs: seq<T>)
    requires NoDuplicates(xs)
    ensures |Elements(xs)| == |xs|
  {
    if |xs| > 0 {
      var rest := xs[1..];
      assert NoDuplicates(rest) by {
        forall i, j | 0 <= i < j < |rest|
          ensures rest[i] != rest[j]
        {
          assert rest[i] == xs[i + 1] && rest[j] == xs[j + 1];
        }
      }
      DistinctCardinality(rest);
      assert xs[0] !in Elements(rest) by {
        forall i | 0 <= i < |rest|
          ensures rest[i] != xs[0]
        {
          assert rest[i] == xs[i + 1];
        }
      }
      assert Elements(xs) == {xs[0]} + Elements(rest) by {
        assert xs == [xs[0]] + rest;
      }
    }
  }
}
