/**
 * Values shared by the stores and the request handlers: optional values,
 * the outcome of an operation that may throw an `Error(message)`, the
 * outcome of handing an event to the messaging service, and the shape of a
 * handler's reply.
 */
module Common {

  datatype Option<+T> = None | Some(value: T)

  /** A store operation either returns a value or throws an `Error` whose message is kept. */
  datatype Result<+T> = Ok(value: T) | Err(message: string)

  /**
   * What became of a `Lambda.invoke` or `SNS.publish` call: accepted by the
   * service, or rejected with an error message (the awaited promise rejects).
   */
  datatype Dispatch = Delivered | Failed(message: string)

  /**
   * The body of an HTTP reply before serialisation: one record, a list of
   * records, or a literal text.
   */
  datatype Body<+T> = Item(item: T) | Items(items: seq<T>) | Text(text: string)

  /**
   * What a handler's promise settles to: a reply with a status code and a
   * body, or a rejection by an exception the handler does not catch (the
   * gateway then answers with its own error).
   */
  datatype Outcome<+T> = Reply(statusCode: int, body: Body<T>) | Crash(message: string)

  /** The body of the product handlers' 400 replies: `{"message":"Bad request"}`. */
  const BadRequestJson: string := "{\"message\":\"Bad request\"}"

  /**
   * The message of DynamoDB's validation error for the key attribute `key`
   * whose value is the empty string.
   */
  function EmptyKeyValue(key: string): string
  {
    EmptyKeyPrefix + key
  }

  const EmptyKeyPrefix: string := "One or more parameter values are not valid. The AttributeValue for a key attribute cannot contain an empty string value. Key: "

  /** No element occurs twice. */
  predicate Distinct<T(==)>(s: seq<T>)
  {
    forall i, j :: 0 <= i < j < |s| ==> s[i] != s[j]
  }

  /** A sequence without repeats has as many elements as its set. */
  lemma {:induction false} DistinctCardinality<T>(s: seq<T>)
    requires Distinct(s)
    ensures |set x | x in s| == |s|
  {
    if s != [] {
      var init := s[..|s| - 1];
      assert Distinct(init);
      DistinctCardinality(init);
      assert s == init + [s[|s| - 1]];
      assert (set x | x in s) == (set x | x in init) + {s[|s| - 1]};
    }
  }

  /**
   * The keys of `m` that satisfy `keep`, each once, in an unspecified order:
   * a table scan (or a query when `keep` selects a partition).
   */
  method ScanWhere<K, V>(m: map<K, V>, keep: K -> bool) returns (keys: seq<K>)
    ensures forall k :: k in keys <==> k in m && keep(k)
    ensures Distinct(keys)
  {
    keys := [];
    var rest := m.Keys;
    while rest != {}
      invariant rest <= m.Keys
      invariant forall k :: k in keys <==> k in m.Keys - rest && keep(k)
      invariant Distinct(keys)
      decreases rest
    {
      var k :| k in rest;
      if keep(k) {
        keys := keys + [k];
      }
      rest := rest - {k};
    }
  }
}
