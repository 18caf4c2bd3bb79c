/**
 * The event relay: it receives a product event and writes one entry into the
 * event-log table, keyed by product and by event type and time, with an
 * expiry time five minutes ahead.
 */
module EventsFetch {
  import opened ProductEvents

  const TwoTo31: int := 0x8000_0000
  const TwoTo32: int := 0x1_0000_0000

  /** How long an entry lives, in seconds. */
  const TtlSeconds: int := 5 * 60

  /** The acknowledgement passed to the invocation's callback. */
  datatype Ack = Ack(productEventCreated: bool, message: string)

  datatype Info = Info(productId: string, price: int)

  datatype EventLogEntry = EventLogEntry(
    pk: string,
    sk: string,
    email: string,
    createdAt: int,
    requestId: string,
    eventType: EventType,
    info: Info,
    ttl: int)

  /**
   * JavaScript's conversion of an integer to a signed 32-bit integer, which
   * the `~` operator applies to its operand (section 7.1.6 of ECMA-262).
   */
  function ToInt32(x: int): (r: int)
    ensures -TwoTo31 <= r < TwoTo31
    ensures (x - r) % TwoTo32 == 0
    ensures -TwoTo31 <= x < TwoTo31 ==> r == x
  {
    var m := x % TwoTo32;
    if m >= TwoTo31 then m - TwoTo32 else m
  }

  function DigitChar(d: nat): (c: char)
    requires d < 10
    ensures '0' <= c <= '9'
    ensures c as int - '0' as int == d
  {
    ('0' as int + d) as char
  }

  /** The decimal text of a non-negative integer, as a template literal writes it. */
  function NatToString(n: nat): (s: string)
    ensures 1 <= |s|
    ensures forall i :: 0 <= i < |s| ==> '0' <= s[i] <= '9'
    ensures n < 10 <==> |s| == 1
  {
    if n < 10 then [DigitChar(n)] else NatToString(n / 10) + [DigitChar(n % 10)]
  }

  /** The number a string of decimal digits denotes, most significant digit first. */
  ghost function Value(s: string): int
  {
    if s == [] then 0 else 10 * Value(s[..|s| - 1]) + (s[|s| - 1] as int - '0' as int)
  }

  /**
   * The text of `n` is its decimal numeral: its digits denote `n`, and it
   * has no leading zero.
   */
  lemma {:induction false} NatToStringValue(n: nat)
    ensures Value(NatToString(n)) == n
    ensures n >= 10 ==> NatToString(n)[0] != '0'
  {
    if n >= 10 {
      var s := NatToString(n);
      NatToStringValue(n / 10);
      assert s[..|s| - 1] == NatToString(n / 10);
      assert s[|s| - 1] as int - '0' as int == n % 10;
      assert Value(s) == 10 * (n / 10) + n % 10;
      assert s[0] == NatToString(n / 10)[0];
    }
  }

  /** Different numbers have different decimal texts. */
  lemma {:induction false} NatToStringInjective(n: nat, m: nat)
    requires NatToString(n) == NatToString(m)
    ensures n == m
  {
    if n >= 10 && m >= 10 {
      var s, t := NatToString(n), NatToString(m);
      assert s[..|s| - 1] == NatToString(n / 10);
      assert t[..|t| - 1] == NatToString(m / 10);
      NatToStringInjective(n / 10, m / 10);
      assert s[|s| - 1] == DigitChar(n % 10) && t[|t| - 1] == DigitChar(m % 10);
    }
  }

  /**
   * The entry written for `event` at `timestamp` (milliseconds since the
   * epoch): partition key `#product_<code>`, sort key `<type>#<timestamp>`,
   * and the expiry `~~(timestamp / 1000) + 300` in seconds.
   */
  function CreateEvent(event: Event, timestamp: nat): (entry: EventLogEntry)
    ensures entry.pk == "#product_" + event.productCode
    ensures entry.sk == EventTypeName(event.eventType) + "#" + NatToString(timestamp)
    ensures entry.createdAt == timestamp
    ensures entry.email == event.email && entry.requestId == event.requestId
    ensures entry.eventType == event.eventType
    ensures entry.info == Info(event.productId, event.productPrice)
    ensures timestamp < TwoTo31 * 1000 ==>
      timestamp + (TtlSeconds - 1) * 1000 < entry.ttl * 1000 <= timestamp + TtlSeconds * 1000
  {
    var ttl := ToInt32(timestamp / 1000) + TtlSeconds;
    EventLogEntry(
      "#product_" + event.productCode,
      EventTypeName(event.eventType) + "#" + NatToString(timestamp),
      event.email,
      timestamp,
      event.requestId,
      event.eventType,
      Info(event.productId, event.productPrice),
      ttl)
  }

  /**
   * Before 2^31 seconds the expiry is the event time truncated to whole
   * seconds plus five minutes, so whenever the event does not fall on a
   * whole second it expires short of five minutes after it.
   */
  lemma TtlTruncates(event: Event, timestamp: nat)
    requires timestamp < TwoTo31 * 1000
    ensures CreateEvent(event, timestamp).ttl * 1000 == timestamp - timestamp % 1000 + TtlSeconds * 1000
    ensures timestamp % 1000 != 0 ==> CreateEvent(event, timestamp).ttl * 1000 < timestamp + TtlSeconds * 1000
  {
  }

  /**
   * From 2^31 seconds after the epoch (January 2038) the 32-bit conversion
   * wraps and the expiry lies before the event.
   */
  lemma TtlWrapsFrom2038(event: Event)
    ensures CreateEvent(event, TwoTo31 * 1000).ttl < 0
  {
  }

  /**
   * Entries for one product share their partition key, and differ in their
   * sort key whenever their event types or their timestamps differ.
   */
  lemma {:induction false} EntryKeysDiffer(e1: Event, t1: nat, e2: Event, t2: nat)
    requires e1.productCode == e2.productCode
    requires e1.eventType != e2.eventType || t1 != t2
    ensures CreateEvent(e1, t1).pk == CreateEvent(e2, t2).pk
    ensures CreateEvent(e1, t1).sk != CreateEvent(e2, t2).sk
  {
    var n1, n2 := EventTypeName(e1.eventType), EventTypeName(e2.eventType);
    var d1, d2 := NatToString(t1), NatToString(t2);
    var s1, s2 := n1 + "#" + d1, n2 + "#" + d2;
    if s1 == s2 {
      assert s1[..15] == n1 && s2[..15] == n2;
      EventTypeNameInjective(e1.eventType, e2.eventType);
      assert s1[16..] == d1 && s2[16..] == d2;
      NatToStringInjective(t1, t2);
      assert false;
    }
  }

  /**
   * Two events of the same product and type in the same millisecond get the
   * same key, so the second entry replaces the first.
   */
  lemma SameInstantSameKey(e1: Event, e2: Event, t: nat)
    requires e1.productCode == e2.productCode && e1.eventType == e2.eventType
    ensures CreateEvent(e1, t).pk == CreateEvent(e2, t).pk
    ensures CreateEvent(e1, t).sk == CreateEvent(e2, t).sk
  {
  }

  /** The event-log table: the entry stored under each (pk, sk). */
  class EventsTable {
    var entries: map<(string, string), EventLogEntry>

    constructor (contents: map<(string, string), EventLogEntry>)
      ensures entries == contents
    {
      entries := contents;
    }

    /** A put: the entry is stored under its key, replacing any entry there. */
    method Put(entry: EventLogEntry)
      modifies this
      ensures entries == old(entries)[(entry.pk, entry.sk) := entry]
    {
      entries := entries[(entry.pk, entry.sk) := entry];
    }
  }

  /**
   * The relay's handler: writes exactly one entry, built from `event` and the
   * current time, then acknowledges with `productEventCreated: true`.
   */
  method Handler(log: EventsTable, event: Event, timestamp: nat) returns (ack: Ack)
    modifies log
    ensures ack == Ack(true, "ok")
    ensures log.entries == old(log.entries)[(CreateEvent(event, timestamp).pk, CreateEvent(event, timestamp).sk) := CreateEvent(event, timestamp)]
  {
    var entry := CreateEvent(event, timestamp);
    log.Put(entry);
    ack := Ack(true, "ok");
  }
}
