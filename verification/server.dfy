/** The service's mutable state and the operations that change it: ingesting
    a sample (build the payload, persist its row, classify, broadcast,
    acknowledge) and the live-feed endpoint joining and leaving the subscriber
    list. */
module Ingestion {
  import opened Telemetry
  import opened Rows
  import Statement

  /** A live websocket connection, known only by its identity. */
  type Conn = nat

  /** An observable effect of the service, in the order it happens: a row
      committed to drilling_events, or a message sent to one subscriber. */
  datatype Effect = Persisted(row: Row) | Sent(to: Conn, msg: Message)

  /** The acknowledgement ingest returns to its caller. */
  datatype Ack = Ack(status: string, alerts: seq<string>)

  const Broadcasted: string := "broadcasted"

  /** The sends of one broadcast: the message to each subscriber, in list order. */
  function Fanout(subs: seq<Conn>, m: Message): (out: seq<Effect>)
    ensures |out| == |subs|
    ensures forall i :: 0 <= i < |subs| ==> out[i] == Sent(subs[i], m)
  {
    if subs == [] then [] else [Sent(subs[0], m)] + Fanout(subs[1..], m)
  }

  /** The rows committed, in commit order. */
  function PersistedRows(t: seq<Effect>): seq<Row>
  {
    if t == [] then []
    else (if t[0].Persisted? then [t[0].row] else []) + PersistedRows(t[1..])
  }

  /** The messages one connection received, in the order they were sent. */
  function Received(t: seq<Effect>, c: Conn): seq<Message>
  {
    if t == [] then []
    else (if t[0].Sent? && t[0].to == c then [t[0].msg] else []) + Received(t[1..], c)
  }

  /** The committed rows are exactly the rows of the trace's commits. */
  lemma {:induction false} PersistedRowsContents(t: seq<Effect>)
    ensures forall r :: r in PersistedRows(t) <==> Persisted(r) in t
  {
    if t != [] {
      PersistedRowsContents(t[1..]);
      assert t == [t[0]] + t[1..];
    }
  }

  /** A connection received exactly the messages the trace sent to it. */
  lemma {:induction false} ReceivedContents(t: seq<Effect>, c: Conn)
    ensures forall m :: m in Received(t, c) <==> Sent(c, m) in t
  {
    if t != [] {
      ReceivedContents(t[1..], c);
      assert t == [t[0]] + t[1..];
    }
  }

  /** How many times a connection appears in the subscriber list. */
  function Occurrences(subs: seq<Conn>, c: Conn): (n: nat)
    ensures n <= |subs|
    ensures n == 0 <==> c !in subs
  {
    if subs == [] then 0 else (if subs[0] == c then 1 else 0) + Occurrences(subs[1..], c)
  }

  /** Every message sent was preceded by the commit of its event's row: a
      subscriber never sees an event that is not in the store. */
  ghost predicate PersistBeforeSend(t: seq<Effect>) {
    forall i :: 0 <= i < |t| && t[i].Sent? ==>
      exists j :: 0 <= j < i && t[j] == Persisted(Encode(t[i].msg.event))
  }

  lemma {:induction false} PersistedRowsAppend(a: seq<Effect>, b: seq<Effect>)
    ensures PersistedRows(a + b) == PersistedRows(a) + PersistedRows(b)
  {
    if a == [] {
      assert a + b == b;
    } else {
      assert (a + b)[0] == a[0] && (a + b)[1..] == a[1..] + b;
      assert PersistedRows(a + b) == (if a[0].Persisted? then [a[0].row] else []) + PersistedRows(a[1..] + b);
      PersistedRowsAppend(a[1..], b);
    }
  }

  lemma {:induction false} ReceivedAppend(a: seq<Effect>, b: seq<Effect>, c: Conn)
    ensures Received(a + b, c) == Received(a, c) + Received(b, c)
  {
    if a == [] {
      assert a + b == b;
    } else {
      assert (a + b)[0] == a[0] && (a + b)[1..] == a[1..] + b;
      assert Received(a + b, c) == (if a[0].Sent? && a[0].to == c then [a[0].msg] else []) + Received(a[1..] + b, c);
      ReceivedAppend(a[1..], b, c);
    }
  }

  /** A broadcast commits nothing, and gives each connection the message once
      for every time it appears in the subscriber list. */
  lemma {:induction false} FanoutDelivers(subs: seq<Conn>, m: Message, c: Conn)
    ensures PersistedRows(Fanout(subs, m)) == []
    ensures Received(Fanout(subs, m), c) == seq(Occurrences(subs, c), _ => m)
  {
    if subs != [] {
      var t := Fanout(subs, m);
      assert t[1..] == Fanout(subs[1..], m);
      FanoutDelivers(subs[1..], m, c);
    }
  }

  /** What one ingest adds to the effect trace keeps every send after the
      commit of its row. */
  lemma IngestKeepsPersistBeforeSend(t: seq<Effect>, subs: seq<Conn>, m: Message)
    requires PersistBeforeSend(t)
    ensures PersistBeforeSend(t + [Persisted(Encode(m.event))] + Fanout(subs, m))
  {
    var u := t + [Persisted(Encode(m.event))] + Fanout(subs, m);
    forall i | 0 <= i < |u| && u[i].Sent?
      ensures exists j :: 0 <= j < i && u[j] == Persisted(Encode(u[i].msg.event))
    {
      if i < |t| {
        var j :| 0 <= j < i && t[j] == Persisted(Encode(t[i].msg.event));
        assert u[j] == t[j];
      } else {
        assert u[|t|] == Persisted(Encode(m.event));
      }
    }
  }

  /** Across one ingest, the store gains exactly the new row, and a connection
      listed once receives exactly the new message after everything it had
      received before; an unlisted connection receives nothing. */
  lemma IngestDeliversInPersistenceOrder(t: seq<Effect>, subs: seq<Conn>, m: Message, c: Conn)
    requires Distinct(subs)
    ensures var u := t + [Persisted(Encode(m.event))] + Fanout(subs, m);
      && PersistedRows(u) == PersistedRows(t) + [Encode(m.event)]
      && Received(u, c) == Received(t, c) + (if c in subs then [m] else [])
  {
    IngestPersists(t, Encode(m.event), Fanout(subs, m), subs, m);
    IngestReceives(t, Encode(m.event), Fanout(subs, m), subs, m, c);
  }

  lemma IngestPersists(t: seq<Effect>, row: Row, f: seq<Effect>, subs: seq<Conn>, m: Message)
    requires f == Fanout(subs, m)
    ensures PersistedRows(t + [Persisted(row)] + f) == PersistedRows(t) + [row]
  {
    var p := [Persisted(row)];
    assert p[1..] == [];
    assert PersistedRows(p) == [row];
    PersistedRowsAppend(t, p);
    PersistedRowsAppend(t + p, f);
    FanoutDelivers(subs, m, 0);
  }

  lemma IngestReceives(t: seq<Effect>, row: Row, f: seq<Effect>, subs: seq<Conn>, m: Message, c: Conn)
    requires f == Fanout(subs, m) && Distinct(subs)
    ensures Received(t + [Persisted(row)] + f, c) == Received(t, c) + (if c in subs then [m] else [])
  {
    var p := [Persisted(row)];
    var got := if c in subs then [m] else [];
    assert Received(p, c) == [] by {
      assert p[1..] == [];
    }
    assert Received(t + p, c) == Received(t, c) by {
      ReceivedAppend(t, p, c);
    }
    assert Received(f, c) == got by {
      FanoutDelivers(subs, m, c);
      if c in subs {
        DistinctOccursOnce(subs, c);
      }
    }
    ReceivedAppend(t + p, f, c);
  }

  lemma {:induction false} DistinctOccursOnce(s: seq<Conn>, c: Conn)
    requires Distinct(s) && c in s
    ensures Occurrences(s, c) == 1
  {
    if s[0] == c {
      assert c !in s[1..];
    } else {
      DistinctOccursOnce(s[1..], c);
    }
  }

  /** list.remove: the list without the first occurrence of `c`. */
  function RemoveFirst(s: seq<Conn>, c: Conn): (r: seq<Conn>)
    ensures c in s ==> |r| == |s| - 1
    ensures c !in s ==> r == s
  {
    if s == [] then []
    else if s[0] == c then s[1..]
    else [s[0]] + RemoveFirst(s[1..], c)
  }

  /** The position of the first occurrence of `c`. */
  function FirstIndex(s: seq<Conn>, c: Conn): (k: nat)
    requires c in s
    ensures k < |s| && s[k] == c && c !in s[..k]
  {
    if s[0] == c then 0
    else
      var k := FirstIndex(s[1..], c);
      assert s[..k + 1] == [s[0]] + s[1..][..k];
      k + 1
  }

  /** Removing a connection deletes exactly its first position and keeps every
      other connection in its relative order. */
  lemma {:induction false} RemoveFirstDeletesOnePosition(s: seq<Conn>, c: Conn)
    requires c in s
    ensures var k := FirstIndex(s, c); RemoveFirst(s, c) == s[..k] + s[k + 1..]
  {
    if s[0] != c {
      var t := s[1..];
      RemoveFirstDeletesOnePosition(t, c);
      var k := FirstIndex(t, c);
      assert FirstIndex(s, c) == k + 1;
      assert RemoveFirst(s, c) == [s[0]] + (t[..k] + t[k + 1..]);
      assert s[..k + 1] == [s[0]] + t[..k];
      assert s[k + 2..] == t[k + 1..];
    } else {
      assert FirstIndex(s, c) == 0;
    }
  }

  /** Removing a connection from a list without duplicates leaves a list
      without duplicates that no longer holds it. */
  lemma {:induction false} RemoveFirstFromDistinct(s: seq<Conn>, c: Conn)
    requires Distinct(s)
    ensures Distinct(RemoveFirst(s, c)) && c !in RemoveFirst(s, c)
  {
    if s != [] {
      var t := s[1..];
      assert Distinct(t);
      if s[0] == c {
        assert RemoveFirst(s, c) == t;
      } else {
        RemoveFirstFromDistinct(t, c);
        RemoveFirstSubset(t, c);
        var r := RemoveFirst(t, c);
        assert s[0] !in t;
        assert s[0] !in r;
        assert RemoveFirst(s, c) == [s[0]] + r;
      }
    }
  }

  lemma {:induction false} RemoveFirstSubset(s: seq<Conn>, c: Conn)
    ensures forall x :: x in RemoveFirst(s, c) ==> x in s
  {
    if s != [] && s[0] != c {
      RemoveFirstSubset(s[1..], c);
    }
  }

  /** The module-level state of the service: the drilling_events table, the
      subscriber list, and the trace of effects the service has produced. */
  class Service {
    var rows: seq<Row>
    var subscribers: seq<Conn>
    var effects: seq<Effect>
    /** The rows already in the database file when the service started. */
    ghost var preexisting: seq<Row>

    ghost predicate Valid()
      reads this
    {
      rows == preexisting + PersistedRows(effects) && PersistBeforeSend(effects)
    }

    /** Start-up: the table as found on disk, nobody subscribed, nothing done yet. */
    constructor (stored: seq<Row>)
      ensures Valid()
      ensures rows == stored && subscribers == [] && effects == []
    {
      rows := stored;
      subscribers := [];
      effects := [];
      preexisting := stored;
    }

    /** POST /ingest with the analyzer's result `derived` and the clock reading
        `now`: store the event's row, then send the event with its priority to
        every subscriber in list order, then acknowledge with the raised alerts. */
    method Ingest(sample: Sample, derived: Derived, now: nat) returns (ack: Ack)
      requires Valid()
      modifies this
      ensures Valid()
      ensures var e := Event(now, sample, derived);
        var active := ActiveKeys(Entries(derived));
        && rows == old(rows) + [Encode(e)]
        && effects == old(effects) + [Persisted(Encode(e))]
                      + Fanout(old(subscribers), Message(e, PriorityOf(|active|)))
        && ack == Ack(Broadcasted, active)
      ensures subscribers == old(subscribers)
    {
      var payload := Event(now, sample, derived);
      var row := Encode(payload);
      rows := rows + [row];
      effects := effects + [Persisted(row)];

      var active := ActiveKeys(Entries(derived));
      var message := Message(payload, PriorityOf(|active|));

      ghost var committed := effects;
      var i := 0;
      while i < |subscribers|
        invariant 0 <= i <= |subscribers|
        invariant rows == old(rows) + [row] && subscribers == old(subscribers)
        invariant preexisting == old(preexisting)
        invariant effects == committed + Fanout(subscribers[..i], message)
      {
        assert subscribers[..i + 1] == subscribers[..i] + [subscribers[i]];
        FanoutAppend(subscribers[..i], subscribers[i], message);
        effects := effects + [Sent(subscribers[i], message)];
        i := i + 1;
      }
      assert subscribers[..i] == subscribers;
      IngestKeepsPersistBeforeSend(old(effects), subscribers, message);
      IngestPersists(old(effects), row, Fanout(subscribers, message), subscribers, message);
      // The INSERT, with one placeholder per column, stored the row's thirteen values.
      assert Statement.Execute(Statement.InsertCorrected, Cells(row)) == Statement.Inserted(Cells(row)) by {
        Statement.InsertCorrectedStoresRow(row);
      }
      ack := Ack(Broadcasted, active);
    }

    /** The live-feed endpoint accepting a connection: it joins the end of the list. */
    method Join(c: Conn)
      modifies this
      ensures subscribers == old(subscribers) + [c]
      ensures Distinct(old(subscribers)) && c !in old(subscribers) ==> Distinct(subscribers)
      ensures rows == old(rows) && effects == old(effects)
      ensures old(Valid()) ==> Valid()
    {
      subscribers := subscribers + [c];
    }

    /** The live-feed endpoint's exit path: list.remove, which drops the first
        occurrence of `c` and reports (as ValueError) a connection not listed. */
    method Leave(c: Conn) returns (removed: bool)
      modifies this
      ensures removed <==> c in old(subscribers)
      ensures subscribers == RemoveFirst(old(subscribers), c)
      ensures removed ==> var k := FirstIndex(old(subscribers), c);
        subscribers == old(subscribers)[..k] + old(subscribers)[k + 1..]
      ensures !removed ==> subscribers == old(subscribers)
      ensures Distinct(old(subscribers)) ==> Distinct(subscribers) && c !in subscribers
      ensures rows == old(rows) && effects == old(effects)
      ensures old(Valid()) ==> Valid()
    {
      removed := c in subscribers;
      if removed {
        RemoveFirstDeletesOnePosition(subscribers, c);
      }
      if Distinct(subscribers) {
        RemoveFirstFromDistinct(subscribers, c);
      }
      subscribers := RemoveFirst(subscribers, c);
    }
  }

  lemma FanoutAppend(subs: seq<Conn>, c: Conn, m: Message)
    ensures Fanout(subs + [c], m) == Fanout(subs, m) + [Sent(c, m)]
  {
  }
}
