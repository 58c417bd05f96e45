/**
 * The server half of the chat relay: the presence registry `userSocketMap`
 * (phone => socket id) and the three Socket.IO handlers that act on it,
 * `register-phone`, `private-message` and `disconnect`.
 *
 * The registry is a JavaScript `Map`, which iterates in insertion order and
 * updates an existing key where it stands. It is modelled as a sequence of
 * (phone, socket id) entries with pairwise distinct phones; the functions
 * `Lookup`, `Bind` and `Remove` are `Map.get`, `Map.set` and `Map.delete` on
 * that sequence. Node runs each handler to completion, so each handler is
 * one method of `Registry`.
 */
module Presence {
  import opened Wrappers

  type Phone = string
  type SocketId = string
  type Entry = (Phone, SocketId)

  /** The payload of a `receive-message` event. */
  datatype Payload = Payload(from: string, msg: string, timestamp: string)

  /** One `receive-message` emit, addressed to the room named by a socket id. */
  datatype Delivery = ReceiveMessage(target: SocketId, payload: Payload)

  /** A `Map` holds each key once. */
  ghost predicate UniqueKeys(e: seq<Entry>) {
    forall i, j :: 0 <= i < j < |e| ==> e[i].0 != e[j].0
  }

  // ---------------------------------------------------------------------
  // Map.get, Map.set, Map.delete over the insertion-ordered entries
  // ---------------------------------------------------------------------

  /** `Map.get`: the socket id stored under `p`, or `None` (JavaScript's `undefined`). */
  function Lookup(e: seq<Entry>, p: Phone): (r: Option<SocketId>)
  {
    if e == [] then None
    else if e[0].0 == p then Some(e[0].1)
    else Lookup(e[1..], p)
  }

  /** `Map.set`: overwrite the value of an existing key in place, or append a new entry. */
  function Bind(e: seq<Entry>, p: Phone, s: SocketId): (r: seq<Entry>)
  {
    if e == [] then [(p, s)]
    else if e[0].0 == p then [(p, s)] + e[1..]
    else [e[0]] + Bind(e[1..], p, s)
  }

  /** `Map.delete`: drop the entry whose key is `p`, if there is one. */
  function Remove(e: seq<Entry>, p: Phone): (r: seq<Entry>)
  {
    if e == [] then []
    else if e[0].0 == p then e[1..]
    else [e[0]] + Remove(e[1..], p)
  }

  /**
   * What the `disconnect` handler does to the table: walk the entries in
   * insertion order and drop the first one whose value is `sid`, then stop.
   */
  function Unbind(e: seq<Entry>, sid: SocketId): (r: seq<Entry>)
  {
    if e == [] then []
    else if e[0].1 == sid then e[1..]
    else [e[0]] + Unbind(e[1..], sid)
  }

  /**
   * What the `private-message` handler emits. `if (toSocketId)` is a
   * JavaScript truthiness test: a missing key and an empty socket id both
   * fail it.
   */
  function Relay(e: seq<Entry>, senderSid: SocketId, to: Phone, from: string, msg: string, timestamp: string): (r: seq<Delivery>)
  {
    var target := Lookup(e, to);
    if target.Some? && target.value != "" then
      var payload := Payload(from, msg, timestamp);
      [ReceiveMessage(target.value, payload), ReceiveMessage(senderSid, payload)]
    else
      []
  }

  // ---------------------------------------------------------------------
  // Lookup against the entries
  // ---------------------------------------------------------------------

  /** A lookup only ever returns a value that is stored under that key. */
  lemma {:induction false} LookupSound(e: seq<Entry>, p: Phone)
    ensures Lookup(e, p).Some? ==> (p, Lookup(e, p).value) in e
  {
    if e != [] && e[0].0 != p {
      LookupSound(e[1..], p);
    }
  }

  /** Every stored entry is found by its key. */
  lemma {:induction false} LookupAt(e: seq<Entry>, i: nat)
    requires UniqueKeys(e) && i < |e|
    ensures Lookup(e, e[i].0) == Some(e[i].1)
  {
    if i > 0 {
      assert e[0].0 != e[i].0;
      LookupAt(e[1..], i - 1);
    }
  }

  /** A lookup misses exactly when no entry has that key. */
  lemma {:induction false} LookupAbsent(e: seq<Entry>, p: Phone)
    ensures Lookup(e, p) == None <==> forall i :: 0 <= i < |e| ==> e[i].0 != p
  {
    if e != [] && e[0].0 != p {
      LookupAbsent(e[1..], p);
      assert forall i :: 1 <= i < |e| ==> e[i] == e[1..][i - 1];
    }
  }

  /** With distinct keys, `Lookup` is exactly membership of the pair. */
  lemma LookupIff(e: seq<Entry>, p: Phone, s: SocketId)
    requires UniqueKeys(e)
    ensures Lookup(e, p) == Some(s) <==> (p, s) in e
  {
    LookupSound(e, p);
    if (p, s) in e {
      var i :| 0 <= i < |e| && e[i] == (p, s);
      LookupAt(e, i);
    }
  }

  // ---------------------------------------------------------------------
  // register-phone: Map.set
  // ---------------------------------------------------------------------

  /** After `set(p, s)` the key `p` maps to `s` and every other key is as before. */
  lemma {:induction false} LookupBind(e: seq<Entry>, p: Phone, s: SocketId, q: Phone)
    ensures Lookup(Bind(e, p, s), q) == if q == p then Some(s) else Lookup(e, q)
  {
    if e != [] && e[0].0 != p {
      LookupBind(e[1..], p, s, q);
    }
  }

  /** Setting an existing key replaces its value where the entry stands. */
  lemma {:induction false} BindExisting(e: seq<Entry>, p: Phone, s: SocketId, i: nat)
    requires UniqueKeys(e) && i < |e| && e[i].0 == p
    ensures Bind(e, p, s) == e[i := (p, s)]
  {
    if i > 0 {
      assert e[0].0 != e[i].0;
      BindExisting(e[1..], p, s, i - 1);
      assert e[1..][i - 1 := (p, s)] == e[i := (p, s)][1..];
    }
  }

  /** Setting a new key appends it after every existing entry. */
  lemma {:induction false} BindNew(e: seq<Entry>, p: Phone, s: SocketId)
    requires forall i :: 0 <= i < |e| ==> e[i].0 != p
    ensures Bind(e, p, s) == e + [(p, s)]
  {
    if e != [] {
      assert forall i :: 0 <= i < |e[1..]| ==> e[1..][i] == e[i + 1];
      BindNew(e[1..], p, s);
      assert [e[0]] + (e[1..] + [(p, s)]) == e + [(p, s)];
    }
  }

  /** `Map.set` keeps the keys distinct. */
  lemma BindKeepsUnique(e: seq<Entry>, p: Phone, s: SocketId)
    requires UniqueKeys(e)
    ensures UniqueKeys(Bind(e, p, s))
  {
    if i :| 0 <= i < |e| && e[i].0 == p {
      BindExisting(e, p, s, i);
    } else {
      BindNew(e, p, s);
    }
  }

  // ---------------------------------------------------------------------
  // disconnect: the scan and Map.delete
  // ---------------------------------------------------------------------

  /** Dropping one entry keeps the keys distinct. */
  lemma UniqueKeysDropOne(e: seq<Entry>, i: nat)
    requires UniqueKeys(e) && i < |e|
    ensures UniqueKeys(e[..i] + e[i + 1..])
  {
    var r := e[..i] + e[i + 1..];
    forall a, b | 0 <= a < b < |r|
      ensures r[a].0 != r[b].0
    {
      var a' := if a < i then a else a + 1;
      var b' := if b < i then b else b + 1;
      assert r[a] == e[a'] && r[b] == e[b'];
    }
  }

  /** `Map.delete` of a stored key removes that entry and no other. */
  lemma {:induction false} RemoveAt(e: seq<Entry>, i: nat)
    requires UniqueKeys(e) && i < |e|
    ensures Remove(e, e[i].0) == e[..i] + e[i + 1..]
  {
    if i > 0 {
      assert e[0].0 != e[i].0;
      RemoveAt(e[1..], i - 1);
      assert e[1..][..i - 1] == e[1..i];
      assert e[1..][i..] == e[i + 1..];
      assert [e[0]] + (e[1..i] + e[i + 1..]) == e[..i] + e[i + 1..];
    }
  }

  /** The scan removes the first entry whose value is `sid`; later ones stay. */
  lemma {:induction false} UnbindFirst(e: seq<Entry>, sid: SocketId, i: nat)
    requires i < |e| && e[i].1 == sid
    requires forall j :: 0 <= j < i ==> e[j].1 != sid
    ensures Unbind(e, sid) == e[..i] + e[i + 1..]
  {
    if i > 0 {
      assert forall j :: 0 <= j < i - 1 ==> e[1..][j] == e[j + 1];
      UnbindFirst(e[1..], sid, i - 1);
      assert e[1..][..i - 1] == e[1..i];
      assert e[1..][i..] == e[i + 1..];
      assert [e[0]] + (e[1..i] + e[i + 1..]) == e[..i] + e[i + 1..];
    }
  }

  /** When no entry has the value `sid`, the scan changes nothing. */
  lemma {:induction false} UnbindNone(e: seq<Entry>, sid: SocketId)
    requires forall j :: 0 <= j < |e| ==> e[j].1 != sid
    ensures Unbind(e, sid) == e
  {
    if e != [] {
      assert e[0].1 != sid;
      UnbindNone(e[1..], sid);
      assert e == [e[0]] + e[1..];
    }
  }

  /** Disconnecting one socket leaves every binding that does not point to it. */
  lemma {:induction false} LookupUnbind(e: seq<Entry>, sid: SocketId, q: Phone)
    requires Lookup(e, q) != Some(sid)
    ensures Lookup(Unbind(e, sid), q) == Lookup(e, q)
  {
    if e != [] && e[0].1 != sid && e[0].0 != q {
      LookupUnbind(e[1..], sid, q);
    }
  }

  /**
   * Disconnecting a socket that is bound to a single phone unbinds that
   * phone: a later lookup misses.
   */
  lemma {:induction false} LiveDisconnect(e: seq<Entry>, p: Phone, sid: SocketId)
    requires UniqueKeys(e) && Lookup(e, p) == Some(sid)
    requires forall i :: 0 <= i < |e| && e[i].1 == sid ==> e[i].0 == p
    ensures Lookup(Unbind(e, sid), p) == None
  {
    if e[0].1 == sid {
      LookupAbsent(e[1..], p);
    } else {
      assert forall i :: 0 <= i < |e[1..]| ==> e[1..][i] == e[i + 1];
      LiveDisconnect(e[1..], p, sid);
    }
  }

  /**
   * Disconnecting twice is a no-op the second time, provided the socket
   * was bound to at most one phone.
   */
  lemma {:induction false} UnbindTwice(e: seq<Entry>, sid: SocketId)
    requires forall i, j :: 0 <= i < |e| && 0 <= j < |e| && e[i].1 == sid && e[j].1 == sid ==> i == j
    ensures Unbind(Unbind(e, sid), sid) == Unbind(e, sid)
  {
    if e != [] {
      assert forall j :: 0 <= j < |e[1..]| ==> e[1..][j] == e[j + 1];
      if e[0].1 == sid {
        UnbindNone(e[1..], sid);
      } else {
        UnbindTwice(e[1..], sid);
      }
    }
  }

  /**
   * A socket that registered two phones loses only the first of them on
   * disconnect; the second binding stays, pointing at the closed socket,
   * and a second disconnect of the same id would remove it.
   */
  lemma SecondPhoneStaysStale()
    ensures Unbind([("+1", "a"), ("+2", "a")], "a") == [("+2", "a")]
    ensures Lookup(Unbind([("+1", "a"), ("+2", "a")], "a"), "+2") == Some("a")
    ensures Unbind(Unbind([("+1", "a"), ("+2", "a")], "a"), "a") == []
  {
  }

  // ---------------------------------------------------------------------
  // private-message
  // ---------------------------------------------------------------------

  /**
   * A message to a bound recipient is emitted twice with one payload: to
   * the recipient's socket and back to the sending socket, whatever `from`
   * says. If the recipient is bound to the sender's own socket, that socket
   * is the target of both.
   */
  lemma RelayHit(e: seq<Entry>, senderSid: SocketId, to: Phone, from: string, msg: string, timestamp: string, c: SocketId)
    requires UniqueKeys(e) && (to, c) in e && c != ""
    ensures Relay(e, senderSid, to, from, msg, timestamp)
         == [ReceiveMessage(c, Payload(from, msg, timestamp)), ReceiveMessage(senderSid, Payload(from, msg, timestamp))]
  {
    LookupIff(e, to, c);
  }

  /** A message to a phone nobody registered is dropped: no delivery and no echo. */
  lemma RelayMiss(e: seq<Entry>, senderSid: SocketId, to: Phone, from: string, msg: string, timestamp: string)
    requires forall i :: 0 <= i < |e| ==> e[i].0 != to
    ensures Relay(e, senderSid, to, from, msg, timestamp) == []
  {
    LookupAbsent(e, to);
  }

  /** Something is emitted exactly when the recipient has a non-empty socket id. */
  lemma RelayDelivers(e: seq<Entry>, senderSid: SocketId, to: Phone, from: string, msg: string, timestamp: string)
    requires UniqueKeys(e)
    ensures Relay(e, senderSid, to, from, msg, timestamp) != []
        <==> exists i :: 0 <= i < |e| && e[i].0 == to && e[i].1 != ""
  {
    LookupSound(e, to);
    if i :| 0 <= i < |e| && e[i].0 == to && e[i].1 != "" {
      LookupAt(e, i);
    }
  }

  /** After two registrations of one phone, messages to it reach the second socket only. */
  lemma LastRegistrationWins(e: seq<Entry>, p: Phone, s1: SocketId, s2: SocketId,
                             senderSid: SocketId, from: string, msg: string, timestamp: string)
    requires s2 != ""
    ensures Relay(Bind(Bind(e, p, s1), p, s2), senderSid, p, from, msg, timestamp)
         == [ReceiveMessage(s2, Payload(from, msg, timestamp)), ReceiveMessage(senderSid, Payload(from, msg, timestamp))]
  {
    LookupBind(Bind(e, p, s1), p, s2, p);
  }

  /**
   * The superseded socket's disconnect does not evict the newer binding:
   * after `p` is re-registered to `s2`, a disconnect of `s1` leaves
   * messages to `p` going to `s2`.
   */
  lemma SupersededDisconnect(e: seq<Entry>, p: Phone, s1: SocketId, s2: SocketId,
                             senderSid: SocketId, from: string, msg: string, timestamp: string)
    requires s1 != s2 && s2 != ""
    ensures Lookup(Unbind(Bind(Bind(e, p, s1), p, s2), s1), p) == Some(s2)
    ensures Relay(Unbind(Bind(Bind(e, p, s1), p, s2), s1), senderSid, p, from, msg, timestamp)
         == [ReceiveMessage(s2, Payload(from, msg, timestamp)), ReceiveMessage(senderSid, Payload(from, msg, timestamp))]
  {
    var e2 := Bind(Bind(e, p, s1), p, s2);
    LookupBind(Bind(e, p, s1), p, s2, p);
    LookupUnbind(e2, s1, p);
  }

  /**
   * Two clients register, one writes to the other, the other disconnects,
   * and the next message to it is dropped with no echo.
   */
  lemma Conversation(ca: SocketId, cb: SocketId, t1: string, t2: string)
    requires ca != "" && cb != "" && ca != cb
    ensures Relay(Bind(Bind([], "+1", ca), "+2", cb), ca, "+2", "+1", "hi", t1)
         == [ReceiveMessage(cb, Payload("+1", "hi", t1)), ReceiveMessage(ca, Payload("+1", "hi", t1))]
    ensures Relay(Unbind(Bind(Bind([], "+1", ca), "+2", cb), cb), ca, "+2", "+1", "bye", t2) == []
  {
    var e := Bind(Bind([], "+1", ca), "+2", cb);
    BindNew([], "+1", ca);
    BindNew([("+1", ca)], "+2", cb);
    assert e == [("+1", ca), ("+2", cb)];
    LookupAt(e, 1);
    UnbindFirst(e, cb, 1);
    assert Unbind(e, cb) == [("+1", ca)];
    LookupAbsent(Unbind(e, cb), "+2");
  }

  // ---------------------------------------------------------------------
  // The registry object and its handlers
  // ---------------------------------------------------------------------

  /** `userSocketMap`, shared by every connection's handlers. */
  class Registry {
    var entries: seq<Entry>

    ghost predicate Valid()
      reads this
    {
      UniqueKeys(entries)
    }

    constructor()
      ensures Valid() && entries == []
    {
      entries := [];
    }

    /** `register-phone` received on socket `sid`: the last registration wins. */
    method RegisterPhone(sid: SocketId, phone: Phone)
      requires Valid()
      modifies this
      ensures Valid()
      ensures entries == Bind(old(entries), phone, sid)
      ensures Lookup(entries, phone) == Some(sid)
      ensures forall q :: q != phone ==> Lookup(entries, q) == Lookup(old(entries), q)
    {
      BindKeepsUnique(entries, phone, sid);
      forall q | true
        ensures Lookup(Bind(entries, phone, sid), q) == if q == phone then Some(sid) else Lookup(entries, q)
      {
        LookupBind(entries, phone, sid, q);
      }
      entries := Bind(entries, phone, sid);
    }

    /**
     * `private-message` {to, msg, from} received on socket `sid`. Reads the
     * table and changes nothing; the clock reading is the `timestamp` argument.
     */
    method PrivateMessage(sid: SocketId, to: Phone, msg: string, from: string, timestamp: string)
      returns (out: seq<Delivery>)
      ensures out == Relay(entries, sid, to, from, msg, timestamp)
    {
      out := [];
      var toSocketId := Lookup(entries, to);
      if toSocketId.Some? && toSocketId.value != "" {
        var payload := Payload(from, msg, timestamp);
        out := out + [ReceiveMessage(toSocketId.value, payload)];
        out := out + [ReceiveMessage(sid, payload)];
      }
    }

    /** `disconnect` of socket `sid`: delete the first entry bound to it, then stop. */
    method Disconnect(sid: SocketId)
      requires Valid()
      modifies this
      ensures Valid()
      ensures entries == Unbind(old(entries), sid)
    {
      ghost var removed := false;
      var i := 0;
      while i < |entries|
        invariant 0 <= i <= |entries|
        invariant entries == old(entries)
        invariant forall j :: 0 <= j < i ==> entries[j].1 != sid
      {
        var (phone, id) := entries[i];
        if id == sid {
          UnbindFirst(entries, sid, i);
          RemoveAt(entries, i);
          UniqueKeysDropOne(entries, i);
          entries := Remove(entries, phone);
          removed := true;
          break;
        }
        i := i + 1;
      }
      if !removed {
        UnbindNone(entries, sid);
      }
    }
  }
}
