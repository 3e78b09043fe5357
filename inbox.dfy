/** The per-user notification inbox: marking entries read. */
module Inbox {
  import opened Records

  /** The entry with `read` set, everything else as it was. */
  function AsRead(n: Notification): (r: Notification)
    ensures r.read && r.(read := n.read) == n
  {
    n.(read := true)
  }

  /** `notifications.map(n => n.id === id ? { ...n, read: true } : n)`. */
  function MarkRead(ns: seq<Notification>, id: string): (r: seq<Notification>)
    ensures |r| == |ns|
    ensures forall i :: 0 <= i < |ns| && ns[i].id == id ==> r[i] == AsRead(ns[i])
    ensures forall i :: 0 <= i < |ns| && ns[i].id != id ==> r[i] == ns[i]
  {
    if ns == [] then []
    else [if ns[0].id == id then AsRead(ns[0]) else ns[0]] + MarkRead(ns[1..], id)
  }

  /** Afterwards no entry with that id is unread, and every entry's identity is unchanged. */
  lemma MarkReadClearsId(ns: seq<Notification>, id: string)
    ensures forall n :: n in MarkRead(ns, id) && n.id == id ==> n.read
    ensures forall i :: 0 <= i < |ns| ==> MarkRead(ns, id)[i].id == ns[i].id
  {
    var r := MarkRead(ns, id);
    forall n | n in r && n.id == id ensures n.read {
      var i :| 0 <= i < |r| && r[i] == n;
    }
  }

  /** An id that matches no entry changes nothing (the handler still answers success). */
  lemma MarkReadUnknownIsNoop(ns: seq<Notification>, id: string)
    requires forall n :: n in ns ==> n.id != id
    ensures MarkRead(ns, id) == ns
  {
    var r := MarkRead(ns, id);
    assert forall i :: 0 <= i < |ns| ==> r[i] == ns[i];
  }

  /** Marking the same id twice is marking it once. */
  lemma MarkReadIdempotent(ns: seq<Notification>, id: string)
    ensures MarkRead(MarkRead(ns, id), id) == MarkRead(ns, id)
  {
    var r := MarkRead(ns, id);
    var rr := MarkRead(r, id);
    assert forall i :: 0 <= i < |ns| ==> rr[i] == r[i];
  }

  /** The order in which two entries are marked does not matter. */
  lemma MarkReadCommutes(ns: seq<Notification>, a: string, b: string)
    ensures MarkRead(MarkRead(ns, a), b) == MarkRead(MarkRead(ns, b), a)
  {
    var ab := MarkRead(MarkRead(ns, a), b);
    var ba := MarkRead(MarkRead(ns, b), a);
    assert forall i :: 0 <= i < |ns| ==> ab[i] == ba[i];
  }
}
