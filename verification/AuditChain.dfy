/**
 The audit hash chain (packages/audit/src/audit-chain.ts).

 SHA-256 is a parameter `h` of which only the shape of its output is known, so a result that
 would need it to be injective names the two texts that collide instead.
 */
module AuditChain {
  import opened Digest
  import opened Json

  type Hash = string -> string

  ghost predicate HexOutput(h: Hash) {
    forall t :: IsHexDigest(h(t))
  }

  datatype Event = Event(body: map<string, Json>, previousEventHash: string, eventHash: string)

  function HashedText(body: map<string, Json>, previous: string): string {
    Canonical(Obj(body)) + previous
  }

  function AppendAuditEvent(h: Hash, body: map<string, Json>, previous: string): Event {
    Event(body, previous, h(HashedText(body, previous)))
  }

  /** The hash the next event must link to. */
  function Tip(events: seq<Event>): string {
    if events == [] then "" else events[|events| - 1].eventHash
  }

  /** Every event is exactly the one that appending its body after `previous` produces. */
  ghost predicate ChainFrom(h: Hash, previous: string, events: seq<Event>)
    decreases |events|
  {
    events == [] ||
    (events[0] == AppendAuditEvent(h, events[0].body, previous) && ChainFrom(h, events[0].eventHash, events[1..]))
  }

  ghost predicate ChainOk(h: Hash, events: seq<Event>) {
    ChainFrom(h, "", events)
  }

  method VerifyAuditChain(h: Hash, events: seq<Event>) returns (ok: bool)
    ensures ok <==> ChainOk(h, events)
  {
    var previous := "";
    assert events[0..] == events;
    for i := 0 to |events|
      invariant ChainOk(h, events) <==> ChainFrom(h, previous, events[i..])
    {
      var event := events[i];
      assert events[i..][0] == event && events[i..][1..] == events[i + 1..];
      if event.previousEventHash != previous {
        return false;
      }
      var expected := AppendAuditEvent(h, event.body, previous).eventHash;
      if expected != event.eventHash {
        return false;
      }
      previous := event.eventHash;
    }
    return true;
  }

  /** A chain is a chain without its last event, which links to the tip of the others. */
  lemma {:induction false} ChainLast(h: Hash, previous: string, init: seq<Event>, last: Event)
    ensures ChainFrom(h, previous, init + [last]) <==>
            && ChainFrom(h, previous, init)
            && last == AppendAuditEvent(h, last.body, if init == [] then previous else Tip(init))
    decreases |init|
  {
    if init == [] {
      assert ([] + [last])[1..] == [];
    } else {
      assert (init + [last])[1..] == init[1..] + [last];
      ChainLast(h, init[0].eventHash, init[1..], last);
    }
  }

  /** The chain grown by appending bodies one after another. */
  function Grow(h: Hash, bodies: seq<map<string, Json>>): seq<Event> {
    if bodies == [] then []
    else
      var before := Grow(h, bodies[..|bodies| - 1]);
      before + [AppendAuditEvent(h, bodies[|bodies| - 1], Tip(before))]
  }

  /** Whatever is appended, in whatever order, verifies. */
  lemma {:induction false} GrownVerifies(h: Hash, bodies: seq<map<string, Json>>)
    ensures ChainOk(h, Grow(h, bodies)) && |Grow(h, bodies)| == |bodies|
    ensures forall i :: 0 <= i < |bodies| ==> Grow(h, bodies)[i].body == bodies[i]
  {
    if bodies == [] {
      assert Grow(h, bodies) == [];
    } else {
      hide ChainFrom;
      hide HashedText;
      var n := |bodies| - 1;
      GrownVerifies(h, bodies[..n]);
      var before := Grow(h, bodies[..n]);
      ChainLast(h, "", before, AppendAuditEvent(h, bodies[n], Tip(before)));
    }
  }

  /** Two different texts, hashed at the given positions of the two chains, with one digest. */
  ghost predicate CollisionAt(h: Hash, a: seq<Event>, b: seq<Event>, i: int, j: int) {
    && 0 <= i < |a| && 0 <= j < |b|
    && HashedText(a[i].body, a[i].previousEventHash) != HashedText(b[j].body, b[j].previousEventHash)
    && h(HashedText(a[i].body, a[i].previousEventHash)) == h(HashedText(b[j].body, b[j].previousEventHash))
  }

  lemma CollisionInPrefix(h: Hash, a: seq<Event>, b: seq<Event>, n: nat, m: nat, i: int, j: int)
    requires n <= |a| && m <= |b| && CollisionAt(h, a[..n], b[..m], i, j)
    ensures CollisionAt(h, a, b, i, j)
  {
  }

  lemma Split(h: Hash, events: seq<Event>)
    requires events != [] && ChainOk(h, events)
    ensures var n := |events| - 1;
            && ChainOk(h, events[..n])
            && events[n] == AppendAuditEvent(h, events[n].body, Tip(events[..n]))
  {
    var n := |events| - 1;
    assert events == events[..n] + [events[n]];
    ChainLast(h, "", events[..n], events[n]);
  }

  /** One step back along two chains that meet in a hash. */
  lemma LastLinkAgrees(h: Hash, a: seq<Event>, b: seq<Event>)
    requires a != [] && b != [] && ChainOk(h, a) && ChainOk(h, b) && Tip(a) == Tip(b)
    ensures var n, m := |a| - 1, |b| - 1;
            CollisionAt(h, a, b, n, m) || (a[n] == b[m] && Tip(a[..n]) == Tip(b[..m]))
  {
    var n, m := |a| - 1, |b| - 1;
    Split(h, a);
    Split(h, b);
    if HashedText(a[n].body, Tip(a[..n])) == HashedText(b[m].body, Tip(b[..m])) {
      ObjectsSelfDelimiting(Obj(a[n].body), Obj(b[m].body), Tip(a[..n]), Tip(b[..m]));
    }
  }

  /**
   The last hash commits to the whole history: two chains that verify and end in the same hash
   are the same chain, or a digest collision between two of their hashed texts is at hand.
   */
  lemma {:induction false} TipCommitsToHistory(h: Hash, a: seq<Event>, b: seq<Event>)
    requires HexOutput(h) && ChainOk(h, a) && ChainOk(h, b) && Tip(a) == Tip(b)
    ensures a == b || exists i, j :: CollisionAt(h, a, b, i, j)
  {
    hide *;
    TipNonEmpty(h, a);
    TipNonEmpty(h, b);
    if a != [] && b != [] {
      var n, m := |a| - 1, |b| - 1;
      LastLinkAgrees(h, a, b);
      Split(h, a);
      Split(h, b);
      if !CollisionAt(h, a, b, n, m) {
        TipCommitsToHistory(h, a[..n], b[..m]);
        if a[..n] == b[..m] {
          assert a == a[..n] + [a[n]] && b == b[..m] + [b[m]];
        } else {
          var i, j :| CollisionAt(h, a[..n], b[..m], i, j);
          CollisionInPrefix(h, a, b, n, m, i, j);
        }
      }
    }
  }

  lemma TipNonEmpty(h: Hash, events: seq<Event>)
    requires HexOutput(h) && ChainOk(h, events)
    ensures Tip(events) == "" <==> events == []
  {
    if events != [] {
      Split(h, events);
      var last := events[|events| - 1];
      assert IsHexDigest(h(HashedText(last.body, last.previousEventHash)));
    }
  }
}
