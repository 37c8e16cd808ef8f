/**
 The audit lineage check (packages/archive/src/verify.ts, validateAuditLineage): does a bag of
 exported audit events form exactly one chain with the boundary hashes the manifest names?
 */
module Lineage {
  import opened Base
  import opened Digest
  import opened Json
  import opened Records

  /** The boundary data of a manifest; None stands for a missing property. */
  datatype Boundary = Boundary(eventCount: Option<Json>, firstEventHash: Option<Json>, lastEventHash: Option<Json>)

  /** How an event points backwards: at nothing, at a hash, or with a value that is neither. */
  datatype Link = Root | To(hash: string) | Odd

  /** What the check reads from an event: its hash ("" unless it is a string) and its link. */
  datatype Node = Node(hash: string, link: Link)

  function HashOf(event: Record): string {
    match Prop(event, "eventHash")
    case Some(Str(s)) => s
    case _ => ""
  }

  function LinkOf(event: Record): Link {
    match Prop(event, "previousEventHash")
    case None => Root
    case Some(Null) => Root
    case Some(Str(s)) => if s == "" then Root else To(s)
    case _ => Odd
  }

  function Nodes(events: seq<Record>): (nodes: seq<Node>)
    ensures |nodes| == |events|
    ensures forall i :: 0 <= i < |events| ==> nodes[i] == Node(HashOf(events[i]), LinkOf(events[i]))
  {
    seq(|events|, i requires 0 <= i < |events| => Node(HashOf(events[i]), LinkOf(events[i])))
  }

  /** The hash the backward walk visits after leaving `event`; "" ends the walk. */
  function Previous(event: Node): string {
    match event.link
    case To(hash) => hash
    case _ => ""
  }

  // ---------- what the check decides ----------

  predicate HashesOk(events: seq<Node>) {
    && (forall i :: 0 <= i < |events| ==> IsHexDigest(events[i].hash))
    && (forall i, j :: 0 <= i < j < |events| ==> events[i].hash != events[j].hash)
  }

  ghost predicate LinksBack(events: seq<Node>, order: seq<int>, k: int) {
    && 0 < k < |order| && 0 <= order[k - 1] < |events| && 0 <= order[k] < |events|
    && events[order[k]].link == To(events[order[k - 1]].hash)
  }

  /** `order` lists every event once, starts at a root, and each event links to the one before it. */
  ghost predicate IsChain(events: seq<Node>, order: seq<int>) {
    && |order| == |events|
    && (forall k :: 0 <= k < |order| ==> 0 <= order[k] < |events|)
    && Distinct(order)
    && (|order| > 0 ==> events[order[0]].link == Root)
    && (forall k :: 0 < k < |order| ==> LinksBack(events, order, k))
  }

  /** The events are one chain whose ends are the hashes of the boundary. */
  ghost predicate OneChain(boundary: Boundary, events: seq<Node>, order: seq<int>) {
    && events != [] && IsChain(events, order)
    && boundary.firstEventHash == Some(Str(events[order[0]].hash))
    && boundary.lastEventHash == Some(Str(events[order[|order| - 1]].hash))
  }

  ghost predicate LineageOk(boundary: Boundary, events: seq<Node>) {
    && boundary.eventCount == Some(Int(|events|))
    && if events == [] then boundary.firstEventHash == Some(Null) && boundary.lastEventHash == Some(Null)
       else HashesOk(events) && exists order :: OneChain(boundary, events, order)
  }

  // ---------- the same about records ----------

  /** The record has a hash that is a digest. */
  predicate HasDigest(event: Record) {
    "eventHash" in event && event["eventHash"].Str? && IsHexDigest(event["eventHash"].s)
  }

  /** A record may begin a chain by linking to null, to the empty text, or not at all. */
  predicate BeginsChain(event: Record) {
    "previousEventHash" !in event || event["previousEventHash"] in {Null, Str("")}
  }

  predicate Follows(event: Record, before: Record) {
    "previousEventHash" in event && "eventHash" in before && event["previousEventHash"] == before["eventHash"]
  }

  /** `order` puts all records into one chain whose ends have the hashes of the boundary. */
  ghost predicate RecordChain(boundary: Boundary, events: seq<Record>, order: seq<int>) {
    && |order| == |events| && Distinct(order) && (forall k :: 0 <= k < |order| ==> 0 <= order[k] < |events|)
    && order != [] && BeginsChain(events[order[0]])
    && (forall j, k :: 0 <= j < k < |order| && k == j + 1 ==> Follows(events[order[k]], events[order[j]]))
    && boundary.firstEventHash == Prop(events[order[0]], "eventHash")
    && boundary.lastEventHash == Prop(events[order[|order| - 1]], "eventHash")
  }

  lemma DigestsTell(events: seq<Record>)
    ensures HashesOk(Nodes(events)) <==>
            && (forall i :: 0 <= i < |events| ==> HasDigest(events[i]))
            && (forall i, j :: 0 <= i < j < |events| ==> Prop(events[i], "eventHash") != Prop(events[j], "eventHash"))
  {
    var nodes := Nodes(events);
    forall i | 0 <= i < |events|
      ensures HasDigest(events[i]) <==> IsHexDigest(nodes[i].hash)
      ensures HasDigest(events[i]) ==> Prop(events[i], "eventHash") == Some(Str(nodes[i].hash))
    {
    }
    hide HasDigest;
    hide HashOf;
    hide LinkOf;
    hide Nodes;
  }

  lemma LinksTell(event: Record, before: Record)
    requires HasDigest(before)
    ensures LinkOf(event) == To(HashOf(before)) <==> Follows(event, before)
    ensures LinkOf(event) == Root <==> BeginsChain(event)
  {
  }

  lemma ChainsTell(boundary: Boundary, events: seq<Record>, order: seq<int>)
    requires events != [] && forall i :: 0 <= i < |events| ==> HasDigest(events[i])
    ensures OneChain(boundary, Nodes(events), order) <==> RecordChain(boundary, events, order)
  {
    var nodes := Nodes(events);
    forall i, j | 0 <= i < |events| && 0 <= j < |events|
      ensures nodes[i].link == To(nodes[j].hash) <==> Follows(events[i], events[j])
      ensures nodes[i].link == Root <==> BeginsChain(events[i])
      ensures Prop(events[i], "eventHash") == Some(Str(nodes[i].hash))
    {
      LinksTell(events[i], events[j]);
    }
    hide Nodes;
    hide HasDigest;
    hide Follows;
    hide BeginsChain;
    hide Prop;
    if OneChain(boundary, nodes, order) {
      forall j, k | 0 <= j < k < |order| && k == j + 1 ensures Follows(events[order[k]], events[order[j]]) {
        assert LinksBack(nodes, order, k);
      }
    }
    if RecordChain(boundary, events, order) {
      forall k | 0 < k < |order| ensures LinksBack(nodes, order, k) {
        var j := k - 1;
        assert Follows(events[order[k]], events[order[j]]);
      }
    }
  }

  /**
   In terms of the records: they pass exactly when their hashes are different digests and some order of them is a
   chain that begins with an event linking to nothing, null or the empty text.
   */
  lemma LineageOfRecords(boundary: Boundary, events: seq<Record>)
    ensures LineageOk(boundary, Nodes(events)) <==>
            && boundary.eventCount == Some(Int(|events|))
            && if events == [] then boundary.firstEventHash == Some(Null) && boundary.lastEventHash == Some(Null)
               else
                 && (forall i :: 0 <= i < |events| ==> HasDigest(events[i]))
                 && (forall i, j :: 0 <= i < j < |events| ==>
                       Prop(events[i], "eventHash") != Prop(events[j], "eventHash"))
                 && exists order :: RecordChain(boundary, events, order)
  {
    DigestsTell(events);
    hide HashesOk;
    hide HasDigest;
    hide OneChain;
    hide RecordChain;
    hide HashOf;
    hide LinkOf;
    if events != [] && forall i :: 0 <= i < |events| ==> HasDigest(events[i]) {
      forall order ensures OneChain(boundary, Nodes(events), order) <==> RecordChain(boundary, events, order) {
        ChainsTell(boundary, events, order);
      }
    }
  }

  // ---------- what the code computes ----------

  /** The positions below `n` that `p` selects, in increasing order. */
  function Select(n: nat, p: nat -> bool): (r: seq<nat>)
    ensures forall i: nat :: i in r <==> i < n && p(i)
    ensures Distinct(r)
  {
    if n == 0 then [] else Select(n - 1, p) + (if p(n - 1) then [n - 1] else [])
  }

  function Roots(events: seq<Node>): seq<nat> {
    Select(|events|, (i: nat) => i < |events| && events[i].link == Root)
  }

  /** The positions of the events that link to a hash. */
  function Linked(events: seq<Node>): seq<nat> {
    Select(|events|, (i: nat) => i < |events| && events[i].link.To?)
  }

  function References(events: seq<Node>): (r: seq<string>)
    ensures |r| == |Linked(events)|
    ensures forall k :: 0 <= k < |r| ==> Linked(events)[k] < |events| && events[Linked(events)[k]].link == To(r[k])
  {
    var linked := Linked(events);
    assert forall k :: 0 <= k < |linked| ==> linked[k] in linked;
    seq(|linked|, k requires 0 <= k < |linked| => events[linked[k]].link.hash)
  }

  /** The positions of the events no event links to. */
  function Tails(events: seq<Node>): seq<nat> {
    var references := References(events);
    Select(|events|, (i: nat) => i < |events| && events[i].hash !in references)
  }

  lemma ReferenceIff(events: seq<Node>, h: string)
    ensures h in References(events) <==> exists i :: 0 <= i < |events| && events[i].link == To(h)
  {
    var linked, references := Linked(events), References(events);
    if i :| 0 <= i < |events| && events[i].link == To(h) {
      assert i in linked;
      var k :| 0 <= k < |linked| && linked[k] == i;
      assert references[k] == h;
    }
  }

  /** The event the walk finds under a hash: of several with one hash, the last. */
  function ByHash(events: seq<Node>): (m: map<string, Node>)
    ensures forall h :: h in m ==> exists i :: 0 <= i < |events| && events[i].hash == h && m[h] == events[i]
    ensures forall i :: 0 <= i < |events| ==> events[i].hash in m
  {
    if events == [] then map[]
    else
      var n := |events| - 1;
      var before := ByHash(events[..n]);
      assert forall h :: h in before ==> exists i :: 0 <= i < n && events[i].hash == h && before[h] == events[i] by {
        forall h | h in before ensures exists i :: 0 <= i < n && events[i].hash == h && before[h] == events[i] {
          var i :| 0 <= i < n && events[..n][i].hash == h && before[h] == events[..n][i];
          assert events[i].hash == h && before[h] == events[i];
        }
      }
      assert forall i :: 0 <= i < n ==> events[..n][i] == events[i];
      before[events[n].hash := events[n]]
  }

  /** The hash the walk visits after `h`; "" when it stops there. */
  function Next(events: seq<Node>, h: string): string {
    var byHash := ByHash(events);
    if h in byHash then Previous(byHash[h]) else ""
  }

  /** The hashes visited by the backward walk from `tail`, in order. */
  ghost predicate IsWalk(events: seq<Node>, tail: string, walk: seq<string>) {
    && Distinct(walk)
    && (forall k :: 0 <= k < |walk| ==> walk[k] != "")
    && (walk != [] ==> walk[0] == tail)
    && (forall k :: 0 < k < |walk| ==> Steps(events, walk, k))
  }

  ghost predicate Steps(events: seq<Node>, walk: seq<string>, k: int) {
    0 < k < |walk| && walk[k] == Next(events, walk[k - 1])
  }

  /** Where the walk goes next. */
  ghost function Ahead(events: seq<Node>, tail: string, walk: seq<string>): string {
    if walk == [] then tail else Next(events, walk[|walk| - 1])
  }

  lemma NextOf(events: seq<Node>, i: nat)
    requires HashesOk(events) && i < |events|
    ensures Next(events, events[i].hash) == Previous(events[i])
  {
    var h := events[i].hash;
    var j :| 0 <= j < |events| && events[j].hash == h && ByHash(events)[h] == events[j];
    assert i == j;
  }

  // ---------- the check ----------

  ghost predicate HasHash(events: seq<Node>, h: string) {
    exists i :: 0 <= i < |events| && events[i].hash == h
  }

  ghost predicate NoDangling(events: seq<Node>) {
    forall h :: h in References(events) ==> HasHash(events, h)
  }

  /** The checks that follow the ones on count and hashes. */
  ghost predicate LinksOk(boundary: Boundary, events: seq<Node>, walk: seq<string>) {
    && |Roots(events)| == 1 && Roots(events)[0] < |events|
    && |Tails(events)| == 1 && Tails(events)[0] < |events|
    && boundary.firstEventHash == Some(Str(events[Roots(events)[0]].hash))
    && boundary.lastEventHash == Some(Str(events[Tails(events)[0]].hash))
    && NoDangling(events) && Distinct(References(events))
    && |walk| == |events|
  }

  /** The hash of an event cannot be turned into text. */
  predicate TextlessHash(event: Record) {
    "eventHash" in event && Textless(event["eventHash"])
  }

  /** The walk indexes the events by the text of their hashes, once there is a single tail to start from. */
  predicate LineageThrows(records: seq<Record>) {
    |Tails(Nodes(records))| == 1 && AnyTextless(records)
  }

  predicate AnyTextless(records: seq<Record>) {
    exists i :: 0 <= i < |records| && TextlessHash(records[i])
  }

  lemma NoneTextless(records: seq<Record>)
    requires records == []
    ensures !AnyTextless(records)
  {
  }

  /** Events that pass the check have hashes that are texts. */
  lemma OkNeverThrows(boundary: Boundary, records: seq<Record>)
    requires LineageOk(boundary, Nodes(records))
    ensures !LineageThrows(records)
  {
    forall i | 0 <= i < |records| ensures !TextlessHash(records[i]) {
      assert IsHexDigest(Nodes(records)[i].hash);
    }
  }

  method ValidateAuditLineage(boundary: Boundary, records: seq<Record>) returns (issues: nat, threw: bool)
    ensures threw <==> LineageThrows(records)
    ensures issues == 0 && !threw <==> LineageOk(boundary, Nodes(records))
  {
    hide LineageOk;
    hide AnyTextless;
    hide HashesOk;
    hide HashOf;
    hide LinkOf;
    hide Roots;
    hide Tails;
    hide IsWalk;
    hide Ended;
    issues, threw := 0, false;
    var events := Nodes(records);
    if LineageOk(boundary, events) {
      OkNeverThrows(boundary, records);
    }
    EmptyLineage(boundary, events);
    if boundary.eventCount != Some(Int(|events|)) {
      issues := issues + 1;
    }
    if events == [] {
      if boundary.firstEventHash != Some(Null) || boundary.lastEventHash != Some(Null) {
        issues := issues + 1;
      }
      NoneTextless(records);
      return;
    }
    if !HashesOk(events) {
      issues := issues + 1;
    }
    var roots, references, tails := Roots(events), References(events), Tails(events);
    SelectedInRange(events);
    if |roots| == 1 {
      RawHash(records, roots[0]);
    }
    if |roots| != 1 || |tails| != 1
       || boundary.firstEventHash != Prop(records[roots[0]], "eventHash")
       || boundary.lastEventHash != Some(Str(events[tails[0]].hash))
    {
      issues := issues + 1;
    }
    var hashes := set i | 0 <= i < |events| :: events[i].hash;
    var branching := Branching(references);
    if (exists h :: h in references && h !in hashes) || branching {
      issues := issues + 1;
    }
    ghost var walk: seq<string> := [];
    if |tails| == 1 {
      if AnyTextless(records) {
        return issues, true;
      }
      var visited;
      visited, walk := Walk(events, events[tails[0]].hash);
      if |visited| != |events| {
        issues := issues + 1;
      }
    }
    Decides(boundary, events, walk);
  }

  /** Counts the children of every referenced hash; true when some hash has more than one. */
  method Branching(references: seq<string>) returns (branching: bool)
    ensures branching <==> !Distinct(references)
  {
    var children: map<string, nat> := map[];
    for k := 0 to |references|
      invariant forall h :: h in children <==> h in references[..k]
      invariant forall h :: h in children ==> children[h] > 0
      invariant (forall h :: h in children ==> children[h] == 1) <==> Distinct(references[..k])
    {
      var h := references[k];
      SnocDistinct(references, k);
      ghost var before := children;
      children := children[h := (if h in children then children[h] else 0) + 1];
      assert references[..k + 1] == references[..k] + [h];
      assert forall g :: g in before && g != h ==> children[g] == before[g];
      assert children[h] == 1 <==> h !in before;
      assert forall g :: g in before ==> g in children;
    }
    assert references[..|references|] == references;
    branching := exists h :: h in children && children[h] != 1;
  }

  lemma SnocDistinct(s: seq<string>, k: nat)
    requires k < |s|
    ensures Distinct(s[..k + 1]) <==> Distinct(s[..k]) && s[k] !in s[..k]
  {
    var a, b := s[..k + 1], s[..k];
    if Distinct(a) {
      forall i, j | 0 <= i < j < |b| ensures b[i] != b[j] { assert a[i] == b[i] && a[j] == b[j]; }
      forall i | 0 <= i < |b| ensures b[i] != s[k] { assert a[i] == b[i] && a[k] == s[k]; }
    }
    if Distinct(b) && s[k] !in b {
      forall i, j | 0 <= i < j < |a| ensures a[i] != a[j] {
        assert a[i] == b[i];
        if j < k { assert a[j] == b[j]; }
      }
    }
  }

  /** Where a walk over `events` can go. */
  ghost function Universe(events: seq<Node>, tail: string): set<string> {
    {tail} + set i | 0 <= i < |events| :: Previous(events[i])
  }

  lemma NextInUniverse(events: seq<Node>, tail: string, h: string)
    ensures Next(events, h) == "" || Next(events, h) in Universe(events, tail)
  {
    if h in ByHash(events) {
      var i :| 0 <= i < |events| && events[i].hash == h && ByHash(events)[h] == events[i];
      assert Previous(events[i]) in Universe(events, tail);
    }
  }

  lemma WalkStep(events: seq<Node>, tail: string, walk: seq<string>)
    requires IsWalk(events, tail, walk) && Ahead(events, tail, walk) != "" && Ahead(events, tail, walk) !in walk
    ensures IsWalk(events, tail, walk + [Ahead(events, tail, walk)])
  {
    hide Next;
    var longer := walk + [Ahead(events, tail, walk)];
    forall k | 0 < k < |longer| ensures Steps(events, longer, k) {
      assert k < |walk| ==> Steps(events, walk, k);
    }
  }

  /** The walk has nowhere new to go. */
  ghost predicate Ended(events: seq<Node>, tail: string, walk: seq<string>) {
    Ahead(events, tail, walk) == "" || Ahead(events, tail, walk) in walk
  }

  /** The backward walk. It stops at a root, at a link that leads nowhere, and on a cycle. */
  method Walk(events: seq<Node>, tail: string) returns (visited: set<string>, ghost walk: seq<string>)
    ensures IsWalk(events, tail, walk) && Ended(events, tail, walk)
    ensures visited == (set h | h in walk) && |walk| == |visited|
    ensures tail != "" ==> tail in visited
    ensures forall h :: h in visited ==> Next(events, h) == "" || Next(events, h) in visited
  {
    hide Next;
    walk := [];
    visited := {};
    var current := tail;
    while current != ""
      invariant IsWalk(events, tail, walk) && visited == (set h | h in walk) && |walk| == |visited|
      invariant current == Ahead(events, tail, walk)
      invariant tail in visited || current == tail
      invariant forall h :: h in visited ==>
                  Next(events, h) == "" || Next(events, h) == current || Next(events, h) in visited
      invariant visited <= Universe(events, tail) && (current == "" || current in Universe(events, tail))
      decreases Universe(events, tail) - visited
    {
      if current in visited {
        break;
      }
      WalkStep(events, tail, walk);
      NextInUniverse(events, tail, current);
      visited := visited + {current};
      walk := walk + [current];
      current := Next(events, current);
    }
  }

  lemma SelectedInRange(events: seq<Node>)
    ensures forall k :: 0 <= k < |Roots(events)| ==>
              Roots(events)[k] < |events| && events[Roots(events)[k]].link == Root
    ensures forall k :: 0 <= k < |Tails(events)| ==>
              Tails(events)[k] < |events| && events[Tails(events)[k]].hash !in References(events)
  {
    assert forall k :: 0 <= k < |Roots(events)| ==> Roots(events)[k] in Roots(events);
    assert forall k :: 0 <= k < |Tails(events)| ==> Tails(events)[k] in Tails(events);
  }

  // ---------- why it decides LineageOk ----------

  /** The numbers below n. */
  ghost function Below(n: nat): (r: set<int>)
    ensures |r| == n && forall i :: i in r <==> 0 <= i < n
  {
    if n == 0 then {} else Below(n - 1) + {n - 1}
  }

  /** A list of n different positions below n mentions every position. */
  lemma Pigeonhole(s: seq<int>, n: nat, i: int)
    requires |s| == n && Distinct(s) && forall k :: 0 <= k < n ==> 0 <= s[k] < n
    requires 0 <= i < n
    ensures exists k :: 0 <= k < n && s[k] == i
  {
    DistinctSize(s);
    var mentioned := set x | x in s;
    assert mentioned <= Below(n);
    assert Below(n) == mentioned + (Below(n) - mentioned);
    assert |Below(n) - mentioned| == 0;
    assert i in mentioned;
  }

  lemma {:induction false} DistinctSize(s: seq<int>)
    requires Distinct(s)
    ensures |set x | x in s| == |s|
  {
    if s != [] {
      var n := |s| - 1;
      DistinctSize(s[..n]);
      assert (set x | x in s) == (set x | x in s[..n]) + {s[n]};
    }
  }

  /** The position of the event with a given hash. */
  ghost function PositionOf(events: seq<Node>, h: string): (i: int)
    requires HasHash(events, h)
    ensures 0 <= i < |events| && events[i].hash == h
  {
    var i :| 0 <= i < |events| && events[i].hash == h;
    i
  }

  /** With no dangling link, every visited hash is the hash of an event. */
  lemma {:induction false} WalkStays(events: seq<Node>, tail: string, walk: seq<string>, k: nat)
    requires HashesOk(events) && NoDangling(events) && IsWalk(events, tail, walk) && k < |walk|
    requires HasHash(events, tail)
    ensures HasHash(events, walk[k])
  {
    if k > 0 {
      WalkStays(events, tail, walk, k - 1);
      assert Steps(events, walk, k);
      var i := PositionOf(events, walk[k - 1]);
      NextOf(events, i);
      ReferenceIff(events, walk[k]);
    }
  }

  /** The events in walk order, reversed. */
  ghost predicate Reverses(events: seq<Node>, walk: seq<string>, order: seq<int>) {
    && |order| == |walk|
    && forall k :: 0 <= k < |order| ==> 0 <= order[k] < |events| && events[order[k]].hash == walk[|walk| - 1 - k]
  }

  lemma ReversedStep(events: seq<Node>, tail: string, walk: seq<string>, order: seq<int>, k: nat)
    requires HashesOk(events) && IsWalk(events, tail, walk) && Reverses(events, walk, order) && 0 < k < |order|
    ensures LinksBack(events, order, k)
  {
    hide Next;
    var w := |walk| - 1 - k;
    NextOf(events, order[k]);
    assert Steps(events, walk, w + 1) && walk[w + 1] != "";
  }

  lemma ReversedDistinct(events: seq<Node>, walk: seq<string>, order: seq<int>)
    requires Distinct(walk) && Reverses(events, walk, order)
    ensures Distinct(order)
  {
    forall i, j | 0 <= i < j < |order| ensures order[i] != order[j] {
      assert walk[|walk| - 1 - j] != walk[|walk| - 1 - i];
    }
  }

  lemma WalkReversed(events: seq<Node>, tail: string, walk: seq<string>) returns (order: seq<int>)
    requires HashesOk(events) && NoDangling(events) && IsWalk(events, tail, walk) && HasHash(events, tail)
    ensures Reverses(events, walk, order) && Distinct(order)
    ensures forall k :: 0 < k < |order| ==> LinksBack(events, order, k)
  {
    hide HashesOk;
    hide HasHash;
    hide Steps;
    forall k | 0 <= k < |walk| ensures HasHash(events, walk[k]) {
      WalkStays(events, tail, walk, k);
    }
    order := seq(|walk|, k requires 0 <= k < |walk| => PositionOf(events, walk[|walk| - 1 - k]));
    ReversedDistinct(events, walk, order);
    forall k | 0 < k < |order| ensures LinksBack(events, order, k) {
      ReversedStep(events, tail, walk, order, k);
    }
  }

  /** When every check passes, the walk read backwards is the chain. */
  lemma Sound(boundary: Boundary, events: seq<Node>, walk: seq<string>)
    requires events != [] && HashesOk(events) && LinksOk(boundary, events, walk)
    requires IsWalk(events, events[Tails(events)[0]].hash, walk)
    ensures exists order :: OneChain(boundary, events, order)
  {
    SelectedInRange(events);
    var root, n := Roots(events)[0], |events|;
    var order := WalkReversed(events, events[Tails(events)[0]].hash, walk);
    Pigeonhole(order, n, root);
    var k :| 0 <= k < n && order[k] == root;
    assert k > 0 ==> LinksBack(events, order, k);
    assert events[root].link == Root;
    assert OneChain(boundary, events, order);
  }

  /** A chain passes every check. */
  lemma Complete(boundary: Boundary, events: seq<Node>, walk: seq<string>, order: seq<int>)
    requires HashesOk(events) && OneChain(boundary, events, order)
    requires |Tails(events)| == 1 && Tails(events)[0] < |events| ==>
               IsWalk(events, events[Tails(events)[0]].hash, walk) && Ended(events, events[Tails(events)[0]].hash, walk)
    ensures LinksOk(boundary, events, walk)
  {
    RootOfChain(events, order);
    TailOfChain(events, order);
    LinksOfChain(events, order);
    ReferencesDistinct(events, order);
    WalkCovers(events, order, walk);
  }

  lemma Decides(boundary: Boundary, events: seq<Node>, walk: seq<string>)
    requires events != []
    requires |Tails(events)| == 1 && Tails(events)[0] < |events| ==>
               IsWalk(events, events[Tails(events)[0]].hash, walk) && Ended(events, events[Tails(events)[0]].hash, walk)
    ensures LineageOk(boundary, events) <==>
            boundary.eventCount == Some(Int(|events|)) && HashesOk(events) && LinksOk(boundary, events, walk)
  {
    if HashesOk(events) && LinksOk(boundary, events, walk) {
      Sound(boundary, events, walk);
    }
    if LineageOk(boundary, events) {
      var order :| OneChain(boundary, events, order);
      Complete(boundary, events, walk, order);
    }
  }

  /** A valid hash is read the same way from the raw record. */
  lemma RawHash(records: seq<Record>, i: nat)
    requires i < |records|
    ensures HashesOk(Nodes(records)) ==> Prop(records[i], "eventHash") == Some(Str(Nodes(records)[i].hash))
  {
    if HashesOk(Nodes(records)) {
      assert IsHexDigest(Nodes(records)[i].hash);
    }
  }

  lemma EmptyLineage(boundary: Boundary, events: seq<Node>)
    ensures events == [] ==>
            (LineageOk(boundary, events) <==> boundary == Boundary(Some(Int(0)), Some(Null), Some(Null)))
  {
  }

  lemma RootOfChain(events: seq<Node>, order: seq<int>)
    requires events != [] && IsChain(events, order)
    ensures Roots(events) == [order[0]]
  {
    forall i | 0 <= i < |events| ensures events[i].link == Root <==> i == order[0] {
      Pigeonhole(order, |events|, i);
      var k :| 0 <= k < |events| && order[k] == i;
      assert k > 0 ==> LinksBack(events, order, k);
    }
    Single(Roots(events), order[0]);
  }

  lemma TailOfChain(events: seq<Node>, order: seq<int>)
    requires HashesOk(events) && events != [] && IsChain(events, order)
    ensures Tails(events) == [order[|order| - 1]]
  {
    forall i | 0 <= i < |events| ensures events[i].hash !in References(events) <==> i == order[|order| - 1] {
      ReferencedIff(events, order, i);
    }
    Single(Tails(events), order[|order| - 1]);
  }

  lemma LinksOfChain(events: seq<Node>, order: seq<int>)
    requires events != [] && IsChain(events, order)
    ensures NoDangling(events)
  {
    forall h | h in References(events) ensures HasHash(events, h) {
      ReferenceIff(events, h);
      var i :| 0 <= i < |events| && events[i].link == To(h);
      Pigeonhole(order, |events|, i);
      var k :| 0 <= k < |events| && order[k] == i;
      assert k > 0 ==> LinksBack(events, order, k);
    }
  }

  lemma Single(s: seq<nat>, x: nat)
    requires Distinct(s) && forall i: nat :: i in s <==> i == x
    ensures s == [x]
  {
    assert x in s;
    FirstOnly(s, x, |s| - 1);
    assert s[0] in s;
  }

  lemma FirstOnly(s: seq<nat>, x: nat, j: nat)
    requires Distinct(s) && j < |s| && forall i :: i in s ==> i == x
    ensures j == 0
  {
    assert s[0] in s && s[j] in s;
  }

  /** In a chain the last event is the only one nothing links to. */
  lemma ReferencedIff(events: seq<Node>, order: seq<int>, i: nat)
    requires HashesOk(events) && events != [] && IsChain(events, order) && i < |events|
    ensures events[i].hash !in References(events) <==> i == order[|order| - 1]
  {
    var n, h := |events|, events[i].hash;
    ReferenceIff(events, h);
    Pigeonhole(order, n, i);
    var k :| 0 <= k < n && order[k] == i;
    assert k < n - 1 ==> LinksBack(events, order, k + 1);
    forall j | 0 <= j < n && events[j].link == To(h) ensures k < n - 1 {
      Pigeonhole(order, n, j);
      var l :| 0 <= l < n && order[l] == j;
      assert l > 0 ==> LinksBack(events, order, l);
      assert order[l - 1] == i;
    }
  }

  lemma ReferencesDistinct(events: seq<Node>, order: seq<int>)
    requires HashesOk(events) && events != [] && IsChain(events, order)
    ensures Distinct(References(events))
  {
    var n, linked, references := |events|, Linked(events), References(events);
    forall k, l | 0 <= k < l < |references| ensures references[k] != references[l] {
      var i, j := linked[k], linked[l];
      Pigeonhole(order, n, i);
      Pigeonhole(order, n, j);
      var p :| 0 <= p < n && order[p] == i;
      var q :| 0 <= q < n && order[q] == j;
      assert p > 0 ==> LinksBack(events, order, p);
      assert q > 0 ==> LinksBack(events, order, q);
      assert p != q;
      assert events[order[p - 1]].hash == references[k] && events[order[q - 1]].hash == references[l];
    }
  }

  /** Along a chain the walk meets the events from last to first. */
  lemma {:induction false} WalkFollows(events: seq<Node>, order: seq<int>, walk: seq<string>, k: nat)
    requires HashesOk(events) && events != [] && IsChain(events, order) && k < |walk|
    requires IsWalk(events, events[order[|order| - 1]].hash, walk)
    ensures k < |order| && walk[k] == events[order[|order| - 1 - k]].hash
  {
    hide Next;
    hide HashesOk;
    hide Distinct;
    if k > 0 {
      WalkFollows(events, order, walk, k - 1);
      var i := order[|order| - k];
      NextOf(events, i);
      assert Steps(events, walk, k) && walk[k] != "";
      assert k < |order| ==> LinksBack(events, order, |order| - k);
      assert events[i].link == (if k < |order| then To(events[order[|order| - 1 - k]].hash) else Root);
    }
  }

  lemma WalkCovers(events: seq<Node>, order: seq<int>, walk: seq<string>)
    requires HashesOk(events) && events != [] && IsChain(events, order)
    requires IsWalk(events, events[order[|order| - 1]].hash, walk)
    requires Ended(events, events[order[|order| - 1]].hash, walk)
    ensures |walk| == |events|
  {
    hide Next;
    hide IsWalk;
    var n, m := |order|, |walk|;
    if m > 0 {
      WalkFollows(events, order, walk, m - 1);
      NextOf(events, order[n - m]);
    }
    if m < n {
      var h := events[order[n - 1 - m]].hash;
      assert m > 0 ==> LinksBack(events, order, n - m);
      assert h != "" by { assert IsHexDigest(h); }
      forall k | 0 <= k < m ensures walk[k] != h {
        WalkFollows(events, order, walk, k);
      }
    }
  }
}
