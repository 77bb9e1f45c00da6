/** Properties of the document operations in js/state.js: inverses, cascade,
    idempotence, and which operations keep a document well formed. */
module StateLaws {
  import opened Wrappers
  import opened State
  import Seqs

  /** The example story satisfies every document invariant. */
  lemma DefaultStateWellFormed()
    ensures WellFormed(DefaultState)
  {
    DefaultIdsDistinct();
    DefaultEndpointsExist();
    DefaultNoSelfLoops();
    DefaultNoDuplicatePairs();
  }

  lemma DefaultIdsDistinct()
    ensures DistinctBoxIds(DefaultState) && DistinctConnectionIds(DefaultState)
  {
    DefaultBoxIdsDistinct();
    DefaultConnectionIdsDistinct();
  }

  /** The generated ids of the example story differ in the first character
      of their random suffix: position 18 for boxes, 19 for connections. */
  const DefaultBoxKeys: string := "n72ldc"
  const DefaultConnectionKeys: string := "vwg9ldj2"

  /** The keys, read off the ids. */
  lemma DefaultIdKeys()
    ensures |DefaultState.boxes| == |DefaultBoxKeys|
    ensures forall k :: 0 <= k < |DefaultState.boxes| ==>
              |DefaultState.boxes[k].id| > 18 && DefaultState.boxes[k].id[18] == DefaultBoxKeys[k]
    ensures |DefaultState.connections| == |DefaultConnectionKeys|
    ensures forall k :: 0 <= k < |DefaultState.connections| ==>
              |DefaultState.connections[k].id| > 19 && DefaultState.connections[k].id[19] == DefaultConnectionKeys[k]
  {
    assert PremiseId[18] == 'n' && ChallengeId[18] == '7' && OutcomeId[18] == '2';
    assert FailId[18] == 'l' && SuccessId[18] == 'd' && FinaleId[18] == 'c';
    assert Link1[19] == 'v' && Link2[19] == 'w' && Link3[19] == 'g' && Link4[19] == '9';
    assert Link5[19] == 'l' && Link6[19] == 'd' && Link7[19] == 'j' && Link8[19] == '2';
  }

  /** Boxes whose ids carry distinct keys at the same position have distinct ids. */
  lemma BoxIdsDistinctByKey(bs: seq<Box>, keys: string, pos: nat)
    requires |bs| == |keys|
    requires forall k :: 0 <= k < |bs| ==> |bs[k].id| > pos && bs[k].id[pos] == keys[k]
    requires forall i, j :: 0 <= i < j < |keys| ==> keys[i] != keys[j]
    ensures forall i, j :: 0 <= i < j < |bs| ==> bs[i].id != bs[j].id
  {
    forall i, j | 0 <= i < j < |bs| ensures bs[i].id != bs[j].id {
      assert bs[i].id[pos] != bs[j].id[pos];
    }
  }

  /** The same for connections. */
  lemma ConnectionIdsDistinctByKey(cs: seq<Connection>, keys: string, pos: nat)
    requires |cs| == |keys|
    requires forall k :: 0 <= k < |cs| ==> |cs[k].id| > pos && cs[k].id[pos] == keys[k]
    requires forall i, j :: 0 <= i < j < |keys| ==> keys[i] != keys[j]
    ensures forall i, j :: 0 <= i < j < |cs| ==> cs[i].id != cs[j].id
  {
    forall i, j | 0 <= i < j < |cs| ensures cs[i].id != cs[j].id {
      assert cs[i].id[pos] != cs[j].id[pos];
    }
  }

  lemma DistinctKeys()
    ensures forall i, j :: 0 <= i < j < |DefaultBoxKeys| ==> DefaultBoxKeys[i] != DefaultBoxKeys[j]
    ensures forall i, j :: 0 <= i < j < |DefaultConnectionKeys| ==> DefaultConnectionKeys[i] != DefaultConnectionKeys[j]
  {
  }

  lemma DefaultBoxIdsDistinct()
    ensures DistinctBoxIds(DefaultState)
  {
    DefaultIdKeys();
    DistinctKeys();
    BoxIdsDistinctByKey(DefaultState.boxes, DefaultBoxKeys, 18);
  }

  lemma DefaultConnectionIdsDistinct()
    ensures DistinctConnectionIds(DefaultState)
  {
    DefaultIdKeys();
    DistinctKeys();
    ConnectionIdsDistinctByKey(DefaultState.connections, DefaultConnectionKeys, 19);
  }

  lemma DefaultNoSelfLoops()
    ensures NoSelfLoops(DefaultState)
  {
  }

  lemma DefaultNoDuplicatePairs()
    ensures NoDuplicatePairs(DefaultState)
  {
    DefaultIdsDistinct();
    DefaultEndpointIndices();
    DefaultIndexPairsDistinct();
    NoDuplicatePairsByIndex(DefaultState, DefaultFromIndex, DefaultToIndex);
  }

  /** No two connections of the example story join the same two box positions. */
  lemma DefaultIndexPairsDistinct()
    ensures IndexPairsDistinct(DefaultFromIndex, DefaultToIndex)
  {
  }

  predicate IndexPairsDistinct(from: seq<nat>, to: seq<nat>)
    requires |from| == |to|
  {
    forall i, j :: 0 <= i < j < |from| ==>
      !((from[j] == from[i] && to[j] == to[i]) || (from[j] == to[i] && to[j] == from[i]))
  }

  /** With distinct box ids, duplicate pairs can be ruled out on box positions alone. */
  lemma NoDuplicatePairsByIndex(d: Document, from: seq<nat>, to: seq<nat>)
    requires DistinctBoxIds(d)
    requires |from| == |to| == |d.connections|
    requires forall k :: 0 <= k < |d.connections| ==>
               && from[k] < |d.boxes| && to[k] < |d.boxes|
               && d.connections[k].fromBox == d.boxes[from[k]].id
               && d.connections[k].toBox == d.boxes[to[k]].id
    requires IndexPairsDistinct(from, to)
    ensures NoDuplicatePairs(d)
  {
    forall i, j | 0 <= i < j < |d.connections|
      ensures !Links(d.connections[j], d.connections[i].fromBox, d.connections[i].toBox)
    {
      SameIdSameIndex(d, from[j], from[i]);
      SameIdSameIndex(d, to[j], to[i]);
      SameIdSameIndex(d, from[j], to[i]);
      SameIdSameIndex(d, to[j], from[i]);
    }
  }

  lemma SameIdSameIndex(d: Document, a: nat, b: nat)
    requires DistinctBoxIds(d) && a < |d.boxes| && b < |d.boxes|
    ensures d.boxes[a].id == d.boxes[b].id ==> a == b
  {
  }

  /** Connection k of the example story runs from box DefaultFromIndex[k]
      to box DefaultToIndex[k]. */
  const DefaultFromIndex: seq<nat> := [0, 1, 1, 2, 2, 2, 3, 4]
  const DefaultToIndex: seq<nat> := [1, 3, 4, 1, 3, 4, 5, 5]

  lemma DefaultEndpointIndices()
    ensures |DefaultState.connections| == |DefaultFromIndex| == |DefaultToIndex|
    ensures forall k :: 0 <= k < |DefaultState.connections| ==>
              && DefaultFromIndex[k] < |DefaultState.boxes| && DefaultToIndex[k] < |DefaultState.boxes|
              && DefaultState.connections[k].fromBox == DefaultState.boxes[DefaultFromIndex[k]].id
              && DefaultState.connections[k].toBox == DefaultState.boxes[DefaultToIndex[k]].id
  {
  }

  lemma DefaultEndpointsExist()
    ensures EndpointsExist(DefaultState)
  {
    var d := DefaultState;
    DefaultEndpointIndices();
    forall k | 0 <= k < |d.connections|
      ensures HasBox(d, d.connections[k].fromBox) && HasBox(d, d.connections[k].toBox)
    {
      assert d.boxes[DefaultFromIndex[k]].id == d.connections[k].fromBox;
      assert d.boxes[DefaultToIndex[k]].id == d.connections[k].toBox;
    }
  }

  /** Loading never hands back a broken document when it falls back. */
  lemma LoadFallbackWellFormed(saved: Option<string>, parse: string -> ParseResult<Document>)
    requires saved.None? || saved.value == "" || parse(saved.value).ParseFailed?
    ensures WellFormed(LoadState(saved, parse))
    ensures LoadState(saved, parse).name == "Story title" && |LoadState(saved, parse).boxes| == 6
  {
    DefaultStateWellFormed();
  }

  /** Whatever was written is read back, provided the stored text parses to it. */
  lemma LoadAfterSave(d: Document, serialize: Document -> string, parse: string -> ParseResult<Document>)
    requires serialize(d) != "" && parse(serialize(d)) == Parsed(d)
    ensures LoadState(Some(serialize(d)), parse) == d
  {
  }

  // ---------------------------------------------------------------------------
  // Boxes

  /** Removing a freshly added box restores the document, provided no
      connection already named its id. */
  lemma AddThenRemoveBox(d: Document, b: Box)
    requires !HasBox(d, b.id)
    requires forall c :: c in d.connections ==> !Incident(c, b.id)
    ensures RemoveBox(AddBox(d, b), b.id) == d
  {
    var a := AddBox(d, b);
    Seqs.FilterAppend(d.boxes, [b], NotBoxId(b.id));
    Seqs.FilterAll(d.boxes, NotBoxId(b.id));
    assert Seqs.Filter([b], NotBoxId(b.id)) == [];
    Seqs.FilterAll(d.connections, NotIncidentTo(b.id));
  }

  /** Removing the same box twice is removing it once. */
  lemma RemoveBoxIdempotent(d: Document, id: string)
    ensures RemoveBox(RemoveBox(d, id), id) == RemoveBox(d, id)
  {
    Seqs.FilterIdempotent(d.boxes, NotBoxId(id));
    Seqs.FilterIdempotent(d.connections, NotIncidentTo(id));
  }

  /** The cascade splits the connections in two: those kept and those
      incident to the removed box. Nothing else is lost. */
  lemma RemoveBoxPartition(d: Document, id: string)
    ensures multiset(RemoveBox(d, id).connections)
            + multiset(Seqs.Filter(d.connections, IncidentTo(id))) == multiset(d.connections)
    ensures multiset(RemoveBox(d, id).boxes)
            + multiset(Seqs.Filter(d.boxes, BoxIdIs(id))) == multiset(d.boxes)
  {
    Seqs.FilterPartition(d.connections, NotIncidentTo(id), IncidentTo(id));
    Seqs.FilterPartition(d.boxes, NotBoxId(id), BoxIdIs(id));
  }

  /** Removal keeps order: removing from a concatenation removes from each
      part, and a single box stays exactly when its id differs. Together these
      fix the result as the surviving boxes in their original order. */
  lemma RemoveBoxKeepsOrder(d: Document, id: string, a: seq<Box>, b: seq<Box>, x: Box)
    ensures RemoveBox(d.(boxes := a + b), id).boxes
            == RemoveBox(d.(boxes := a), id).boxes + RemoveBox(d.(boxes := b), id).boxes
    ensures RemoveBox(d.(boxes := [x]), id).boxes == if x.id == id then [] else [x]
  {
    Seqs.FilterAppend(a, b, NotBoxId(id));
    assert [x][1..] == [];
  }

  /** The same for the connections the cascade keeps. */
  lemma RemoveBoxKeepsConnectionOrder(d: Document, id: string, a: seq<Connection>, b: seq<Connection>,
                                      c: Connection)
    ensures RemoveBox(d.(connections := a + b), id).connections
            == RemoveBox(d.(connections := a), id).connections + RemoveBox(d.(connections := b), id).connections
    ensures RemoveBox(d.(connections := [c]), id).connections == if Incident(c, id) then [] else [c]
  {
    Seqs.FilterAppend(a, b, NotIncidentTo(id));
    assert [c][1..] == [];
  }

  /** HasBox after a removal is HasBox before, for every other id. */
  lemma RemoveBoxHasBox(d: Document, id: string, other: string)
    requires other != id
    ensures HasBox(RemoveBox(d, id), other) <==> HasBox(d, other)
  {
    var r := RemoveBox(d, id);
    if HasBox(d, other) {
      var i :| 0 <= i < |d.boxes| && d.boxes[i].id == other;
      assert d.boxes[i] in r.boxes;
    }
    if HasBox(r, other) {
      var i :| 0 <= i < |r.boxes| && r.boxes[i].id == other;
      assert r.boxes[i] in d.boxes;
    }
  }

  /** An element related to every element of `t` is related to every element kept by a filter of `t`. */
  lemma FilterKeepsRelatedTo<T>(x: T, t: seq<T>, p: T -> bool, rel: (T, T) -> bool)
    requires forall k :: 0 <= k < |t| ==> rel(x, t[k])
    ensures forall j :: 0 <= j < |Seqs.Filter(t, p)| ==> rel(x, Seqs.Filter(t, p)[j])
  {
    var ft := Seqs.Filter(t, p);
    forall j | 0 <= j < |ft| ensures rel(x, ft[j]) {
      assert ft[j] in t;
      var k :| 0 <= k < |t| && t[k] == ft[j];
    }
  }

  /** A filter keeps a sequence whose elements are pairwise related that
      way, because it keeps their order. */
  lemma {:induction false} FilterKeepsPairwise<T>(s: seq<T>, p: T -> bool, rel: (T, T) -> bool)
    requires forall i, j :: 0 <= i < j < |s| ==> rel(s[i], s[j])
    ensures forall i, j :: 0 <= i < j < |Seqs.Filter(s, p)| ==>
              rel(Seqs.Filter(s, p)[i], Seqs.Filter(s, p)[j])
    decreases |s|
  {
    if |s| > 0 {
      var t := s[1..];
      forall i, j | 0 <= i < j < |t| ensures rel(t[i], t[j]) {
        assert t[i] == s[i + 1] && t[j] == s[j + 1];
      }
      FilterKeepsPairwise(t, p, rel);
      forall k | 0 <= k < |t| ensures rel(s[0], t[k]) {
        assert t[k] == s[k + 1];
      }
      var f, ft := Seqs.Filter(s, p), Seqs.Filter(t, p);
      if p(s[0]) {
        assert f == [s[0]] + ft;
        FilterKeepsRelatedTo(s[0], t, p, rel);
        forall i, j | 0 <= i < j < |f| ensures rel(f[i], f[j]) {
          if i == 0 {
            assert f[j] == ft[j - 1];
          } else {
            assert f[i] == ft[i - 1] && f[j] == ft[j - 1];
          }
        }
      } else {
        assert f == ft;
      }
    }
  }

  /** The cascade delete keeps every document invariant. */
  lemma RemoveBoxPreservesWellFormed(d: Document, id: string)
    requires WellFormed(d)
    ensures WellFormed(RemoveBox(d, id))
  {
    var r := RemoveBox(d, id);
    FilterKeepsPairwise(d.boxes, NotBoxId(id), (a: Box, b: Box) => a.id != b.id);
    FilterKeepsPairwise(d.connections, NotIncidentTo(id), (a: Connection, b: Connection) => a.id != b.id);
    FilterKeepsPairwise(d.connections, NotIncidentTo(id),
                        (a: Connection, b: Connection) => !Links(b, a.fromBox, a.toBox));
    forall c | c in r.connections
      ensures HasBox(r, c.fromBox) && HasBox(r, c.toBox)
    {
      RemoveBoxHasBox(d, id, c.fromBox);
      RemoveBoxHasBox(d, id, c.toBox);
    }
  }

  /** A box with a fresh id keeps the document well formed. */
  lemma AddBoxPreservesWellFormed(d: Document, b: Box)
    requires WellFormed(d) && !HasBox(d, b.id)
    ensures WellFormed(AddBox(d, b))
  {
    var r := AddBox(d, b);
    forall c | c in r.connections
      ensures HasBox(r, c.fromBox) && HasBox(r, c.toBox)
    {
      var i :| 0 <= i < |d.boxes| && d.boxes[i].id == c.fromBox;
      var j :| 0 <= j < |d.boxes| && d.boxes[j].id == c.toBox;
      assert r.boxes[i] == d.boxes[i] && r.boxes[j] == d.boxes[j];
    }
  }

  // ---------------------------------------------------------------------------
  // Connections

  /** A new connection that can join a well-formed document without
      breaking it: two distinct existing boxes, not yet linked, and an id no
      connection has. */
  predicate Admissible(d: Document, c: Connection) {
    && HasBox(d, c.fromBox) && HasBox(d, c.toBox) && c.fromBox != c.toBox
    && !Linked(d.connections, c.fromBox, c.toBox)
    && forall k :: k in d.connections ==> k.id != c.id
  }

  /** `addConnection` guards nothing: the document it returns is well formed
      exactly when the document was and the new connection is admissible.
      A self-loop, a duplicate pair, a dangling end or a reused id is stored
      all the same and breaks the invariant. */
  lemma AddConnectionUnchecked(d: Document, c: Connection)
    ensures WellFormed(AddConnection(d, c)) <==> WellFormed(d) && Admissible(d, c)
  {
    if WellFormed(AddConnection(d, c)) {
      AddConnectionNeedsAdmissible(d, c);
    }
    if WellFormed(d) && Admissible(d, c) {
      AdmissibleAddKeepsWellFormed(d, c);
    }
  }

  lemma AddConnectionNeedsAdmissible(d: Document, c: Connection)
    requires WellFormed(AddConnection(d, c))
    ensures WellFormed(d) && Admissible(d, c)
  {
    var r := AddConnection(d, c);
    var n := |d.connections|;
    assert r.connections[n] == c;
    assert forall i :: 0 <= i < n ==> r.connections[i] == d.connections[i];
    assert forall id :: HasBox(r, id) == HasBox(d, id);
    assert c in r.connections;
    forall k | k in d.connections ensures k.id != c.id && !Links(k, c.fromBox, c.toBox) {
      var i :| 0 <= i < n && d.connections[i] == k;
      assert r.connections[i].id != r.connections[n].id;
      assert !Links(r.connections[n], r.connections[i].fromBox, r.connections[i].toBox);
    }
    forall k | k in d.connections ensures HasBox(d, k.fromBox) && HasBox(d, k.toBox) {
      assert k in r.connections;
    }
  }

  lemma AdmissibleAddKeepsWellFormed(d: Document, c: Connection)
    requires WellFormed(d) && Admissible(d, c)
    ensures WellFormed(AddConnection(d, c))
  {
    var r := AddConnection(d, c);
    var n := |d.connections|;
    assert forall id :: HasBox(r, id) == HasBox(d, id);
    forall i, j | 0 <= i < j < |r.connections|
      ensures r.connections[i].id != r.connections[j].id
      ensures !Links(r.connections[j], r.connections[i].fromBox, r.connections[i].toBox)
    {
      if j == n {
        assert d.connections[i] in d.connections;
      }
    }
  }

  /** Removing a freshly added connection restores the document. */
  lemma AddThenRemoveConnection(d: Document, c: Connection)
    requires forall k :: k in d.connections ==> k.id != c.id
    ensures RemoveConnection(AddConnection(d, c), c.id) == d
  {
    Seqs.FilterAppend(d.connections, [c], NotConnectionId(c.id));
    Seqs.FilterAll(d.connections, NotConnectionId(c.id));
    assert Seqs.Filter([c], NotConnectionId(c.id)) == [];
  }

  /** `removeConnection` keeps order in the same way as `removeBox`. */
  lemma RemoveConnectionKeepsOrder(d: Document, id: string, a: seq<Connection>, b: seq<Connection>,
                                   c: Connection)
    ensures RemoveConnection(d.(connections := a + b), id).connections
            == RemoveConnection(d.(connections := a), id).connections
               + RemoveConnection(d.(connections := b), id).connections
    ensures RemoveConnection(d.(connections := [c]), id).connections == if c.id == id then [] else [c]
  {
    Seqs.FilterAppend(a, b, NotConnectionId(id));
    assert [c][1..] == [];
  }

  /** Every connection with another id is kept as many times as it occurred,
      and none with the id is left. */
  lemma RemoveConnectionCounts(d: Document, id: string)
    ensures forall c :: multiset(RemoveConnection(d, id).connections)[c]
                        == if c.id == id then 0 else multiset(d.connections)[c]
  {
    var kept := RemoveConnection(d, id).connections;
    var gone := Seqs.Filter(d.connections, ConnectionIdIs(id));
    Seqs.FilterPartition(d.connections, NotConnectionId(id), ConnectionIdIs(id));
    forall c: Connection ensures multiset(kept)[c] == if c.id == id then 0 else multiset(d.connections)[c] {
      if c.id == id {
        assert c !in kept;
      } else {
        forall i | 0 <= i < |gone| ensures gone[i] != c {
          assert gone[i].id == id;
        }
      }
    }
  }

  /** A filter that rejects exactly one position shortens the sequence by one. */
  lemma FilterDropsOne<T>(s: seq<T>, p: T -> bool, k: nat)
    requires k < |s| && !p(s[k])
    requires forall i :: 0 <= i < |s| && i != k ==> p(s[i])
    ensures |Seqs.Filter(s, p)| == |s| - 1
  {
    var head, tail := s[..k], s[k + 1..];
    assert s == head + [s[k]] + tail;
    assert forall i :: 0 <= i < |head| ==> p(head[i]) by {
      forall i | 0 <= i < |head| ensures p(head[i]) {
        assert head[i] == s[i];
      }
    }
    assert forall i :: 0 <= i < |tail| ==> p(tail[i]) by {
      forall i | 0 <= i < |tail| ensures p(tail[i]) {
        assert tail[i] == s[k + 1 + i];
      }
    }
    Seqs.FilterAll(head, p);
    Seqs.FilterAll(tail, p);
    assert Seqs.Filter([s[k]], p) == [];
    Seqs.FilterAppend(head, [s[k]], p);
    Seqs.FilterAppend(head + [s[k]], tail, p);
  }

  /** With distinct connection ids, removing an existing id drops exactly one connection. */
  lemma RemoveConnectionDropsOne(d: Document, id: string)
    requires DistinctConnectionIds(d)
    requires exists k :: 0 <= k < |d.connections| && d.connections[k].id == id
    ensures |RemoveConnection(d, id).connections| == |d.connections| - 1
  {
    var k :| 0 <= k < |d.connections| && d.connections[k].id == id;
    var p := NotConnectionId(id);
    forall i | 0 <= i < |d.connections| && i != k
      ensures p(d.connections[i])
    {
      if i < k {
        assert d.connections[i].id != d.connections[k].id;
      } else {
        assert d.connections[k].id != d.connections[i].id;
      }
    }
    FilterDropsOne(d.connections, p, k);
  }

  /** Removing a connection keeps every document invariant. */
  lemma RemoveConnectionPreservesWellFormed(d: Document, id: string)
    requires WellFormed(d)
    ensures WellFormed(RemoveConnection(d, id))
  {
    FilterKeepsPairwise(d.connections, NotConnectionId(id), (a: Connection, b: Connection) => a.id != b.id);
    FilterKeepsPairwise(d.connections, NotConnectionId(id),
                        (a: Connection, b: Connection) => !Links(b, a.fromBox, a.toBox));
  }

  /** `r` differs from `d` at most in connection colours and styles. */
  predicate SameLinks(d: Document, r: Document) {
    && r.boxes == d.boxes
    && |r.connections| == |d.connections|
    && forall k :: 0 <= k < |d.connections| ==>
         && r.connections[k].id == d.connections[k].id
         && r.connections[k].fromBox == d.connections[k].fromBox
         && r.connections[k].toBox == d.connections[k].toBox
  }

  lemma SameLinksPreservesWellFormed(d: Document, r: Document)
    requires WellFormed(d) && SameLinks(d, r)
    ensures WellFormed(r)
  {
    forall c | c in r.connections
      ensures HasBox(r, c.fromBox) && HasBox(r, c.toBox) && c.fromBox != c.toBox
    {
      var k :| 0 <= k < |r.connections| && r.connections[k] == c;
      assert d.connections[k] in d.connections;
    }
    forall i, j | 0 <= i < j < |r.connections|
      ensures !Links(r.connections[j], r.connections[i].fromBox, r.connections[i].toBox)
    {
      assert !Links(d.connections[j], d.connections[i].fromBox, d.connections[i].toBox);
    }
  }

  /** The popover edits the connection object it was opened on. With
      distinct connection ids, editing by that object's id changes exactly
      its position. */
  lemma PopoverEditsWriteHeldConnection(d: Document, i: nat, color: string, style: Style)
    requires DistinctConnectionIds(d) && i < |d.connections|
    ensures SetConnectionColor(d, d.connections[i].id, color).connections
            == d.connections[i := d.connections[i].(color := color)]
    ensures SetConnectionStyle(d, d.connections[i].id, style).connections
            == d.connections[i := d.connections[i].(style := style)]
  {
    forall j | 0 <= j < |d.connections| && j != i
      ensures d.connections[j].id != d.connections[i].id
    {
      if j < i {
        assert d.connections[j].id != d.connections[i].id;
      } else {
        assert d.connections[i].id != d.connections[j].id;
      }
    }
  }

  /** Recolouring or restyling a connection keeps every document invariant. */
  lemma PopoverEditsPreserveWellFormed(d: Document, id: string, color: string, style: Style)
    requires WellFormed(d)
    ensures WellFormed(SetConnectionColor(d, id, color))
    ensures WellFormed(SetConnectionStyle(d, id, style))
  {
    SameLinksPreservesWellFormed(d, SetConnectionColor(d, id, color));
    SameLinksPreservesWellFormed(d, SetConnectionStyle(d, id, style));
  }

  // ---------------------------------------------------------------------------
  // Clearing and in-place box edits

  /** Clearing yields a well-formed empty document, and clearing again changes nothing. */
  lemma ClearStateLaws(d: Document)
    ensures WellFormed(ClearState(d))
    ensures ClearState(ClearState(d)) == ClearState(d)
    ensures forall id :: !HasBox(ClearState(d), id)
  {
  }

  /** Writing a box back in place keeps every document invariant: ids do not move. */
  lemma UpdateBoxPreservesWellFormed(d: Document, b: Box)
    requires WellFormed(d)
    ensures WellFormed(UpdateBox(d, b))
  {
    var r := UpdateBox(d, b);
    forall c | c in r.connections
      ensures HasBox(r, c.fromBox) && HasBox(r, c.toBox)
    {
      var i :| 0 <= i < |d.boxes| && d.boxes[i].id == c.fromBox;
      var j :| 0 <= j < |d.boxes| && d.boxes[j].id == c.toBox;
      assert r.boxes[i].id == c.fromBox && r.boxes[j].id == c.toBox;
    }
  }

  /** A gesture writes to the box object it holds. With distinct box ids,
      writing back by that box's id changes exactly its position. */
  lemma UpdateBoxWritesHeldBox(d: Document, i: nat, b: Box)
    requires DistinctBoxIds(d) && i < |d.boxes| && d.boxes[i].id == b.id
    ensures UpdateBox(d, b).boxes == d.boxes[i := b]
  {
    forall j | 0 <= j < |d.boxes| && j != i
      ensures d.boxes[j].id != b.id
    {
      if j < i {
        assert d.boxes[j].id != d.boxes[i].id;
      } else {
        assert d.boxes[i].id != d.boxes[j].id;
      }
    }
  }

  /** With a repeated id the two differ: writing back rewrites both boxes,
      where the held object is only one of them. */
  lemma UpdateBoxRepeatedId(a: Box, b: Box)
    requires b.id == a.id && b != a
    ensures UpdateBox(Document("s", [a, a], []), b).boxes == [b, b]
    ensures UpdateBox(Document("s", [a, a], []), b).boxes != [a, a][0 := b]
  {
    assert [a, a][0 := b][1] == a;
  }

  /** After writing a box back, looking up its id finds the new value and
      every other lookup is as before. */
  lemma UpdateBoxLookup(d: Document, b: Box, id: string)
    requires HasBox(d, b.id)
    ensures id == b.id ==> GetBox(UpdateBox(d, b), id) == Some(b)
    ensures id != b.id ==> GetBox(UpdateBox(d, b), id) == GetBox(d, id)
  {
    var r := UpdateBox(d, b);
    Seqs.FirstIndexCongruent(d.boxes, r.boxes, BoxIdIs(id));
  }
}
