/**
 What the `DrawList` operations do to the map from draw id to item, and the algebra of those operations.
 `DrawList.dfy` proves the loops of the C++ class against these functions.
 */
module Boards {
  import opened Packages
  import opened OrderedKeys

  type Board = map<int, DrawData>

  /** Every key is the draw id stored in its value. */
  ghost predicate Keyed(m: Board) {
    forall k | k in m :: m[k].drawId == k
  }

  function OwnedIds(m: Board, user: int): set<int> {
    set k | k in m && m[k].userId == user
  }

  function Inserted(m: Board, data: DrawData): Board {
    m[data.drawId := data]
  }

  function Erased(m: Board, id: int): Board {
    m - {id}
  }

  function Edited(m: Board, id: int, data: DrawData): Board {
    if id in m then m[id := data.(drawId := m[id].drawId)] else m
  }

  function Cleared(m: Board, user: int): Board {
    if user == EVERYONE then map[] else m - OwnedIds(m, user)
  }

  function Undone(m: Board, user: int): Board {
    var mine := OwnedIds(m, user);
    if mine == {} then m else m - {Greatest(mine)}
  }

  /** The items in ascending key order, which is the traversal order of `serialize` and `generate_hash`. */
  function Serialized(m: Board): (items: seq<DrawData>)
    ensures |items| == |m|
    decreases |m|
  {
    if m == map[] then []
    else
      var k := Least(m.Keys);
      [m[k]] + Serialized(m - {k})
  }

  /** A later item replaces an earlier one with the same draw id. */
  function Loaded(items: seq<DrawData>): (m: Board)
    ensures Keyed(m)
  {
    if items == [] then map[]
    else Inserted(Loaded(items[..|items| - 1]), items[|items| - 1])
  }

  // ---------------------------------------------------------------- undo and clear

  function UndoneTimes(m: Board, user: int, n: nat): Board {
    if n == 0 then m else UndoneTimes(Undone(m, user), user, n - 1)
  }

  /** The user's items drawn after item `k`. */
  function OwnedAbove(m: Board, user: int, k: int): set<int> {
    set j | j in OwnedIds(m, user) && k < j
  }

  /** `n` undos take away exactly the user's `n` items with the highest ids, and change nothing else. */
  lemma {:induction false} UndoTakesTheHighest(m: Board, user: int, n: nat, k: int)
    ensures k in UndoneTimes(m, user, n) <==>
            k in m && (m[k].userId == user ==> n <= |OwnedAbove(m, user, k)|)
    ensures k in UndoneTimes(m, user, n) ==> UndoneTimes(m, user, n)[k] == m[k]
  {
    if n > 0 {
      var m' := Undone(m, user);
      UndoTakesTheHighest(m', user, n - 1, k);
      var mine := OwnedIds(m, user);
      if mine == {} {
        assert OwnedAbove(m, user, k) == {};
        assert k in m && m[k].userId == user ==> k in mine;
      } else if k in mine {
        var top := Greatest(mine);
        assert OwnedAbove(m', user, k) == OwnedAbove(m, user, k) - {top};
        assert k != top ==> top in OwnedAbove(m, user, k);
        assert k == top ==> OwnedAbove(m, user, k) == {};
      }
    }
  }

  /** Undoing as often as the user has items is the same as `clear` for that user. */
  lemma UndoAllIsClear(m: Board, user: int)
    requires user != EVERYONE
    ensures UndoneTimes(m, user, |OwnedIds(m, user)|) == Cleared(m, user)
  {
    var mine := OwnedIds(m, user);
    var undone := UndoneTimes(m, user, |mine|);
    forall k
      ensures k in undone <==> k in Cleared(m, user)
      ensures k in undone ==> undone[k] == m[k]
    {
      UndoTakesTheHighest(m, user, |mine|, k);
      if k in mine {
        assert OwnedAbove(m, user, k) <= mine - {k};
        SubsetSize(OwnedAbove(m, user, k), mine - {k});
      }
    }
  }

  lemma {:induction false} SubsetSize<T>(a: set<T>, b: set<T>)
    requires a <= b
    ensures |a| <= |b|
    ensures |a| == |b| ==> a == b
  {
    assert b == a + (b - a);
  }

  // ---------------------------------------------------------------- serialize and load

  /** `load` of any bulk list: the keys are the ids that occur, and the last item with an id wins. */
  lemma {:induction false} LoadLastWins(items: seq<DrawData>, k: int)
    ensures k in Loaded(items) <==> exists i | 0 <= i < |items| :: items[i].drawId == k
    ensures forall i | 0 <= i < |items| && items[i].drawId == k
                       && (forall j | i < j < |items| :: items[j].drawId != k) :: Loaded(items)[k] == items[i]
  {
    if items != [] {
      var init, last := items[..|items| - 1], items[|items| - 1];
      LoadLastWins(init, k);
      assert forall i | 0 <= i < |init| :: init[i] == items[i];
      if k in Loaded(items) && last.drawId != k {
        var i :| 0 <= i < |init| && init[i].drawId == k;
        assert items[i].drawId == k;
      }
    }
  }

  ghost predicate AscendingIds(items: seq<DrawData>) {
    forall i, j | 0 <= i < j < |items| :: items[i].drawId < items[j].drawId
  }

  /** `serialize` lists stored items only, in strictly ascending order of id. */
  lemma {:induction false} SerializedAscends(m: Board)
    requires Keyed(m)
    ensures AscendingIds(Serialized(m))
    ensures AllStored(Serialized(m), m)
    decreases |m|
  {
    if m != map[] {
      var k := Least(m.Keys);
      var rest, tail := m - {k}, Serialized(m - {k});
      SerializedAscends(rest);
      AscendingCons(m, k, tail);
    }
  }

  ghost predicate AllStored(items: seq<DrawData>, m: Board) {
    forall i | 0 <= i < |items| :: items[i].drawId in m && m[items[i].drawId] == items[i]
  }

  lemma AscendingCons(m: Board, k: int, tail: seq<DrawData>)
    requires Keyed(m) && k in m && (forall j | j in m :: k <= j)
    requires AscendingIds(tail) && AllStored(tail, m - {k})
    ensures AscendingIds([m[k]] + tail) && AllStored([m[k]] + tail, m)
  {
    var items := [m[k]] + tail;
    forall i | 0 < i < |items|
      ensures items[i].drawId in m && m[items[i].drawId] == items[i] && k < items[i].drawId
    {
      assert items[i] == tail[i - 1];
    }
  }

  /** `serialize` lists every stored item. */
  lemma {:induction false} SerializedCovers(m: Board, k: int) returns (i: nat)
    requires k in m
    ensures i < |Serialized(m)| && Serialized(m)[i] == m[k]
    decreases |m|
  {
    var least := Least(m.Keys);
    if k == least {
      i := 0;
    } else {
      i := SerializedCovers(m - {least}, k);
      i := i + 1;
    }
  }

  /** Loading a snapshot gives back the board it was taken from, whatever was there before. */
  lemma SnapshotRoundTrip(m: Board)
    requires Keyed(m)
    ensures Loaded(Serialized(m)) == m
  {
    var items := Serialized(m);
    SerializedAscends(m);
    forall k
      ensures k in Loaded(items) <==> k in m
      ensures k in m ==> Loaded(items)[k] == m[k]
    {
      LoadLastWins(items, k);
      if k in m {
        var i := SerializedCovers(m, k);
      }
    }
  }

  /** Two boards feed `generate_hash` the same items exactly when they are the same board. */
  lemma SerializedDeterminesBoard(m: Board, n: Board)
    requires Keyed(m) && Keyed(n)
    ensures Serialized(m) == Serialized(n) <==> m == n
  {
    SnapshotRoundTrip(m);
    SnapshotRoundTrip(n);
  }
}
