/** Packages as operations on a board, and which of those operations commute or are idempotent. */
module Commands {
  import opened Packages
  import opened OrderedKeys
  import opened Boards

  /** What a client does to its board when it executes a broadcast package. */
  function Apply(p: Package, m: Board): Board {
    match p
    case Insert(data) => Inserted(m, data)
    case Edit(id, data) => Edited(m, id, data)
    case Remove(id) => Erased(m, id)
    case Clear(user) => Cleared(m, user)
    case Undo(user) => Undone(m, user)
    case Bulk(items) => Loaded(items)
    case _ => m
  }

  /** What the server does to its board: the same, except that it ignores a bulk package. */
  function ServerApply(p: Package, m: Board): Board {
    if p.Bulk? then m else Apply(p, m)
  }

  /** The board after a log of packages, oldest first. */
  function Replay(log: seq<Package>, m: Board): Board {
    if log == [] then m else Replay(log[1..], Apply(log[0], m))
  }

  lemma {:induction false} ReplayConcat(a: seq<Package>, b: seq<Package>, m: Board)
    ensures Replay(a + b, m) == Replay(b, Replay(a, m))
  {
    if a == [] {
      assert a + b == b;
    } else {
      assert (a + b)[1..] == a[1..] + b;
      ReplayConcat(a[1..], b, Apply(a[0], m));
    }
  }

  lemma ReplayLast(a: seq<Package>, p: Package, m: Board)
    ensures Replay(a + [p], m) == Apply(p, Replay(a, m))
  {
    ReplayConcat(a, [p], m);
    assert [p][1..] == [];
  }

  lemma ApplyKeepsKeyed(p: Package, m: Board)
    requires Keyed(m)
    ensures Keyed(Apply(p, m))
  {
  }

  lemma {:induction false} ReplayKeepsKeyed(log: seq<Package>, m: Board)
    requires Keyed(m)
    ensures Keyed(Replay(log, m))
  {
    if log != [] {
      ApplyKeepsKeyed(log[0], m);
      ReplayKeepsKeyed(log[1..], Apply(log[0], m));
    }
  }

  // ---------------------------------------------------------------- commutation

  /** The two packages can be applied in either order on every keyed board. */
  ghost predicate Commute(p: Package, q: Package) {
    forall m: Board | Keyed(m) :: Apply(p, Apply(q, m)) == Apply(q, Apply(p, m))
  }

  /** Packages that clients leave their board alone for. */
  predicate Silent(p: Package) {
    p.Invalid? || p.Error? || p.Generic?
  }

  /**
   Reads off two packages whether they commute; `CommuteExactly` proves the table right and complete.
   An edit races with an undo or with a clear of one user because it may hand the item to another user.
   */
  predicate MayReorder(p: Package, q: Package) {
    Silent(p) || Silent(q) || p == q ||
    match (p, q)
    case (Insert(d), Insert(e)) => d.drawId != e.drawId
    case (Insert(d), Edit(id, e)) => d.drawId != id || e.(drawId := id) == d
    case (Edit(id, e), Insert(d)) => d.drawId != id || e.(drawId := id) == d
    case (Insert(d), Remove(id)) => d.drawId != id
    case (Remove(id), Insert(d)) => d.drawId != id
    case (Insert(d), Clear(user)) => user != EVERYONE && d.userId != user
    case (Clear(user), Insert(d)) => user != EVERYONE && d.userId != user
    case (Edit(i, d), Edit(j, e)) => i != j || d.(drawId := i) == e.(drawId := i)
    case (Edit(_, _), Remove(_)) => true
    case (Remove(_), Edit(_, _)) => true
    case (Edit(_, _), Clear(user)) => user == EVERYONE
    case (Clear(user), Edit(_, _)) => user == EVERYONE
    case (Remove(_), Remove(_)) => true
    case (Remove(_), Clear(_)) => true
    case (Clear(_), Remove(_)) => true
    case (Clear(_), Clear(_)) => true
    case (Clear(_), Undo(_)) => true
    case (Undo(_), Clear(_)) => true
    case (Undo(_), Undo(_)) => true
    case _ => false
  }

  lemma ReorderSound(p: Package, q: Package, m: Board)
    requires MayReorder(p, q) && !p.Bulk? && !q.Bulk?
    ensures Apply(p, Apply(q, m)) == Apply(q, Apply(p, m))
  {
    match (p, q)
    case (Undo(u), _) => UndoReorders(u, q, m);
    case (_, Undo(u)) => UndoReorders(u, p, m);
    case _ =>
  }

  lemma UndoReorders(u: int, q: Package, m: Board)
    requires MayReorder(Undo(u), q) && !q.Bulk?
    ensures Apply(Undo(u), Apply(q, m)) == Apply(q, Apply(Undo(u), m))
  {
    match q
    case Clear(v) => UndoClear(u, v, m);
    case Undo(v) => if u != v { UndoUndo(u, v, m); }
    case _ =>
  }

  lemma UndoClear(u: int, v: int, m: Board)
    ensures Undone(Cleared(m, v), u) == Cleared(Undone(m, u), v)
  {
    if v != EVERYONE {
      if u == v {
        assert OwnedIds(Cleared(m, v), u) == {};
        assert OwnedIds(Undone(m, u), v) <= OwnedIds(m, v);
      } else {
        assert OwnedIds(Cleared(m, v), u) == OwnedIds(m, u);
        assert OwnedIds(Undone(m, u), v) == OwnedIds(m, v);
      }
    }
  }

  lemma UndoUndo(u: int, v: int, m: Board)
    requires u != v
    ensures Undone(Undone(m, v), u) == Undone(Undone(m, u), v)
  {
    assert OwnedIds(Undone(m, v), u) == OwnedIds(m, u);
    assert OwnedIds(Undone(m, u), v) == OwnedIds(m, v);
  }

  /** The draw id that an insert, edit or remove names. */
  function Target(p: Package): int {
    match p
    case Insert(data) => data.drawId
    case Edit(id, _) => id
    case Remove(id) => id
    case _ => 0
  }

  function Blank(id: int, user: int): DrawData {
    DrawData(user, id, Nothing)
  }

  /** A board on which the order of the two packages shows. */
  lemma Race(p: Package, q: Package) returns (m: Board)
    requires !MayReorder(p, q) && !p.Bulk? && !q.Bulk?
    ensures Keyed(m) && Apply(p, Apply(q, m)) != Apply(q, Apply(p, m))
  {
    var id := Target(p);
    if p.Undo? {
      m := UndoRace(p.user, q);
    } else if q.Undo? {
      m := UndoRace(q.user, p);
    } else if p.Clear? {
      m := ClearRace(p.user, q);
    } else if q.Clear? {
      m := ClearRace(q.user, p);
    } else if p.Remove? || q.Remove? {
      m := map[];
      assert id in Apply(p, Apply(q, m)) <==> id !in Apply(q, Apply(p, m));
    } else {
      m := if p.Edit? && q.Edit? then map[id := Blank(id, 0)] else map[];
      assert Apply(p, Apply(q, m))[id] != Apply(q, Apply(p, m))[id];
    }
  }

  lemma ClearRace(u: int, q: Package) returns (m: Board)
    requires !MayReorder(Clear(u), q) && !q.Bulk?
    ensures Keyed(m) && Apply(Clear(u), Apply(q, m)) != Apply(q, Apply(Clear(u), m))
  {
    var id := Target(q);
    m := if q.Insert? then map[] else map[id := Blank(id, if q.data.userId == u then u + 1 else u)];
    assert id in Apply(Clear(u), Apply(q, m)) <==> id !in Apply(q, Apply(Clear(u), m));
  }

  lemma UndoRace(u: int, q: Package) returns (m: Board)
    requires !MayReorder(Undo(u), q) && !q.Bulk?
    ensures Keyed(m) && Apply(Undo(u), Apply(q, m)) != Apply(q, Apply(Undo(u), m))
  {
    var id := Target(q);
    if !q.Remove? && q.data.userId == u {
      // the package puts the item on top of the user's items, or hands it to the user
      m := map[id - 1 := Blank(id - 1, u), id := Blank(id, u + 1)];
      assert OwnedIds(m, u) == {id - 1};
      assert OwnedIds(Apply(q, m), u) == {id - 1, id};
      assert id !in Apply(Undo(u), Apply(q, m));
      assert id in Apply(q, Apply(Undo(u), m));
    } else {
      // the package takes the user's top item away
      m := map[id - 1 := Blank(id - 1, u), id := Blank(id, u)];
      assert OwnedIds(m, u) == {id - 1, id};
      assert OwnedIds(Apply(q, m), u) == {id - 1};
      assert id - 1 !in Apply(Undo(u), Apply(q, m));
      assert id - 1 in Apply(q, Apply(Undo(u), m));
    }
  }

  /** The table is exact: two draw packages commute on every board if and only if it allows them to. */
  lemma CommuteExactly(p: Package, q: Package)
    requires !p.Bulk? && !q.Bulk?
    ensures Commute(p, q) <==> MayReorder(p, q)
  {
    if MayReorder(p, q) {
      forall m: Board | Keyed(m)
        ensures Apply(p, Apply(q, m)) == Apply(q, Apply(p, m))
      {
        ReorderSound(p, q, m);
      }
    } else {
      var m := Race(p, q);
      assert Keyed(m) && Apply(p, Apply(q, m)) != Apply(q, Apply(p, m));
    }
  }

  // ---------------------------------------------------------------- idempotence

  /** Executing the package twice in a row is the same as executing it once. */
  ghost predicate Idempotent(p: Package) {
    forall m: Board | Keyed(m) :: Apply(p, Apply(p, m)) == Apply(p, m)
  }

  lemma ApplyTwice(p: Package, m: Board)
    requires !p.Undo?
    ensures Apply(p, Apply(p, m)) == Apply(p, m)
  {
    if p.Clear? && p.user != EVERYONE {
      assert OwnedIds(Cleared(m, p.user), p.user) == {};
    }
  }

  /** Undo is the one package that is not idempotent. */
  lemma IdempotentExactly(p: Package)
    ensures Idempotent(p) <==> !p.Undo?
  {
    if p.Undo? {
      var u := p.user;
      var m := map[0 := Blank(0, u), 1 := Blank(1, u)];
      assert OwnedIds(m, u) == {0, 1};
      assert OwnedIds(Undone(m, u), u) == {0};
      assert 0 in Undone(m, u) && 0 !in Undone(Undone(m, u), u);
      assert Keyed(m) && Apply(p, Apply(p, m)) != Apply(p, m);
    } else {
      forall m: Board | Keyed(m)
        ensures Apply(p, Apply(p, m)) == Apply(p, m)
      {
        ApplyTwice(p, m);
      }
    }
  }

  /** An undo finds nothing to remove exactly when the user owns no item. */
  lemma UndoIdle(m: Board, user: int)
    ensures Undone(m, user) == m <==> OwnedIds(m, user) == {}
    ensures OwnedIds(m, user) != {} ==> |Undone(m, user)| < |m|
  {
    var mine := OwnedIds(m, user);
    if mine != {} {
      var top := Greatest(mine);
      assert top in m && top !in Undone(m, user);
      assert Undone(m, user).Keys == m.Keys - {top};
    }
  }
}
