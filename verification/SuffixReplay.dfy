/** Replaying the end of a log a second time: for logs without undo, exactly when this changes nothing. */
module SuffixReplay {
  import opened Packages
  import opened Boards
  import opened Commands

  /**
   What a log does to one key: leave the item, settle it whatever was there, or overwrite it if it is present. The
   items of the users in `gone` are removed first.
   */
  datatype Effect =
    | Keep(gone: set<int>)
    | Settle(item: Option<DrawData>)
    | Overwrite(gone: set<int>, data: DrawData)

  function At(m: Board, k: int): Option<DrawData> {
    if k in m then Some(m[k]) else None
  }

  function Act(e: Effect, item: Option<DrawData>): Option<DrawData> {
    match e
    case Keep(gone) => if item.Some? && item.value.userId in gone then None else item
    case Settle(settled) => settled
    case Overwrite(gone, data) =>
      if item.None? || item.value.userId in gone then None else Some(data.(drawId := item.value.drawId))
  }

  /** One effect after another; an item that is overwritten and then cleared by its new owner is gone for good. */
  function Then(e: Effect, f: Effect): Effect {
    match (e, f)
    case (_, Settle(_)) => f
    case (Settle(item), _) => Settle(Act(f, item))
    case (Keep(gone), Keep(more)) => Keep(gone + more)
    case (Keep(gone), Overwrite(more, data)) => Overwrite(gone + more, data)
    case (Overwrite(gone, data), Keep(more)) => if data.userId in more then Settle(None) else e
    case (Overwrite(gone, data), Overwrite(more, later)) =>
      if data.userId in more then Settle(None) else Overwrite(gone, later)
  }

  predicate UndoFree(log: seq<Package>) {
    forall p | p in log :: !p.Undo?
  }

  function EffectOf(p: Package, k: int): Effect
    requires !p.Undo?
  {
    match p
    case Insert(data) => if data.drawId == k then Settle(Some(data)) else Keep({})
    case Edit(id, data) => if id == k then Overwrite({}, data) else Keep({})
    case Remove(id) => if id == k then Settle(None) else Keep({})
    case Clear(user) => if user == EVERYONE then Settle(None) else Keep({user})
    case Bulk(items) => Settle(At(Loaded(items), k))
    case _ => Keep({})
  }

  function LogEffect(log: seq<Package>, k: int): Effect
    requires UndoFree(log)
  {
    if log == [] then Keep({}) else Then(EffectOf(log[0], k), LogEffect(log[1..], k))
  }

  lemma ActThen(e: Effect, f: Effect, item: Option<DrawData>)
    ensures Act(Then(e, f), item) == Act(f, Act(e, item))
  {
  }

  /** A replayed log is, key by key, one of the three effects. */
  lemma {:induction false} ReplayIsEffect(log: seq<Package>, m: Board, k: int)
    requires UndoFree(log)
    ensures At(Replay(log, m), k) == Act(LogEffect(log, k), At(m, k))
  {
    if log != [] {
      var p, rest := log[0], log[1..];
      ReplayIsEffect(rest, Apply(p, m), k);
      ActThen(EffectOf(p, k), LogEffect(rest, k), At(m, k));
    }
  }

  /**
   Whether `suffix` can act twice on what `prefix` leaves: the one danger is an item that the suffix hands to a user
   whose items it clears beforehand.
   */
  predicate ActsOnce(prefix: Effect, suffix: Effect) {
    suffix.Overwrite? && suffix.data.userId in suffix.gone ==>
      match prefix
      case Keep(_) => false
      case Settle(item) => item.None? || item.value.userId in suffix.gone
      case Overwrite(_, data) => data.userId in suffix.gone
  }

  lemma ActedTwice(prefix: Effect, suffix: Effect, item: Option<DrawData>)
    requires ActsOnce(prefix, suffix)
    ensures var once := Act(suffix, Act(prefix, item)); Act(suffix, once) == once
  {
  }

  /** An item on which a dangerous suffix shows. */
  lemma ActsAgain(prefix: Effect, suffix: Effect, k: int) returns (item: DrawData)
    requires !ActsOnce(prefix, suffix)
    ensures item.drawId == k
    ensures var once := Act(suffix, Act(prefix, Some(item))); Act(suffix, once) != once
  {
    var gone := suffix.gone + if prefix.Settle? then {} else prefix.gone;
    item := Blank(k, OrderedKeys.Greatest(gone) + 1);
    assert item.userId !in gone;
  }

  /** Applying the suffix again leaves the result of the log unchanged, whatever board the log started from. */
  ghost predicate SuffixReplays(log: seq<Package>, from: nat)
    requires from <= |log|
  {
    forall m | Keyed(m) :: Replay(log[from..], Replay(log, m)) == Replay(log, m)
  }

  lemma KeyReplayed(log: seq<Package>, from: nat, m: Board, k: int)
    requires from <= |log| && UndoFree(log)
    ensures UndoFree(log[..from]) && UndoFree(log[from..])
    ensures var suffix := LogEffect(log[from..], k);
            var once := Act(suffix, Act(LogEffect(log[..from], k), At(m, k)));
            At(Replay(log, m), k) == once && At(Replay(log[from..], Replay(log, m)), k) == Act(suffix, once)
  {
    assert log == log[..from] + log[from..];
    ReplayConcat(log[..from], log[from..], m);
    ReplayIsEffect(log[..from], m, k);
    ReplayIsEffect(log[from..], Replay(log[..from], m), k);
    ReplayIsEffect(log[from..], Replay(log, m), k);
  }

  /** For every log without undo: a suffix replays if and only if there is no key on which it would act twice. */
  lemma SuffixReplaysExactly(log: seq<Package>, from: nat)
    requires from <= |log| && UndoFree(log)
    ensures UndoFree(log[..from]) && UndoFree(log[from..])
    ensures SuffixReplays(log, from) <==>
            forall k :: ActsOnce(LogEffect(log[..from], k), LogEffect(log[from..], k))
  {
    hide LogEffect, Act, Replay, ActsOnce;
    KeyReplayed(log, from, map[], 0);
    if k :| !ActsOnce(LogEffect(log[..from], k), LogEffect(log[from..], k)) {
      var item := ActsAgain(LogEffect(log[..from], k), LogEffect(log[from..], k), k);
      var m := map[k := item];
      assert At(m, k) == Some(item);
      KeyReplayed(log, from, m, k);
      assert Keyed(m) && Replay(log[from..], Replay(log, m)) != Replay(log, m);
    } else {
      forall m | Keyed(m)
        ensures Replay(log[from..], Replay(log, m)) == Replay(log, m)
      {
        forall k
          ensures At(Replay(log[from..], Replay(log, m)), k) == At(Replay(log, m), k)
        {
          KeyReplayed(log, from, m, k);
          ActedTwice(LogEffect(log[..from], k), LogEffect(log[from..], k), At(m, k));
        }
        SameBoard(Replay(log[from..], Replay(log, m)), Replay(log, m));
      }
    }
  }

  lemma SameBoard(m: Board, n: Board)
    requires forall k :: At(m, k) == At(n, k)
    ensures m == n
  {
    forall k
      ensures k in m <==> k in n
      ensures k in m ==> m[k] == n[k]
    {
      assert At(m, k) == At(n, k);
    }
  }

  // ---------------------------------------------------------------- with and without clear-mine

  /** Neither undo nor clear-mine. */
  predicate OwnerBlind(log: seq<Package>) {
    UndoFree(log) && forall p | p in log && p.Clear? :: p.user == EVERYONE
  }

  lemma {:induction false} NobodyGone(log: seq<Package>, k: int)
    requires OwnerBlind(log)
    ensures var e := LogEffect(log, k); e.Settle? || e.gone == {}
  {
    if log != [] {
      NobodyGone(log[1..], k);
    }
  }

  /** Every suffix of a log of inserts, edits, removes, bulks and clear-alls replays. */
  lemma SuffixReplayed(log: seq<Package>, from: nat)
    requires from <= |log| && OwnerBlind(log)
    ensures SuffixReplays(log, from)
  {
    SuffixReplaysExactly(log, from);
    forall k
      ensures ActsOnce(LogEffect(log[..from], k), LogEffect(log[from..], k))
    {
      NobodyGone(log[from..], k);
    }
  }

  /** A log that clears a user's items and then hands the user another's item never replays. */
  lemma ClearMineSpoilsReplay(user: int, id: int, data: DrawData)
    requires user != EVERYONE
    ensures SuffixReplays([Clear(user), Edit(id, data)], 0) <==> data.userId != user
  {
    var log := [Clear(user), Edit(id, data)];
    assert log[0..] == log && log[..0] == [];
    assert log[1..] == [Edit(id, data)] && log[1..][1..] == [];
    SuffixReplaysExactly(log, 0);
    forall k
      ensures LogEffect(log, k) == if k == id then Overwrite({user}, data) else Keep({user})
    {
      assert LogEffect(log, k) == Then(EffectOf(log[0], k), Then(EffectOf(log[1], k), Keep({})));
      assert {user} + {} + {} == {user};
    }
    assert LogEffect(log[..0], id) == Keep({});
    assert !ActsOnce(LogEffect(log[..0], id), LogEffect(log[0..], id)) <==> data.userId == user;
    assert forall k :: k != id ==> ActsOnce(LogEffect(log[..0], k), LogEffect(log[0..], k));
  }
}
