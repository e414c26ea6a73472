/** The `DrawList` class: an ordered map that its methods update in place, one loop over an iterator at a time. */
module DrawLists {
  import opened Packages
  import opened OrderedKeys
  import opened Boards

  class DrawList {
    var dataMap: Board

    constructor ()
      ensures dataMap == map[]
    {
      dataMap := map[];
    }

    method Insert(data: DrawData)
      modifies this
      ensures dataMap == Inserted(old(dataMap), data)
    {
      dataMap := dataMap[data.drawId := data];
    }

    method Erase(id: int)
      modifies this
      ensures dataMap == Erased(old(dataMap), id)
    {
      dataMap := dataMap - {id};
    }

    method Edit(id: int, newData: DrawData)
      modifies this
      ensures dataMap == Edited(old(dataMap), id, newData)
    {
      if id in dataMap {
        var originalDrawId := dataMap[id].drawId;
        dataMap := dataMap[id := newData];
        dataMap := dataMap[id := dataMap[id].(drawId := originalDrawId)];
      }
    }

    /** Erases while it walks: the iterator moves on to what `erase` returns. */
    method Clear(user: int)
      modifies this
      ensures dataMap == Cleared(old(dataMap), user)
    {
      if user == EVERYONE {
        dataMap := map[];
        return;
      }
      ghost var was := dataMap;
      var it := Begin(dataMap.Keys);
      while it.At?
        invariant it.At? ==> it.key in dataMap
        invariant dataMap.Keys <= was.Keys
        invariant forall k | k in was ::
                    k !in dataMap <==> was[k].userId == user && (it.End? || k < it.key)
        invariant forall k | k in dataMap :: dataMap[k] == was[k]
        decreases set k | k in was && it.At? && it.key <= k
      {
        ghost var ahead := set k | k in was && it.At? && it.key <= k;
        var here := it.key;
        assert here in ahead;
        if dataMap[here].userId == user {
          dataMap := dataMap - {here};
          it := NextKey(dataMap.Keys, here);
        } else {
          it := NextKey(dataMap.Keys, here);
        }
        assert (set k | k in was && it.At? && it.key <= k) <= ahead - {here};
      }
      assert dataMap == Cleared(was, user);
    }

    /** Walks down from the highest key and erases the first item of the user that it meets. */
    method Undo(user: int)
      modifies this
      ensures dataMap == Undone(old(dataMap), user)
    {
      ghost var was := dataMap;
      ghost var mine := OwnedIds(was, user);
      var it := RBegin(dataMap.Keys);
      while it.At?
        invariant dataMap == was
        invariant it.At? ==> it.key in dataMap
        invariant forall k | k in mine :: it.At? && k <= it.key
        decreases set k | k in was && it.At? && k <= it.key
      {
        ghost var ahead := set k | k in was && it.At? && k <= it.key;
        var here := it.key;
        assert here in ahead;
        if dataMap[here].userId == user {
          assert here in mine;
          assert Greatest(mine) == here;
          dataMap := dataMap - {here};
          return;
        }
        it := PrevKey(dataMap.Keys, here);
        assert (set k | k in was && it.At? && k <= it.key) <= ahead - {here};
      }
      assert mine == {};
    }

    /** The items from the iterator's position on. */
    static function From(m: Board, it: Cursor): Board {
      map k | k in m && it.At? && it.key <= k :: m[k]
    }

    static lemma SerializedFrom(m: Board, k: int)
      requires k in m
      ensures var rest := From(m, NextKey(m.Keys, k));
              && |rest| < |From(m, At(k))|
              && Serialized(From(m, At(k))) == [m[k]] + Serialized(rest)
    {
      var all := From(m, At(k));
      assert k in all && Least(all.Keys) == k;
      assert From(m, NextKey(m.Keys, k)) == all - {k};
    }

    static lemma NothingSerialized()
      ensures Serialized(map[]) == []
    {
    }

    method Serialize() returns (bulkData: seq<DrawData>)
      ensures bulkData == Serialized(dataMap)
    {
      hide Serialized;
      NothingSerialized();
      bulkData := [];
      var it := Begin(dataMap.Keys);
      assert From(dataMap, it) == dataMap;
      while it.At?
        invariant it.At? ==> it.key in dataMap
        invariant bulkData + Serialized(From(dataMap, it)) == Serialized(dataMap)
        decreases |From(dataMap, it)|
      {
        SerializedFrom(dataMap, it.key);
        bulkData := bulkData + [dataMap[it.key]];
        it := NextKey(dataMap.Keys, it.key);
      }
    }

    method Load(bulkData: seq<DrawData>)
      modifies this
      ensures dataMap == Loaded(bulkData)
    {
      dataMap := map[];
      for i := 0 to |bulkData|
        invariant dataMap == Loaded(bulkData[..i])
      {
        dataMap := dataMap[bulkData[i].drawId := bulkData[i]];
        assert bulkData[..i + 1][..i] == bulkData[..i];
      }
      assert bulkData[..|bulkData|] == bulkData;
    }
  }
}
