/** The key order of `std::map<int64_t, ...>`, and iterators over it. */
module OrderedKeys {
  /** A map iterator: at a key, or past the last one. */
  datatype Cursor = At(key: int) | End

  ghost function Pick<T>(s: set<T>): (x: T)
    requires s != {}
    ensures x in s
  {
    var x :| x in s; x
  }

  lemma {:induction false} LeastExists(s: set<int>)
    requires s != {}
    ensures exists k :: k in s && forall j | j in s :: k <= j
  {
    var k := Pick(s);
    if s != {k} {
      LeastExists(s - {k});
      var l :| l in s - {k} && forall j | j in s - {k} :: l <= j;
      var m := if k < l then k else l;
      assert forall j | j in s :: j == k || j in s - {k};
      assert m in s && forall j | j in s :: m <= j;
    }
  }

  lemma {:induction false} GreatestExists(s: set<int>)
    requires s != {}
    ensures exists k :: k in s && forall j | j in s :: j <= k
  {
    var k := Pick(s);
    if s != {k} {
      GreatestExists(s - {k});
      var l :| l in s - {k} && forall j | j in s - {k} :: j <= l;
      var m := if k > l then k else l;
      assert forall j | j in s :: j == k || j in s - {k};
      assert m in s && forall j | j in s :: j <= m;
    }
  }

  function Least(s: set<int>): (k: int)
    requires s != {}
    ensures k in s && forall j | j in s :: k <= j
  {
    LeastExists(s);
    var k :| k in s && forall j | j in s :: k <= j;
    k
  }

  function Greatest(s: set<int>): (k: int)
    requires s != {}
    ensures k in s && forall j | j in s :: j <= k
  {
    GreatestExists(s);
    var k :| k in s && forall j | j in s :: j <= k;
    k
  }

  /** `begin()`: the first key at or above nothing. */
  function Begin(s: set<int>): (c: Cursor)
    ensures c.End? <==> s == {}
    ensures c.At? ==> c.key in s && forall j | j in s :: c.key <= j
  {
    if s == {} then End else At(Least(s))
  }

  /** `++it`, and what `erase(it)` returns: the next key above `k`. */
  function NextKey(s: set<int>, k: int): (c: Cursor)
    ensures c.End? ==> forall j | j in s :: j <= k
    ensures c.At? ==> c.key in s && k < c.key && forall j | j in s && k < j :: c.key <= j
  {
    var above := set j | j in s && k < j;
    if above == {} then
      assert forall j | j in s :: j <= k by { forall j | j in s ensures j <= k { assert j !in above; } }
      End
    else
      var least := Least(above);
      assert forall j | j in s && k < j :: j in above;
      At(least)
  }

  /** `rbegin()`. */
  function RBegin(s: set<int>): (c: Cursor)
    ensures c.End? <==> s == {}
    ensures c.At? ==> c.key in s && forall j | j in s :: j <= c.key
  {
    if s == {} then End else At(Greatest(s))
  }

  /** `++it` on a reverse iterator: the next key below `k`. */
  function PrevKey(s: set<int>, k: int): (c: Cursor)
    ensures c.End? ==> forall j | j in s :: k <= j
    ensures c.At? ==> c.key in s && c.key < k && forall j | j in s && j < k :: j <= c.key
  {
    var below := set j | j in s && j < k;
    if below == {} then
      assert forall j | j in s :: k <= j by { forall j | j in s ensures k <= j { assert j !in below; } }
      End
    else
      var greatest := Greatest(below);
      assert forall j | j in s && j < k :: j in below;
      At(greatest)
  }
}
