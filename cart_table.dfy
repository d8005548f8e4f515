/** The cart-item table: a sequence of rows in ascending id order. The
    repository's queries promise no row order; this model fixes id order. */
module CartTable {

  import opened Entities

  /** Row ids strictly increase, and no user has two rows for one product. */
  ghost predicate WellFormed(c: seq<CartLine>)
  {
    forall i, j :: 0 <= i < j < |c| ==>
      c[i].id < c[j].id && (c[i].user != c[j].user || c[i].product != c[j].product)
  }

  /** The rows of user u, in id order (the repository's findAllByUser, whose
      order the database chooses). */
  function LinesOf(c: seq<CartLine>, u: nat): (r: seq<CartLine>)
    ensures forall l :: l in r ==> l in c
  {
    if c == [] then [] else (if c[0].user == u then [c[0]] else []) + LinesOf(c[1..], u)
  }

  /** The rows of every user but u. */
  function OthersLines(c: seq<CartLine>, u: nat): seq<CartLine>
  {
    if c == [] then [] else (if c[0].user != u then [c[0]] else []) + OthersLines(c[1..], u)
  }

  /** The table after deleting the rows whose id is in ids. */
  function Drop(c: seq<CartLine>, ids: set<int>): seq<CartLine>
  {
    if c == [] then [] else (if c[0].id !in ids then [c[0]] else []) + Drop(c[1..], ids)
  }

  /** LinesOf keeps exactly user u's rows. */
  lemma {:induction false} LinesOfMembers(c: seq<CartLine>, u: nat)
    ensures forall l :: l in LinesOf(c, u) <==> l in c && l.user == u
  {
    if c != [] {
      LinesOfMembers(c[1..], u);
      assert c == [c[0]] + c[1..];
    }
  }

  /** OthersLines keeps exactly the rows of other users. */
  lemma {:induction false} OthersLinesMembers(c: seq<CartLine>, u: nat)
    ensures forall l :: l in OthersLines(c, u) <==> l in c && l.user != u
  {
    if c != [] {
      OthersLinesMembers(c[1..], u);
      assert c == [c[0]] + c[1..];
    }
  }

  /** Drop keeps exactly the rows whose id is not in ids. */
  lemma {:induction false} DropMembers(c: seq<CartLine>, ids: set<int>)
    ensures forall l :: l in Drop(c, ids) <==> l in c && l.id !in ids
  {
    if c != [] {
      DropMembers(c[1..], ids);
      assert c == [c[0]] + c[1..];
    }
  }

  function IdSet(ls: seq<CartLine>): set<int>
  {
    set l | l in ls :: l.id
  }

  /** The position of the row with the given id (the repository's findById). */
  function FindById(c: seq<CartLine>, id: int): (r: Option<nat>)
    ensures r.Some? ==> r.value < |c| && c[r.value].id == id
    ensures r.None? <==> forall l :: l in c ==> l.id != id
  {
    if c == [] then None
    else if c[0].id == id then Some(0)
    else match FindById(c[1..], id)
      case None => None
      case Some(k) => Some(k + 1)
  }

  /** The position of user u's row for product p (findByProductAndUser). */
  function FindLine(c: seq<CartLine>, u: nat, p: int): (r: Option<nat>)
    ensures r.Some? ==> r.value < |c| && c[r.value].user == u && c[r.value].product == p
    ensures r.None? <==> forall l :: l in c ==> l.user != u || l.product != p
  {
    if c == [] then None
    else if c[0].user == u && c[0].product == p then Some(0)
    else match FindLine(c[1..], u, p)
      case None => None
      case Some(k) => Some(k + 1)
  }

  /** Taking the first row off a well-formed table. */
  lemma WellFormedTail(c: seq<CartLine>)
    requires WellFormed(c) && c != []
    ensures WellFormed(c[1..])
    ensures forall l :: l in c[1..] ==> c[0].id < l.id && (c[0].user != l.user || c[0].product != l.product)
  {
    forall l | l in c[1..]
      ensures c[0].id < l.id && (c[0].user != l.user || c[0].product != l.product)
    {
      var j :| 0 <= j < |c[1..]| && c[1..][j] == l;
      assert c[j + 1] == l;
    }
  }

  /** Putting a row in front of a well-formed table. */
  lemma WellFormedCons(x: CartLine, s: seq<CartLine>)
    requires WellFormed(s)
    requires forall l :: l in s ==> x.id < l.id && (x.user != l.user || x.product != l.product)
    ensures WellFormed([x] + s)
  {
    var c := [x] + s;
    forall i, j | 0 <= i < j < |c|
      ensures c[i].id < c[j].id && (c[i].user != c[j].user || c[i].product != c[j].product)
    {
      if i == 0 {
        assert c[j] == s[j - 1] && c[j] in s;
      } else {
        assert c[i] == s[i - 1] && c[j] == s[j - 1];
      }
    }
  }

  /** Appending a row with a fresh id and a fresh (user, product) pair, as addToCart does. */
  lemma WellFormedSnoc(c: seq<CartLine>, x: CartLine)
    requires WellFormed(c)
    requires forall l :: l in c ==> l.id < x.id && (l.user != x.user || l.product != x.product)
    ensures WellFormed(c + [x])
  {
    var d := c + [x];
    forall i, j | 0 <= i < j < |d|
      ensures d[i].id < d[j].id && (d[i].user != d[j].user || d[i].product != d[j].product)
    {
      assert d[i] == c[i] && d[i] in c;
      if j < |c| {
        assert d[j] == c[j];
      }
    }
  }

  lemma {:induction false} LinesOfWellFormed(c: seq<CartLine>, u: nat)
    requires WellFormed(c)
    ensures WellFormed(LinesOf(c, u))
  {
    if c != [] {
      WellFormedTail(c);
      LinesOfWellFormed(c[1..], u);
      LinesOfMembers(c[1..], u);
      if c[0].user == u {
        WellFormedCons(c[0], LinesOf(c[1..], u));
      }
    }
  }

  lemma {:induction false} DropWellFormed(c: seq<CartLine>, ids: set<int>)
    requires WellFormed(c)
    ensures WellFormed(Drop(c, ids))
  {
    if c != [] {
      WellFormedTail(c);
      DropWellFormed(c[1..], ids);
      DropMembers(c[1..], ids);
      if c[0].id !in ids {
        WellFormedCons(c[0], Drop(c[1..], ids));
      }
    }
  }

  /** Deleting rows one after the other is deleting them all at once. */
  lemma {:induction false} DropDrop(c: seq<CartLine>, a: set<int>, b: set<int>)
    ensures Drop(Drop(c, a), b) == Drop(c, a + b)
  {
    if c != [] {
      var t := c[1..];
      DropDrop(t, a, b);
      if c[0].id in a {
        assert Drop(c, a) == Drop(t, a);
      } else {
        var d := Drop(c, a);
        assert d == [c[0]] + Drop(t, a);
        assert d != [] && d[0] == c[0] && d[1..] == Drop(t, a);
        assert Drop(d, b) == (if c[0].id !in b then [c[0]] else []) + Drop(Drop(t, a), b);
      }
    }
  }

  /** In a well-formed table, deleting by the id of row k removes row k and nothing else. */
  lemma DropOne(c: seq<CartLine>, k: nat)
    requires WellFormed(c) && k < |c|
    ensures Drop(c, {c[k].id}) == c[..k] + c[k + 1..]
  {
    DropAt(c, k);
  }

  lemma {:induction false} DropAt(c: seq<CartLine>, k: nat)
    requires k < |c|
    requires forall i :: 0 <= i < |c| && i != k ==> c[i].id != c[k].id
    ensures Drop(c, {c[k].id}) == c[..k] + c[k + 1..]
  {
    var t := c[1..];
    if k == 0 {
      forall l | l in t
        ensures l.id != c[0].id
      {
        var i :| 0 <= i < |t| && t[i] == l;
        assert c[i + 1] == l;
      }
      DropNone(t, {c[0].id});
      assert c[..0] + c[1..] == t;
    } else {
      assert t[k - 1] == c[k];
      forall i | 0 <= i < |t| && i != k - 1
        ensures t[i].id != t[k - 1].id
      {
        assert t[i] == c[i + 1];
      }
      DropAt(t, k - 1);
      assert c[0].id != c[k].id;
      assert t[..k - 1] + t[k..] == c[1..k] + c[k + 1..];
      assert c[..k] + c[k + 1..] == [c[0]] + (c[1..k] + c[k + 1..]);
    }
  }

  lemma {:induction false} DropNone(c: seq<CartLine>, ids: set<int>)
    requires forall l :: l in c ==> l.id !in ids
    ensures Drop(c, ids) == c
  {
    if c != [] {
      DropNone(c[1..], ids);
    }
  }

  /** Deleting every row of user u's cart leaves exactly the other users' rows. */
  lemma DropOwnLines(c: seq<CartLine>, u: nat)
    requires WellFormed(c)
    ensures Drop(c, IdSet(LinesOf(c, u))) == OthersLines(c, u)
  {
    var ids := IdSet(LinesOf(c, u));
    LinesOfMembers(c, u);
    forall l | l in c
      ensures l.id in ids <==> l.user == u
    {
      if l.id in ids {
        var m :| m in LinesOf(c, u) && m.id == l.id;
        SameId(c, l, m);
      }
    }
    DropByOwner(c, ids, u);
  }

  /** In a well-formed table the id names the row. */
  lemma SameId(c: seq<CartLine>, l: CartLine, m: CartLine)
    requires WellFormed(c) && l in c && m in c && l.id == m.id
    ensures l == m
  {
    var i :| 0 <= i < |c| && c[i] == l;
    var j :| 0 <= j < |c| && c[j] == m;
    assert !(i < j) && !(j < i);
  }

  lemma {:induction false} DropByOwner(c: seq<CartLine>, ids: set<int>, u: nat)
    requires forall l :: l in c ==> (l.id in ids <==> l.user == u)
    ensures Drop(c, ids) == OthersLines(c, u)
  {
    if c != [] {
      assert c[0] in c;
      DropByOwner(c[1..], ids, u);
    }
  }

  /** A well-formed cart names each product at most once. */
  lemma LinesOfDistinct(c: seq<CartLine>, u: nat)
    requires WellFormed(c)
    ensures forall i, j :: 0 <= i < j < |LinesOf(c, u)| ==> LinesOf(c, u)[i].product != LinesOf(c, u)[j].product
  {
    LinesOfWellFormed(c, u);
    LinesOfMembers(c, u);
    var ls := LinesOf(c, u);
    forall i, j | 0 <= i < j < |ls|
      ensures ls[i].product != ls[j].product
    {
      assert ls[i] in ls && ls[j] in ls;
    }
  }
}
