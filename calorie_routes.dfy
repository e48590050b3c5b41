/**
 * The calorie routes of the server: POST / adds an amount to the user's
 * running total with a single-field increment, GET /total reads it.
 */
module CalorieRoutes {
  import opened Wrappers
  import opened Http
  import opened UserModel
  import opened UserCollection

  /** The collection after `$inc: { totalCalories: n }` on document `id` (nothing happens when it is missing). */
  function Inc(users: map<UserId, User>, id: UserId, n: int): (r: map<UserId, User>)
    ensures r.Keys == users.Keys
    ensures id in users ==> r[id] == users[id].(totalCalories := users[id].totalCalories + n)
    ensures forall k :: k in users && k != id ==> r[k] == users[k]
  {
    if id in users then users[id := users[id].(totalCalories := users[id].totalCalories + n)] else users
  }

  function Sum(amounts: seq<int>): int {
    if amounts == [] then 0 else Sum(amounts[..|amounts| - 1]) + amounts[|amounts| - 1]
  }

  /** The collection after the increments, one after the other, in the order given. */
  function IncAll(users: map<UserId, User>, id: UserId, amounts: seq<int>): (r: map<UserId, User>)
    ensures r.Keys == users.Keys
  {
    if amounts == [] then users
    else Inc(IncAll(users, id, amounts[..|amounts| - 1]), id, amounts[|amounts| - 1])
  }

  /**
   * A sequence of increments adds up: the total grows by the sum of the
   * amounts, and every other field and every other user is left alone.
   */
  lemma {:induction false} IncAllAddsUp(users: map<UserId, User>, id: UserId, amounts: seq<int>)
    requires id in users
    ensures IncAll(users, id, amounts) == Inc(users, id, Sum(amounts))
  {
    if amounts == [] {
      assert Inc(users, id, 0) == users;
    } else {
      var init := amounts[..|amounts| - 1];
      IncAllAddsUp(users, id, init);
    }
  }

  /** Sum does not depend on the order of the amounts it adds (one swap of neighbours). */
  lemma {:induction false} SumSwap(a: seq<int>, x: int, y: int, b: seq<int>)
    ensures Sum(a + [x, y] + b) == Sum(a + [y, x] + b)
  {
    if b == [] {
      assert (a + [x, y] + b)[..|a| + 1] == a + [x];
      assert (a + [y, x] + b)[..|a| + 1] == a + [y];
      assert (a + [x] + [y]) == a + [x, y] + b;
      assert (a + [x])[..|a|] == a && (a + [y])[..|a|] == a;
    } else {
      var b' := b[..|b| - 1];
      assert (a + [x, y] + b)[..|a + [x, y] + b| - 1] == a + [x, y] + b';
      assert (a + [y, x] + b)[..|a + [y, x] + b| - 1] == a + [y, x] + b';
      SumSwap(a, x, y, b');
    }
  }

  /** The order in which the increments arrive does not matter (one swap of neighbours; any reordering is a chain of them). */
  lemma IncAllOrderIrrelevant(users: map<UserId, User>, id: UserId, a: seq<int>, x: int, y: int, b: seq<int>)
    requires id in users
    ensures IncAll(users, id, a + [x, y] + b) == IncAll(users, id, a + [y, x] + b)
  {
    IncAllAddsUp(users, id, a + [x, y] + b);
    IncAllAddsUp(users, id, a + [y, x] + b);
    SumSwap(a, x, y, b);
  }

  /** Sum splits over a concatenation. */
  lemma {:induction false} SumConcat(a: seq<int>, b: seq<int>)
    ensures Sum(a + b) == Sum(a) + Sum(b)
  {
    if b != [] {
      var b' := b[..|b| - 1];
      assert (a + b)[..|a + b| - 1] == a + b';
      SumConcat(a, b');
    } else {
      assert a + b == a;
    }
  }

  /** Two sequences holding the same amounts, in any order, have the same sum. */
  lemma {:induction false} SumPermutation(a: seq<int>, b: seq<int>)
    requires multiset(a) == multiset(b)
    ensures Sum(a) == Sum(b)
    decreases |a|
  {
    if a == [] {
      assert |multiset(b)| == 0;
    } else {
      var x := a[|a| - 1];
      var a' := a[..|a| - 1];
      assert a == a' + [x];
      assert x in multiset(b);
      var j :| 0 <= j < |b| && b[j] == x;
      var b' := b[..j] + b[j + 1..];
      assert b == b[..j] + [x] + b[j + 1..];
      assert multiset(b') == multiset(a') by {
        assert multiset(b) == multiset(b[..j]) + multiset{x} + multiset(b[j + 1..]);
        assert multiset(b') == multiset(b[..j]) + multiset(b[j + 1..]);
        assert multiset(a) == multiset(a') + multiset{x};
        assert multiset(b') == multiset(b) - multiset{x};
        assert multiset(a') == multiset(a) - multiset{x};
      }
      SumPermutation(a', b');
      SumConcat(b[..j] + [x], b[j + 1..]);
      SumConcat(b[..j], [x]);
      SumConcat(b[..j], b[j + 1..]);
      assert Sum([x]) == x by {
        assert [x][..0] == [];
      }
    }
  }

  /** Increments arriving in any order leave the same collection. */
  lemma IncAllPermutation(users: map<UserId, User>, id: UserId, a: seq<int>, b: seq<int>)
    requires id in users && multiset(a) == multiset(b)
    ensures IncAll(users, id, a) == IncAll(users, id, b)
  {
    IncAllAddsUp(users, id, a);
    IncAllAddsUp(users, id, b);
    SumPermutation(a, b);
  }

  /** Two increments in either order leave the same collection. */
  lemma IncCommutes(users: map<UserId, User>, id: UserId, a: int, b: int)
    ensures Inc(Inc(users, id, a), id, b) == Inc(Inc(users, id, b), id, a)
  {
  }

  /** Adding 50 twice to a fresh user's total of 0 gives 100. */
  lemma FiftyTwiceFromZero(users: map<UserId, User>, id: UserId)
    requires id in users && users[id].totalCalories == 0
    ensures IncAll(users, id, [50, 50])[id].totalCalories == 100
  {
    IncAllAddsUp(users, id, [50, 50]);
  }

  /** A negative amount is not refused: it lowers the total. */
  lemma NegativeAmountLowersTotal(users: map<UserId, User>, id: UserId, n: int)
    requires id in users && n < 0
    ensures Inc(users, id, n)[id].totalCalories < users[id].totalCalories
  {
  }

  /**
   * POST /: add `calories` to the total and answer with the new total. The
   * exercise label of the body is not stored.
   */
  method PostCalories(db: Users, id: UserId, exercise: Option<string>, calories: int) returns (r: HttpReply<int>)
    requires db.Valid()
    modifies db
    ensures db.Valid()
    ensures db.docs == Inc(old(db.docs), id, calories)
    ensures id in old(db.docs) ==> r == Ok(old(db.docs)[id].totalCalories + calories)
    ensures id !in old(db.docs) ==> r == Status(500, "Server error")
  {
    if id !in db.docs {
      r := Status(500, "Server error");
      return;
    }
    var w := db.docs[id].(totalCalories := db.docs[id].totalCalories + calories);
    ReplacePreservesInvariant(db.docs, id, w);
    db.docs := db.docs[id := w];
    r := Ok(w.totalCalories);
  }

  /** GET /total: the stored total; the collection is only read. */
  method GetTotal(db: Users, id: UserId) returns (r: HttpReply<int>)
    ensures r.Ok? <==> id in db.docs
    ensures r.Ok? ==> r.body == db.docs[id].totalCalories
    ensures r.Status? ==> r == Status(500, "Server error")
  {
    if id in db.docs {
      r := Ok(db.docs[id].totalCalories);
    } else {
      r := Status(500, "Server error");
    }
  }
}
