/** The `users` table as `_userLoggedIn` uses it: a lookup by url, an update
    of `last_login`, an insert with store-assigned ids. */
module UserRegistry {

  datatype User = User(id: nat, url: string, createdAt: string, lastLogin: string)

  /** The store's primary key: ids are distinct and all below the next id
      its auto-increment will assign. */
  ghost predicate KeyedBelow(users: seq<User>, nextId: nat)
  {
    && (forall i :: 0 <= i < |users| ==> users[i].id < nextId)
    && (forall i, j :: 0 <= i < j < |users| ==> users[i].id != users[j].id)
  }

  /** At most one row per url. */
  ghost predicate UniqueUrls(users: seq<User>)
  {
    forall i, j :: 0 <= i < j < |users| ==> users[i].url != users[j].url
  }

  /** `SELECT * FROM users WHERE url = ?`, rows in table order. */
  function Select(users: seq<User>, url: string): (rows: seq<User>)
    ensures |rows| <= |users|
    ensures forall k :: 0 <= k < |rows| ==> rows[k].url == url
    ensures forall u :: u in rows <==> u in users && u.url == url
  {
    if users == [] then []
    else
      assert forall u :: u in users <==> u == users[0] || u in users[1..];
      (if users[0].url == url then [users[0]] else []) + Select(users[1..], url)
  }

  /** `UPDATE users SET last_login = ?`: the statement has no WHERE clause,
      so every row, whatever its url, is stamped. */
  function TouchAll(users: seq<User>, now: string): (touched: seq<User>)
    ensures |touched| == |users|
    ensures forall i :: 0 <= i < |users| ==> touched[i] == users[i].(lastLogin := now)
  {
    if users == [] then [] else [users[0].(lastLogin := now)] + TouchAll(users[1..], now)
  }

  /** What `_userLoggedIn` leaves behind: the table, the next id, and the id
      it binds into the session. */
  datatype Upserted = Upserted(users: seq<User>, nextId: nat, id: nat)

  /** Check-then-insert: a url already present gets its first row's id (and
      every row a new `last_login`); a new url gets a fresh row whose id is
      read back by a second lookup. */
  function Upsert(users: seq<User>, nextId: nat, url: string, now: string): (r: Upserted)
    ensures |r.users| == if Select(users, url) == [] then |users| + 1 else |users|
    ensures Select(r.users, url) != [] && Select(r.users, url)[0].id == r.id
    ensures forall i :: 0 <= i < |users| ==>
      r.users[i].id == users[i].id && r.users[i].url == users[i].url && r.users[i].createdAt == users[i].createdAt
    ensures Select(users, url) != [] ==>
      && r.id == Select(users, url)[0].id
      && r.nextId == nextId
      && forall i :: 0 <= i < |r.users| ==> r.users[i].lastLogin == now
    ensures Select(users, url) == [] ==>
      && r.id == nextId
      && r.nextId == nextId + 1
      && r.users == users + [User(nextId, url, now, now)]
  {
    var found := Select(users, url);
    if found != [] then
      assert Select(TouchAll(users, now), url) == TouchAll(found, now) by {
        SelectTouchAll(users, url, now);
      }
      Upserted(TouchAll(users, now), nextId, found[0].id)
    else
      var row := User(nextId, url, now, now);
      assert Select(users + [row], url) == [row] by {
        SelectAppend(users, [row], url);
        assert [row][1..] == [];
      }
      Upserted(users + [row], nextId + 1, nextId)
  }

  lemma {:induction false} SelectAppend(a: seq<User>, b: seq<User>, url: string)
    ensures Select(a + b, url) == Select(a, url) + Select(b, url)
  {
    if a == [] {
      assert a + b == b;
    } else {
      assert (a + b)[1..] == a[1..] + b;
      SelectAppend(a[1..], b, url);
    }
  }

  lemma {:induction false} SelectTouchAll(users: seq<User>, url: string, now: string)
    ensures Select(TouchAll(users, now), url) == TouchAll(Select(users, url), now)
  {
    if users != [] {
      SelectTouchAll(users[1..], url, now);
      var head := if users[0].url == url then [users[0]] else [];
      TouchAllAppend(head, Select(users[1..], url), now);
    }
  }

  lemma TouchAllAppend(a: seq<User>, b: seq<User>, now: string)
    ensures TouchAll(a + b, now) == TouchAll(a, now) + TouchAll(b, now)
  {
  }

  /** The id `_userLoggedIn` binds is that of the first row with the url. */
  lemma {:induction false} SelectFindsFirstRow(users: seq<User>, url: string, k: nat)
    requires k < |users| && users[k].url == url
    requires forall j :: 0 <= j < k ==> users[j].url != url
    ensures Select(users, url) != [] && Select(users, url)[0] == users[k]
  {
    if k > 0 {
      SelectFindsFirstRow(users[1..], url, k - 1);
    }
  }

  /** A table with at most one row per url keeps that property. */
  lemma UpsertKeepsUrlsUnique(users: seq<User>, nextId: nat, url: string, now: string)
    requires UniqueUrls(users)
    ensures UniqueUrls(Upsert(users, nextId, url, now).users)
  {
  }

  /** Ids stay distinct and below the next id the store assigns. */
  lemma UpsertKeepsKeys(users: seq<User>, nextId: nat, url: string, now: string)
    requires KeyedBelow(users, nextId)
    ensures KeyedBelow(Upsert(users, nextId, url, now).users, Upsert(users, nextId, url, now).nextId)
  {
  }

  /** Two logins with the same url bind the same id; the second one adds no
      row, keeps `created_at` and moves `last_login` to its own time. */
  lemma UpsertTwiceSameId(users: seq<User>, nextId: nat, url: string, first: string, second: string)
    ensures
      var r1 := Upsert(users, nextId, url, first);
      var r2 := Upsert(r1.users, r1.nextId, url, second);
      && r2.id == r1.id
      && r2.nextId == r1.nextId
      && |r2.users| == |r1.users|
      && (forall i :: 0 <= i < |r1.users| ==>
            r2.users[i].createdAt == r1.users[i].createdAt && r2.users[i].lastLogin == second)
  {
  }
}
