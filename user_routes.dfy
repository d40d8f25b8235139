/**
 * The user routes over an in-memory store that maps each stored email to its
 * record. A route's email parameter is looked up in its stored form, as the
 * schema's lower-case and trim setters also apply to query values.
 */
module UserRoutes {
  import opened Common
  import opened UserModel

  const LeaderboardSize: nat := 50

  datatype RouteError =
    | NotFound              // 404 "User not found"
    | InsufficientCoins     // 400 "Insufficient coins"
    | Invalid(e: SchemaError)
    | DuplicateEmail        // the unique index refuses the save

  function Status(e: RouteError): (code: int)
    ensures code == 404 <==> e == NotFound
    ensures code == 400 <==> e != NotFound
  {
    if e == NotFound then 404 else 400
  }

  /** JavaScript `x || d` on an optional number: `undefined` and 0 fall back to `d`. */
  function OrNumber(x: Option<int>, d: int): (r: int)
    ensures x.Some? && x.value != 0 ==> r == x.value
    ensures x.None? || x.value == 0 ==> r == d
  {
    if x.Some? && x.value != 0 then x.value else d
  }

  /** The record after `user.coins -= amount`. */
  function Deducted(u: User, amount: int): (v: User)
    ensures v.email == u.email && v.points == u.points && v.coins == u.coins - amount
  {
    u.(coins := u.coins - amount)
  }

  /** The record after `user.coins += amount`. */
  function Credited(u: User, amount: int): (v: User)
    ensures v.email == u.email && v.points == u.points && v.coins == u.coins + amount
  {
    u.(coins := u.coins + amount)
  }

  /** The record after a partial update: only the numbers given are replaced. */
  function Patched(u: User, points: Option<int>, coins: Option<int>): (v: User)
    ensures v.email == u.email
    ensures v.points == (if points.Some? then points.value else u.points)
    ensures v.coins == (if coins.Some? then coins.value else u.coins)
  {
    User(u.email, if points.Some? then points.value else u.points, if coins.Some? then coins.value else u.coins)
  }

  /** Points never increase along `s`. */
  predicate ByPointsDescending(s: seq<User>)
  {
    forall i, j :: 0 <= i < j < |s| ==> s[i].points >= s[j].points
  }

  /** Every record is stored under its own email, so emails are unique. */
  predicate KeyedByEmail(users: map<string, User>)
  {
    forall k :: k in users ==> users[k].email == k
  }

  /** The store invariant: keyed by email, and every record valid. */
  predicate StoreValid(users: map<string, User>)
  {
    KeyedByEmail(users) && forall k :: k in users ==> ValidUser(users[k])
  }

  /** Saving a valid record under its own email keeps the store valid. */
  lemma SaveKeepsValid(users: map<string, User>, v: User)
    requires StoreValid(users) && ValidUser(v)
    ensures StoreValid(users[v.email := v])
  {
  }

  /** Appending the record of a key just taken keeps every taken key listed. */
  lemma ListedAfterAppend(users: map<string, User>, todo: set<string>, top: seq<User>, u: User)
    requires u.email in todo
    requires forall k :: k in users && k !in todo ==> UserStore.Listed(top, k)
    ensures forall k :: k in users && k !in todo - {u.email} ==> UserStore.Listed(top + [u], k)
  {
    forall k | k in users && k !in todo - {u.email}
      ensures UserStore.Listed(top + [u], k)
    {
      if k == u.email {
        assert (top + [u])[|top|].email == k;
      } else {
        var j :| 0 <= j < |top| && top[j].email == k;
        assert (top + [u])[j].email == k;
      }
    }
  }

  class UserStore {
    var users: map<string, User>

    ghost predicate Valid()
      reads this
    {
      StoreValid(users)
    }

    constructor()
      ensures Valid() && users == map[]
    {
      users := map[];
    }

    /** A key of `todo` whose user has the most points among `todo`. */
    static method MaxKey(users: map<string, User>, todo: set<string>) returns (best: string)
      requires todo != {} && todo <= users.Keys
      ensures best in todo
      ensures forall k :: k in todo ==> users[k].points <= users[best].points
    {
      var left := todo;
      best :| best in left;
      left := left - {best};
      while left != {}
        invariant left <= todo && best in todo
        invariant forall k :: k in todo && k !in left ==> users[k].points <= users[best].points
        decreases |left|
      {
        var k :| k in left;
        if users[k].points > users[best].points {
          best := k;
        }
        left := left - {k};
      }
    }

    /**
     * `find().sort({ points: -1 }).limit(n)`: the n users with the most points
     * (all of them when there are fewer), each once, in non-increasing order
     * of points; nobody left out has more points than anybody listed.
     */
    static method TopByPoints(users: map<string, User>, n: nat) returns (top: seq<User>)
      requires KeyedByEmail(users)
      ensures |top| == MinInt(n, |users|)
      ensures ByPointsDescending(top)
      ensures forall i :: 0 <= i < |top| ==> top[i].email in users && users[top[i].email] == top[i]
      ensures forall i, j :: 0 <= i < j < |top| ==> top[i].email != top[j].email
      ensures forall k, i :: k in users && 0 <= i < |top| && !Listed(top, k) ==>
        users[k].points <= top[i].points
    {
      var todo := users.Keys;
      top := [];
      while |top| < n && todo != {}
        invariant todo <= users.Keys
        invariant |todo| + |top| == |users| && |top| <= n
        invariant forall i :: 0 <= i < |top| ==>
          top[i].email in users && top[i].email !in todo && users[top[i].email] == top[i]
        invariant forall k :: k in users && k !in todo ==> Listed(top, k)
        invariant forall i, j :: 0 <= i < j < |top| ==> top[i].email != top[j].email
        invariant ByPointsDescending(top)
        invariant forall k, i :: k in todo && 0 <= i < |top| ==> users[k].points <= top[i].points
        decreases |todo|
      {
        var best := MaxKey(users, todo);
        var u := users[best];
        ListedAfterAppend(users, todo, top, u);
        top := top + [u];
        todo := todo - {best};
      }
    }

    /** `GET /leaderboard`: the top 50 by points. */
    method Leaderboard() returns (top: seq<User>)
      requires Valid()
      ensures |top| == MinInt(LeaderboardSize, |users|)
      ensures ByPointsDescending(top)
      ensures forall i :: 0 <= i < |top| ==> top[i].email in users && users[top[i].email] == top[i]
      ensures forall i, j :: 0 <= i < j < |top| ==> top[i].email != top[j].email
      ensures forall k, i :: k in users && 0 <= i < |top| && !Listed(top, k) ==>
        users[k].points <= top[i].points
    {
      top := TopByPoints(users, LeaderboardSize);
    }

    /** Whether some listed record has email `k`. */
    static predicate Listed(top: seq<User>, k: string)
    {
      exists i :: 0 <= i < |top| && top[i].email == k
    }

    /** `GET /:email` */
    method Get(email: string) returns (r: Result<User, RouteError>)
      requires Valid()
      ensures r.Ok? <==> Normalize(email) in users
      ensures r.Ok? ==> r.value == users[Normalize(email)]
      ensures r.Err? ==> r.error == NotFound
    {
      var key := Normalize(email);
      if key !in users {
        return Err(NotFound);
      }
      r := Ok(users[key]);
    }

    /**
     * `POST /`: points `|| 0` and coins `|| 1000` (so an explicit 0 coins
     * becomes 1000), then the schema validators, then the unique email.
     */
    method Create(email: Option<string>, points: Option<int>, coins: Option<int>) returns (r: Result<User, RouteError>)
      requires Valid()
      modifies this
      ensures Valid()
      ensures var made := NewUser(email, Some(OrNumber(points, 0)), Some(OrNumber(coins, DefaultCoins)));
        (made.Err? ==> r == Err(Invalid(made.error)) && users == old(users)) &&
        (made.Ok? && made.value.email in old(users) ==> r == Err(DuplicateEmail) && users == old(users)) &&
        (made.Ok? && made.value.email !in old(users) ==>
          r == Ok(made.value) && users == old(users)[made.value.email := made.value])
    {
      var made := NewUser(email, Some(OrNumber(points, 0)), Some(OrNumber(coins, DefaultCoins)));
      if made.Err? {
        return Err(Invalid(made.error));
      }
      var u := made.value;
      if u.email in users {
        return Err(DuplicateEmail);
      }
      SaveKeepsValid(users, u);
      users := users[u.email := u];
      r := Ok(u);
    }

    /** `PUT /:email`: only the numbers present in the body change; the save revalidates. */
    method Update(email: string, points: Option<int>, coins: Option<int>) returns (r: Result<User, RouteError>)
      requires Valid()
      modifies this
      ensures Valid()
      ensures Normalize(email) !in old(users) ==> r == Err(NotFound) && users == old(users)
      ensures Normalize(email) in old(users) && ValidUser(Patched(old(users)[Normalize(email)], points, coins)) ==>
        r == Ok(Patched(old(users)[Normalize(email)], points, coins)) &&
        users == old(users)[Normalize(email) := Patched(old(users)[Normalize(email)], points, coins)]
      ensures Normalize(email) in old(users) && !ValidUser(Patched(old(users)[Normalize(email)], points, coins)) ==>
        r == Err(Invalid(Revalidate(Patched(old(users)[Normalize(email)], points, coins)).error)) &&
        users == old(users)
    {
      var key := Normalize(email);
      if key !in users {
        return Err(NotFound);
      }
      var u := users[key];
      var v := Patched(u, points, coins);
      var saved := Revalidate(v);
      if saved.Err? {
        return Err(Invalid(saved.error));
      }
      SaveKeepsValid(users, v);
      users := users[key := v];
      r := Ok(v);
    }

    /**
     * `POST /:email/deduct-coins`: refused without change when the balance is
     * below the amount; otherwise exactly `amount` coins come off and nothing
     * else changes.
     */
    method DeductCoins(email: string, amount: int) returns (r: Result<User, RouteError>)
      requires Valid()
      modifies this
      ensures Valid()
      ensures Normalize(email) !in old(users) ==> r == Err(NotFound) && users == old(users)
      ensures Normalize(email) in old(users) && old(users)[Normalize(email)].coins < amount ==>
        r == Err(InsufficientCoins) && users == old(users)
      ensures Normalize(email) in old(users) && old(users)[Normalize(email)].coins >= amount ==>
        r == Ok(Deducted(old(users)[Normalize(email)], amount)) &&
        users == old(users)[Normalize(email) := Deducted(old(users)[Normalize(email)], amount)]
    {
      var key := Normalize(email);
      if key !in users {
        return Err(NotFound);
      }
      var u := users[key];
      if u.coins < amount {
        return Err(InsufficientCoins);
      }
      var v := Deducted(u, amount);
      SaveKeepsValid(users, v);
      users := users[key := v];
      r := Ok(v);
    }

    /**
     * `POST /:email/add-coins`: exactly `amount` more coins; a negative amount
     * that would take the balance below 0 fails validation and changes nothing.
     */
    method AddCoins(email: string, amount: int) returns (r: Result<User, RouteError>)
      requires Valid()
      modifies this
      ensures Valid()
      ensures Normalize(email) !in old(users) ==> r == Err(NotFound) && users == old(users)
      ensures Normalize(email) in old(users) && old(users)[Normalize(email)].coins + amount < 0 ==>
        r == Err(Invalid(CoinsBelowMin)) && users == old(users)
      ensures Normalize(email) in old(users) && old(users)[Normalize(email)].coins + amount >= 0 ==>
        r == Ok(Credited(old(users)[Normalize(email)], amount)) &&
        users == old(users)[Normalize(email) := Credited(old(users)[Normalize(email)], amount)]
    {
      var key := Normalize(email);
      if key !in users {
        return Err(NotFound);
      }
      var u := users[key];
      var v := Credited(u, amount);
      var saved := Revalidate(v);
      if saved.Err? {
        return Err(Invalid(saved.error));
      }
      SaveKeepsValid(users, v);
      users := users[key := v];
      r := Ok(v);
    }
  }
}
