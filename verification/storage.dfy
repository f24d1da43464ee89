/**
 * The in-memory record store `MemStorage` of server/storage.ts: two keyed
 * tables, users and canvases, each a JavaScript `Map` from id to record.
 *
 * The identifiers `randomUUID()` draws and the instants `new Date()` reads
 * are parameters of the operations. Instants are milliseconds since the
 * epoch (what `getTime()` returns).
 */
module Storage {
  import opened Js

  /** A stored user account. */
  datatype User = User(id: string, username: string, password: string)

  /** The fields a new user account is created from. */
  datatype InsertUser = InsertUser(username: string, password: string)

  /**
   * A stored canvas. `canvasData` and `thumbnail` are whatever the creator
   * supplied, `Undefined` when the key was omitted.
   */
  datatype Canvas = Canvas(
    id: string,
    name: string,
    code: string,
    canvasData: Json,
    thumbnail: Json,
    createdAt: int,
    modifiedAt: int)

  /** The fields a new canvas is created from (`Undefined` for an omitted key). */
  datatype InsertCanvas = InsertCanvas(name: string, code: string, canvasData: Json, thumbnail: Json)

  /** A partial update: `None` for a key the update does not carry. */
  datatype CanvasPatch = CanvasPatch(
    name: Option<string>,
    code: Option<string>,
    canvasData: Option<Json>,
    thumbnail: Option<Json>)

  /** The code and name of a demonstration canvas. */
  datatype Demo = Demo(code: string, name: string)

  const DemoCanvases: seq<Demo> :=
    [Demo("ABC123", "Design Meeting"), Demo("XYZ789", "Team Brainstorm"), Demo("DEF456", "Project Sketch")]

  /** `JSON.stringify({ version: "6.0.0", objects: [] })`. */
  const EmptyCanvasData: string := "{\"version\":\"6.0.0\",\"objects\":[]}"

  /** The canvas seeded for `demo` under `id` at instant `now`. */
  function DemoCanvas(demo: Demo, id: string, now: int): Canvas {
    Canvas(id, demo.name, demo.code, Str(EmptyCanvasData), Null, now, now)
  }

  /** The three demonstration canvases in seeding order, given the ids drawn for them. */
  function SeedCanvases(ids: seq<string>, now: int): seq<Canvas>
    requires |ids| == |DemoCanvases|
  {
    seq(|DemoCanvases|, k requires 0 <= k < |DemoCanvases| => DemoCanvas(DemoCanvases[k], ids[k], now))
  }

  /**
   * `Array.from(table.values())`: the records of `table` in key order.
   */
  function Values<V>(order: seq<string>, table: map<string, V>): (r: seq<V>)
    requires forall k :: k in order ==> k in table
    ensures |r| == |order|
    ensures forall i :: 0 <= i < |order| ==> r[i] == table[order[i]]
  {
    if order == [] then []
    else [table[order[0]]] + Values(order[1..], table)
  }

  /** A table holding the demonstration canvases under `ids` lists them in seeding order. */
  lemma SeededValues(ids: seq<string>, table: map<string, Canvas>, now: int)
    requires |ids| == |DemoCanvases|
    requires forall k :: 0 <= k < |ids| ==> ids[k] in table && table[ids[k]] == DemoCanvas(DemoCanvases[k], ids[k], now)
    ensures Values(ids, table) == SeedCanvases(ids, now)
  {
    var r := Values(ids, table);
    forall k | 0 <= k < |ids| ensures r[k] == SeedCanvases(ids, now)[k] {
    }
  }

  /**
   * `find` over the values of a table whose records carry their own key
   * (`key(table[k]) == k`): a hit is a stored record that satisfies `p` and
   * the first such record in key order; a miss means no stored record
   * satisfies `p`.
   */
  lemma FindInKeyOrder<V>(order: seq<string>, table: map<string, V>, p: V -> bool, key: V -> string)
    requires forall k :: k in order <==> k in table
    requires forall k :: k in table ==> key(table[k]) == k
    ensures var r := Find(Values(order, table), p);
      r.Some? ==> p(r.value) && key(r.value) in table && table[key(r.value)] == r.value
    ensures var r := Find(Values(order, table), p);
      r.None? <==> forall k :: k in table ==> !p(table[k])
    ensures var r := Find(Values(order, table), p);
      r.Some? ==>
        exists i :: 0 <= i < |order| && table[order[i]] == r.value &&
          forall j :: 0 <= j < i ==> !p(table[order[j]])
  {
    var all := Values(order, table);
    var r := Find(all, p);
    if r.Some? {
      var i :| 0 <= i < |all| && all[i] == r.value && forall j :: 0 <= j < i ==> !p(all[j]);
      assert table[order[i]] == r.value;
      assert key(r.value) == order[i];
    } else {
      forall k | k in table ensures !p(table[k]) {
        var i :| 0 <= i < |order| && order[i] == k;
        assert all[i] == table[k];
      }
    }
  }

  /** The spread `{ ...c, ...p, modifiedAt: now }`. */
  function Patched(c: Canvas, p: CanvasPatch, now: int): Canvas {
    c.(name := if p.name.Some? then p.name.value else c.name,
       code := if p.code.Some? then p.code.value else c.code,
       canvasData := if p.canvasData.Some? then p.canvasData.value else c.canvasData,
       thumbnail := if p.thumbnail.Some? then p.thumbnail.value else c.thumbnail,
       modifiedAt := now)
  }

  /** Ordered by `modifiedAt`, most recent first. */
  predicate NewestFirst(s: seq<Canvas>) {
    forall i, j :: 0 <= i < j < |s| ==> s[i].modifiedAt >= s[j].modifiedAt
  }

  /**
   * Places `c` in front of the first canvas of `s` modified no later than
   * `c`, so that `c` precedes canvases with an equal `modifiedAt`.
   */
  function InsertNewestFirst(c: Canvas, s: seq<Canvas>): (r: seq<Canvas>)
    requires NewestFirst(s)
    ensures NewestFirst(r)
    ensures multiset(r) == multiset(s) + multiset{c}
    ensures |r| == |s| + 1 && (r[0] == c || (s != [] && r[0] == s[0]))
  {
    if s == [] || s[0].modifiedAt <= c.modifiedAt then
      [c] + s
    else
      var rest := InsertNewestFirst(c, s[1..]);
      assert s == [s[0]] + s[1..];
      assert NewestFirst([s[0]] + rest) by {
        forall j | 0 < j < |rest| + 1 ensures s[0].modifiedAt >= ([s[0]] + rest)[j].modifiedAt {
          assert ([s[0]] + rest)[j] == rest[j - 1];
          assert rest[0].modifiedAt >= rest[j - 1].modifiedAt;
        }
      }
      [s[0]] + rest
  }

  /**
   * The result of `s.sort((a, b) => b.modifiedAt - a.modifiedAt)`: a stable
   * sort, most recently modified first, canvases modified at the same
   * instant left in their original order.
   */
  function SortNewestFirst(s: seq<Canvas>): (r: seq<Canvas>)
    ensures NewestFirst(r)
    ensures multiset(r) == multiset(s)
  {
    if s == [] then []
    else
      assert s == [s[0]] + s[1..];
      InsertNewestFirst(s[0], SortNewestFirst(s[1..]))
  }

  class MemStorage {
    /** The `users` map: each account under its id. */
    var users: map<string, User>
    /** The keys of `users` in insertion order. */
    var userOrder: seq<string>
    /** The `canvases` map: each canvas under its id. */
    var canvases: map<string, Canvas>
    /** The keys of `canvases` in insertion order. */
    var canvasOrder: seq<string>

    ghost predicate Valid()
      reads this
    {
      && Distinct(userOrder)
      && (forall id :: id in users <==> id in userOrder)
      && (forall id :: id in users ==> users[id].id == id)
      && Distinct(canvasOrder)
      && (forall id :: id in canvases <==> id in canvasOrder)
      && (forall id :: id in canvases ==> canvases[id].id == id)
    }

    /**
     * Starts with no users and the three demonstration canvases; `seedIds`
     * are the identifiers `randomUUID()` draws for them, `now` the instant
     * of construction.
     */
    constructor (seedIds: seq<string>, now: int)
      requires |seedIds| == |DemoCanvases| && Distinct(seedIds)
      ensures Valid()
      ensures users == map[] && userOrder == []
      ensures canvasOrder == seedIds
      ensures AllCanvases() == SeedCanvases(seedIds, now)
    {
      users, userOrder := map[], [];
      canvases, canvasOrder := map[], [];
      new;
      SeedDemoCanvases(seedIds, now);
      assert canvasOrder == seedIds;
      SeededValues(seedIds, canvases, now);
    }

    /** Stores one demonstration canvas per entry of `DemoCanvases`, in order. */
    method SeedDemoCanvases(ids: seq<string>, now: int)
      requires Valid()
      requires |ids| == |DemoCanvases| && Distinct(ids)
      requires forall k :: 0 <= k < |ids| ==> ids[k] !in canvases
      modifies this`canvases, this`canvasOrder
      ensures Valid()
      ensures canvasOrder == old(canvasOrder) + ids
      ensures forall id :: id in canvases <==> id in old(canvases) || id in ids
      ensures forall id :: id in old(canvases) ==> canvases[id] == old(canvases)[id]
      ensures forall k :: 0 <= k < |ids| ==> canvases[ids[k]] == DemoCanvas(DemoCanvases[k], ids[k], now)
    {
      var k := 0;
      while k < |DemoCanvases|
        invariant 0 <= k <= |DemoCanvases|
        invariant Valid()
        invariant canvasOrder == old(canvasOrder) + ids[..k]
        invariant forall id :: id in canvases <==> id in old(canvases) || id in ids[..k]
        invariant forall id :: id in old(canvases) ==> canvases[id] == old(canvases)[id]
        invariant forall j :: 0 <= j < k ==> canvases[ids[j]] == DemoCanvas(DemoCanvases[j], ids[j], now)
      {
        var canvas := DemoCanvas(DemoCanvases[k], ids[k], now);
        assert ids[k] !in ids[..k];
        canvases := canvases[ids[k] := canvas];
        canvasOrder := canvasOrder + [ids[k]];
        assert ids[..k + 1] == ids[..k] + [ids[k]];
        k := k + 1;
      }
      assert ids[..k] == ids;
    }

    /** The canvases in insertion order (`Array.from(this.canvases.values())`). */
    function AllCanvases(): (r: seq<Canvas>)
      reads this
      requires Valid()
      ensures forall c :: c in r <==> c.id in canvases && canvases[c.id] == c
    {
      var r := Values(canvasOrder, canvases);
      assert forall c: Canvas :: c.id in canvases && canvases[c.id] == c ==> c in r by {
        forall c: Canvas | c.id in canvases && canvases[c.id] == c ensures c in r {
          var i :| 0 <= i < |canvasOrder| && canvasOrder[i] == c.id;
          assert r[i] == c;
        }
      }
      r
    }

    /** The users in insertion order (`Array.from(this.users.values())`). */
    function AllUsers(): (r: seq<User>)
      reads this
      requires Valid()
      ensures forall u :: u in r <==> u.id in users && users[u.id] == u
    {
      var r := Values(userOrder, users);
      assert forall u: User :: u.id in users && users[u.id] == u ==> u in r by {
        forall u: User | u.id in users && users[u.id] == u ensures u in r {
          var i :| 0 <= i < |userOrder| && userOrder[i] == u.id;
          assert r[i] == u;
        }
      }
      r
    }

    /** `getUser`: the account stored under `id`, or `undefined`. */
    function GetUser(id: string): (r: Option<User>)
      reads this
      requires Valid()
      ensures r.Some? <==> id in users
      ensures r.Some? ==> r.value == users[id] && r.value.id == id
    {
      if id in users then Some(users[id]) else None
    }

    /** `getUserByUsername`: the first account, in insertion order, with that username. */
    function GetUserByUsername(username: string): (r: Option<User>)
      reads this
      requires Valid()
      ensures r.Some? ==> r.value.username == username && r.value.id in users && users[r.value.id] == r.value
      ensures r.None? <==> forall id :: id in users ==> users[id].username != username
      ensures r.Some? ==>
        exists i :: 0 <= i < |userOrder| && users[userOrder[i]] == r.value &&
          forall j :: 0 <= j < i ==> users[userOrder[j]].username != username
    {
      var p := (u: User) => u.username == username;
      FindInKeyOrder(userOrder, users, p, (u: User) => u.id);
      Find(AllUsers(), p)
    }

    /** `getCanvas`: the canvas stored under `id`, or `undefined`. */
    function GetCanvas(id: string): (r: Option<Canvas>)
      reads this
      requires Valid()
      ensures r.Some? <==> id in canvases
      ensures r.Some? ==> r.value == canvases[id] && r.value.id == id
    {
      if id in canvases then Some(canvases[id]) else None
    }

    /** `getCanvasByCode`: the first canvas, in insertion order, with that code. */
    function GetCanvasByCode(code: string): (r: Option<Canvas>)
      reads this
      requires Valid()
      ensures r.Some? ==> r.value.code == code && r.value.id in canvases && canvases[r.value.id] == r.value
      ensures r.None? <==> forall id :: id in canvases ==> canvases[id].code != code
      ensures r.Some? ==>
        exists i :: 0 <= i < |canvasOrder| && canvases[canvasOrder[i]] == r.value &&
          forall j :: 0 <= j < i ==> canvases[canvasOrder[j]].code != code
    {
      var p := (c: Canvas) => c.code == code;
      FindInKeyOrder(canvasOrder, canvases, p, (c: Canvas) => c.id);
      Find(AllCanvases(), p)
    }

    /** `listCanvases`: every stored canvas once, most recently modified first. */
    function ListCanvases(): (r: seq<Canvas>)
      reads this
      requires Valid()
      ensures NewestFirst(r)
      ensures multiset(r) == multiset(AllCanvases())
      ensures forall c :: c in r <==> c.id in canvases && canvases[c.id] == c
    {
      var all := AllCanvases();
      var r := SortNewestFirst(all);
      assert forall c :: c in r <==> c in all by {
        forall c ensures c in r <==> c in all {
          assert c in r <==> c in multiset(r);
        }
      }
      r
    }

    /** `createUser`: store a new account under the fresh identifier `id` and return it. */
    method CreateUser(insertUser: InsertUser, id: string) returns (user: User)
      requires Valid()
      modifies this`users, this`userOrder
      ensures Valid()
      ensures user == User(id, insertUser.username, insertUser.password)
      ensures users == old(users)[id := user]
      ensures userOrder == if id in old(users) then old(userOrder) else old(userOrder) + [id]
      ensures GetUser(id) == Some(user)
    {
      user := User(id, insertUser.username, insertUser.password);
      if id !in users {
        userOrder := userOrder + [id];
      }
      users := users[id := user];
    }

    /**
     * `createCanvas`: store a new canvas under the fresh identifier `id`,
     * created and modified at `now`, and return it.
     */
    method CreateCanvas(insertCanvas: InsertCanvas, id: string, now: int) returns (canvas: Canvas)
      requires Valid()
      modifies this`canvases, this`canvasOrder
      ensures Valid()
      ensures canvas == Canvas(id, insertCanvas.name, insertCanvas.code, insertCanvas.canvasData,
                               insertCanvas.thumbnail, now, now)
      ensures canvases == old(canvases)[id := canvas]
      ensures canvasOrder == if id in old(canvases) then old(canvasOrder) else old(canvasOrder) + [id]
      ensures GetCanvas(id) == Some(canvas)
    {
      canvas := Canvas(id, insertCanvas.name, insertCanvas.code, insertCanvas.canvasData,
                       insertCanvas.thumbnail, now, now);
      if id !in canvases {
        canvasOrder := canvasOrder + [id];
      }
      canvases := canvases[id := canvas];
    }

    /**
     * `updateCanvas`: `undefined` and no change when `id` is not stored;
     * otherwise the canvas under `id` gets the patch's fields and is marked
     * modified at `now`, and the updated canvas is returned.
     */
    method UpdateCanvas(id: string, data: CanvasPatch, now: int) returns (r: Option<Canvas>)
      requires Valid()
      modifies this`canvases
      ensures Valid()
      ensures id !in old(canvases) ==> r == None && canvases == old(canvases)
      ensures id in old(canvases) ==>
        r == Some(Patched(old(canvases)[id], data, now)) && canvases == old(canvases)[id := r.value]
    {
      if id !in canvases {
        return None;
      }
      var updated := Patched(canvases[id], data, now);
      canvases := canvases[id := updated];
      r := Some(updated);
    }

    /** `deleteCanvas`: remove the canvas under `id`; true exactly when there was one. */
    method DeleteCanvas(id: string) returns (deleted: bool)
      requires Valid()
      modifies this`canvases, this`canvasOrder
      ensures Valid()
      ensures deleted == (id in old(canvases))
      ensures canvases == old(canvases) - {id}
      ensures canvasOrder == Without(old(canvasOrder), id)
    {
      deleted := id in canvases;
      canvases := canvases - {id};
      canvasOrder := Without(canvasOrder, id);
    }
  }

  // ---------------------------------------------------------------------
  // Properties
  // ---------------------------------------------------------------------

  /**
   * The seeded canvases: codes ABC123, XYZ789 and DEF456 under the drawn ids,
   * the same empty drawing, no thumbnail, created and modified at `now`.
   */
  lemma SeedCanvasesContents(ids: seq<string>, now: int)
    requires |ids| == |DemoCanvases|
    ensures var s := SeedCanvases(ids, now);
      && |s| == 3
      && s[0].code == "ABC123" && s[1].code == "XYZ789" && s[2].code == "DEF456"
      && forall k :: 0 <= k < 3 ==>
           && s[k].id == ids[k]
           && s[k].canvasData == Str(EmptyCanvasData)
           && s[k].thumbnail == Null
           && s[k].createdAt == s[k].modifiedAt == now
  {
  }

  /**
   * An update replaces exactly the fields the patch carries, keeps `id` and
   * `createdAt`, and sets `modifiedAt` to the update's instant.
   */
  lemma PatchedFields(c: Canvas, p: CanvasPatch, now: int)
    ensures var u := Patched(c, p, now);
      && u.id == c.id && u.createdAt == c.createdAt && u.modifiedAt == now
      && u.name == (if p.name.Some? then p.name.value else c.name)
      && u.code == (if p.code.Some? then p.code.value else c.code)
      && u.canvasData == (if p.canvasData.Some? then p.canvasData.value else c.canvasData)
      && u.thumbnail == (if p.thumbnail.Some? then p.thumbnail.value else c.thumbnail)
      && (p == CanvasPatch(None, None, None, None) ==> u == c.(modifiedAt := now))
  {
  }

  /** Sorting a list that is already newest-first leaves it exactly as it was (the sort is stable). */
  lemma {:induction false} SortKeepsOrderedList(s: seq<Canvas>)
    requires NewestFirst(s)
    ensures SortNewestFirst(s) == s
  {
    if s != [] {
      assert NewestFirst(s[1..]);
      SortKeepsOrderedList(s[1..]);
      assert s == [s[0]] + s[1..];
    }
  }
}
