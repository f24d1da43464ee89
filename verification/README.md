# Collaborative whiteboard backend: session relay and record store

This project models two parts of the backend of a collaborative whiteboard in Dafny.

**The real-time session relay** (`server/websocket.ts`) is modelled in `relay.dfy`. It keeps a registry of participants, one per WebSocket connection. Each entry records the participant's id, display name, canvas, palette colour, tool and cursor. The relay answers a `join-canvas` with a `canvas-state` reply and announces the newcomer to the room. It relays `tool-change`, `cursor-move`, `canvas-update`, `object-modified` and `object-removed` events to the other open connections on the sender's canvas. When a connection closes, it announces the departure.

- The registry is a class, `SessionRelay`. Its fields are:
  - the `users` map;
  - the map's insertion order, because JavaScript `Map`s iterate in that order;
  - an `outbox` of the `(recipient, message)` pairs handed to `ws.send`.
- Each callback runs to completion on the event loop, so each is one method.
- `wss.clients` is a parameter: a sequence of connections, each with its open flag.

**The in-memory record store `MemStorage`** (`server/storage.ts`) is modelled in `storage.dfy`. It is a class with two keyed tables, users and canvases, each stored with its key order. The class has:

- a seeding constructor;
- lookups by id, by username and by canvas code (`find`, first match in insertion order);
- a canvas listing sorted most-recently-modified first;
- create, partial update and delete.

**Shared JavaScript notions** are in `js.dfy`:

- decoded JSON values with JavaScript truthiness and the `||` default;
- `undefined`-or-value results;
- the key order of a `Map` after `delete`;
- `Array.prototype.find`.

**Worked exchanges** are in `scenarios.dfy`. They are concrete two-participant cases, checked against the relay's contracts: a cursor move, two tool changes in a row, and an edit that must not cross rooms.

The model keeps these behaviours of the code, which a reader might not expect:

- A second `join-canvas` on a joined connection is not rejected. It overwrites the record and keeps the connection's place in the registry order. The colour is still taken from the registry size before the overwrite.
- A `join-canvas` without a `canvasId` is not rejected. The participant is registered with an `undefined` canvas.
- A message with an unknown `type` is ignored silently. The switch has no default branch.
- The inbound timestamp is forwarded only when it is truthy. A timestamp of `0` is replaced by the current time.
- The `canvas-state` list leaves out every member whose id equals the joiner's id, not just the joiner's own connection.

## Model

| member | source | states |
|---|---|---|
| `Js.OrDefaults` | server/websocket.ts:60-64 | `a \|\| b` is `a` when `a` is truthy and `b` otherwise; it is truthy whenever the default `b` is |
| `Js.Without` | server/websocket.ts:44 | after `Map.delete(k)` the key order holds exactly the other keys, keeps them distinct, and is unchanged when `k` was absent |
| `Js.WithoutKeepsOrder` | server/websocket.ts:44 | `Map.delete(k)` keeps the remaining keys in their order: deleting from a concatenation deletes from each part |
| `Js.Find` | server/storage.ts:80-84 | `find` returns an element satisfying the predicate and no earlier element satisfies it; it returns `undefined` exactly when no element satisfies it |
| `Relay.NewUser` | server/websocket.ts:59-65 | a joiner's record always has a truthy id, name and tool, and a colour from the eight-colour palette |
| `Relay.JoinDefaults` | server/websocket.ts:59-65 | the record's id, name and tool are the supplied values when truthy, otherwise `"user_"` plus the random part, `"Anonymous"` and `"select"`; the canvas is copied; there is no cursor; the colour is `userColors[size % 8]`, where size is the registry size before the insert |
| `Relay.UpdatedTouchesOneField` | server/websocket.ts:91-117 | an event changes only the sender's `tool` (tool-change) or `cursor` (cursor-move); the id, name, canvas and colour never change |
| `Relay.ForwardedStamp` | server/websocket.ts:91-158 | every relayed event carries the sender's id, and the inbound timestamp when truthy or else the current time, so a timestamp of 0 is replaced |
| `Relay.SessionRelay.constructor` | server/websocket.ts:18 | the registry starts empty and consistent, with nothing sent |
| `Relay.SessionRelay.Send` | server/websocket.ts:173-177 | `send` hands the message to the connection exactly when it is open |
| `Relay.SessionRelay.Broadcast` | server/websocket.ts:162-171 | the messages sent are exactly the `Fanout` of the client list: one per client, in client order |
| `Relay.SessionRelay.GetCanvasUsers` | server/websocket.ts:179-194 | returns the records registered on the canvas, in registry order |
| `Relay.SessionRelay.Register` | server/websocket.ts:66 | `users.set` binds the connection to the record; a new connection goes to the end of the order, and a joined one keeps its place |
| `Relay.SessionRelay.HandleMessage` | server/websocket.ts:56-160 | `join-canvas`: registers the new record and leaves other entries unchanged; sends `canvas-state` to the joiner when it is open; sends `user-joined` to the rest of the room. The five event types from a joined connection: update only the sender's record and relay the event to its room, excluding the sender. An event from an unjoined connection, or an unknown type: changes nothing and sends nothing. The registry invariant is kept throughout |
| `Relay.SessionRelay.Close` | server/websocket.ts:36-46 | for a joined connection: sends `user-left` with its id to the room it was in (minus itself), then removes it from the registry and the order. For an unjoined connection: changes nothing and sends nothing |
| `Relay.FanoutRecipients` | server/websocket.ts:162-171 | a delivery is in the broadcast if and only if it carries the message and goes to a client that is not excluded, is open, is registered and is on the target canvas |
| `Relay.RoomIsolation` | server/websocket.ts:164-166 | no broadcast reaches the excluded sender, an unregistered connection or a member of another canvas |
| `Relay.FanoutOnce` | server/websocket.ts:163 | when the clients are distinct, no connection receives the same broadcast twice; with `FanoutRecipients`, each remaining room member gets exactly one `user-left` |
| `Relay.RoomMembersExact` | server/websocket.ts:179-194 | a record is in the room listing if and only if it is registered for some connection and is on that canvas |
| `Relay.OthersThanExact` | server/websocket.ts:72 | the filter keeps exactly the records whose id differs from the given id |
| `Relay.OthersThanKeepsOrder` | server/websocket.ts:72 | the filter keeps the kept records in their order: filtering a concatenation filters each part |
| `Relay.CanvasStateExact` | server/websocket.ts:69-76 | the joiner's `canvas-state` lists exactly the registered records on its canvas with a different id, so it never lists the joiner; it carries the joiner's id, name and colour |
| `Scenarios.OnlySecondReceives` | server/websocket.ts:162-171 | with clients `[a, b]` and `a` excluded, a broadcast reaches `b` alone, and only when `b` is in the room |
| `Scenarios.JoinPair` | server/websocket.ts:58-89 | two joins on connections 1 and 2 leave exactly those two records in the registry |
| `Storage.Values` | server/storage.ts:81 | `Array.from(map.values())` lists one record per key, in key order |
| `Storage.InsertNewestFirst` | server/storage.ts:86-90 | inserting into a newest-first list keeps it newest-first and adds exactly the one canvas |
| `Storage.SortNewestFirst` | server/storage.ts:86-90 | the listing order is newest-first (by `modifiedAt`, non-increasing) and is a permutation of the input |
| `Storage.SortKeepsOrderedList` | server/storage.ts:86-90 | an already newest-first list is returned unchanged |
| `Storage.MemStorage.constructor` | server/storage.ts:27-33 | a new store has no users, and exactly the three demonstration canvases under the drawn ids, in seeding order |
| `Storage.MemStorage.SeedDemoCanvases` | server/storage.ts:35-58 | adds one canvas per demonstration entry under its drawn id, appends the ids to the order, and leaves earlier canvases untouched |
| `Storage.SeedCanvasesContents` | server/storage.ts:36-56 | the seeded canvases have codes ABC123, XYZ789 and DEF456, the same empty drawing, a null thumbnail, and `createdAt == modifiedAt == now` |
| `Storage.MemStorage.AllCanvases` | server/storage.ts:81 | the canvas values are exactly the stored canvases |
| `Storage.MemStorage.AllUsers` | server/storage.ts:65 | the user values are exactly the stored accounts |
| `Storage.MemStorage.GetUser` | server/storage.ts:60-62 | returns the account stored under the id, whose own id is that id, or `undefined` when none is stored |
| `Storage.MemStorage.GetUserByUsername` | server/storage.ts:64-68 | returns the first stored account, in insertion order, with that username (no earlier account has it), or `undefined` exactly when no stored account has it |
| `Storage.MemStorage.GetCanvas` | server/storage.ts:76-78 | returns the canvas stored under the id, whose own id is that id, or `undefined` when none is stored |
| `Storage.MemStorage.GetCanvasByCode` | server/storage.ts:80-84 | returns the first stored canvas, in insertion order, with that code (no earlier canvas has it), or `undefined` exactly when no stored canvas has it |
| `Storage.MemStorage.ListCanvases` | server/storage.ts:86-90 | lists every stored canvas exactly once (a permutation of the table's values), newest first |
| `Storage.MemStorage.CreateUser` | server/storage.ts:70-74 | stores the account under the drawn id, touching no other account; a later `GetUser` of that id returns it |
| `Storage.MemStorage.CreateCanvas` | server/storage.ts:92-102 | stores the canvas under the drawn id with `createdAt == modifiedAt == now`, touching no other canvas; a later `GetCanvas` of that id returns it |
| `Storage.MemStorage.UpdateCanvas` | server/storage.ts:104-115 | an absent id gives `undefined` and no change. A present id: the canvas becomes the patched one, which is returned; every other canvas is unchanged |
| `Storage.PatchedFields` | server/storage.ts:108-112 | an update replaces exactly the fields the patch carries, keeps `id` and `createdAt`, and sets `modifiedAt` to the update's instant |
| `Storage.MemStorage.DeleteCanvas` | server/storage.ts:117-119 | returns true exactly when the id was stored; afterwards the id is in neither the table nor the order |

## Left out

- The wiring in `setupWebSocket` (server/websocket.ts:21-54) is not modelled: creating the server, registering the event handlers, and console logging. The `error` handler only logs, so it is left out too. Each callback body is a method instead.
- `JSON.parse` and `JSON.stringify` are not modelled. Messages are already-decoded datatypes. A message that fails to parse is caught and logged, so it has no effect on the state, and the model has no method for it.
- `generateUserId` is modelled by its random part, a parameter. The id is `"user_"` followed by that string. The base-36 form and the length of the random part are not modelled.
- `Date.now()`, `new Date()` and `randomUUID()` are parameters. Instants are integer milliseconds. An invalid `Date` is not modelled.
- `Relay.SessionRelay.Broadcast`: the exclusion parameter is optional in the source. Every caller passes one, so the model always takes a connection.
- JSON numbers are integers in the model. Floating-point values are not modelled. Objects and arrays are opaque references, compared by identity as `===` does.
- `wss.clients` is kept up to date by the WebSocket library, not by the relay, so the model takes it as a parameter of each callback.
- `Storage.MemStorage.ListCanvases`: the contract says newest-first and a permutation. It does not say where canvases with an equal `modifiedAt` end up. `SortNewestFirst` is a stable insertion sort, and `SortKeepsOrderedList` proves that an already-ordered list is unchanged. General stability is not stated.
- `Storage.MemStorage.constructor`: the three identifiers drawn for the demonstration canvases must be distinct, as `randomUUID` values are. `CreateUser` and `CreateCanvas` do not assume a fresh id: on a collision they overwrite, as `Map.set` does.
- `server/mongodb-storage.ts` is not part of this model. It is a wrapper over database driver calls and network I/O.
- `initializeStorage`, `getStorage` and the exported `storage` promise (server/storage.ts:122-153) are not modelled. They are the fallback from the database to memory, which is connection plumbing.
- `server/routes.ts` and the schema declarations in `shared/schema.ts` are not part of this model. Only the record shapes are used, as datatypes. A partial update can carry only the four insertable canvas fields, because the route validates it against the insert schema.
- Concurrency is not modelled. Every callback runs to completion on a single event loop.
