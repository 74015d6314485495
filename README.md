# Guild profile: member counts

This project models the member-count path of the guild-profile plugin
(`index.js`), which answers "how many members, and how many online, does
guild G have?". The plugin keeps a store that maps each guild id to its
last `{guildId, memberCount, onlineCount}` record. It serves a request from
that store when it can. Otherwise it calls `requestMembers(id)` and
subscribes a listener (`onReceived`) to GUILD_MEMBER_LIST_UPDATE. That
listener resolves the caller's promise with the record derived from the
first update for the guild. An ambient handler (`handleMemberListUpdate`),
subscribed in `start` and unsubscribed in `stop`, writes every update into
the store.

Files:

- `counts.dfy` (module `Counts`): the update payload, the record, and the
  online count as the plugin computes it (`map`, then `reduce` from 0).
  A reference definition (the sum over the non-offline groups) is proved
  equal to it.
- `store.dfy` (module `Store`): the store as a map in which each write
  overwrites the previous one. It also holds the store after a run of
  ingested updates, where the last update for each guild wins.
- `promises.dfy` (module `Promises`): a promise as a pending-or-fulfilled
  slot, and the effect of a run of updates on one listener's promise: the
  first update for its guild settles it, and nothing changes it afterwards.
- `plugin.dfy` (module `Plugin`): class `GuildProfile`. Its fields are the
  store, the log of `requestMembers` calls, the listeners, the promises and
  the ambient-subscription flag. Its methods are `Start`, `Stop`,
  `UpdateMemberCounts`, `HandleMemberListUpdate`, `GetMemberCounts`,
  `OnReceived` and `Dispatch`. `Dispatch` delivers one update to the
  ambient handler (when subscribed) and then to every listener in
  subscription order. The client method `DeliverUpdates` dispatches a run
  of updates and ties the class's state to the folds of `store.dfy` and
  `promises.dfy`. Two further client methods walk through the behaviours
  below.

The model follows the code where it differs from the intended design of the
component:

- `onReceived` is never unsubscribed (index.js:53-59). A listener goes on
  writing every later update for its guild to the store. This also holds
  after `stop`. Its promise keeps the first value it was given.
- Two requests for the same uncached guild make two `requestMembers` calls
  and register two listeners. Nothing coalesces them.
- Nothing in the code enforces `onlineCount <= memberCount`. It holds when
  the group counts are non-negative and add up to no more than the member
  count (`RecordWithinMemberCount`). `OnlineMayExceedMemberCount` gives an
  update where it does not hold.

Each pending promise has exactly one listener, and no promise has two
(`WellLinked`, `Valid`). A promise served from the store has none. A
listener resolves only its own promise. Every handler writes the same
record for a given update. So the order of the ambient handler relative to
the listeners does not change the state after a dispatch. The model runs the ambient handler first.

## Model

| member | source | states |
|---|---|---|
| Counts.Contributions | index.js:65 | the mapped list has one entry per group: the group's count, or 0 for the "offline" group |
| Counts.NonOffline | index.js:65 | reference filter: keeps exactly the groups whose id is not "offline" |
| Counts.FoldContributions | index.js:65-67 | reducing the mapped counts from any seed `acc` gives `acc` plus the sum over the non-offline groups |
| Counts.OnlineCountIsNonOfflineSum | index.js:65-67 | the online count equals the sum of `count` over the groups whose id is not "offline" |
| Counts.OnlineCountEmpty | index.js:65-67 | with no groups the online count is 0, the seed of the reduce |
| Counts.OnlineCountBounds | index.js:65-67 | if every group count is >= 0, the online count lies between 0 and the total of all group counts |
| Counts.OnlineCountAppend | index.js:65-67 | the online count of two concatenated group lists is the sum of their online counts |
| Counts.OfflineGroupIgnored | index.js:65 | inserting an "offline" group anywhere leaves the online count unchanged |
| Counts.OnlineGroupCounted | index.js:65 | inserting a non-offline group anywhere adds exactly its count |
| Counts.ToRecord | index.js:64-68 | the record copies guildId and memberCount unchanged; its onlineCount is the non-offline sum, and it is non-negative and at most the total when counts are non-negative |
| Counts.RecordWithinMemberCount | index.js:64-68 | `onlineCount <= memberCount` holds when counts are non-negative and sum to at most memberCount |
| Counts.OnlineMayExceedMemberCount | index.js:64-68 | an update whose groups exceed its memberCount yields onlineCount > memberCount: the code does not enforce the bound |
| Counts.ExampleRecord | index.js:63-72 | the update {G1, 10, [online 6, offline 4]} yields {G1, 10, 6} |
| Store.Put | index.js:70 | a write adds the record's guild to the keys and keeps every entry under its own guild id |
| Store.LookupAfterPut | index.js:38 | after a write, a lookup of that guild returns the record written; a lookup of any other guild returns what it returned before |
| Store.PutIdempotent | index.js:70 | writing the same record twice gives the same store as writing it once |
| Store.PutOverwrites | index.js:70 | of two writes for one guild, the later replaces the earlier |
| Store.IngestLastWins | index.js:32-34 | after a run of updates, each guild holds the record of its last update; a guild with no update keeps its old entry or stays absent |
| Store.IngestKeyed | index.js:68-70 | ingestion keeps every entry under its own guild id and never removes a guild |
| Promises.Settle | index.js:55 | resolving a pending promise gives it the value; resolving a settled promise changes nothing |
| Promises.FirstFor | index.js:54 | gives the index of the first update for the guild, with no earlier update for it, or the length when there is none |
| Promises.FirstMatchSettles | index.js:53-57 | a pending listener's promise holds the record of the first update for its guild, and stays pending while no such update has come |
| Promises.SettledStays | index.js:53-57 | once fulfilled, a promise keeps its value whatever updates follow |
| Promises.OtherGuildsIgnored | index.js:54 | updates for other guilds never change a listener's promise |
| Plugin.DeliverAllEffect | index.js:53-59 | delivering one update to all listeners settles exactly the promises with a listener for the update's guild and leaves every other promise untouched |
| Plugin.DeliverAllOnEvent | index.js:53-59 | when every pending promise has a listener, each promise takes the effect of the update on a listener for its own guild |
| Plugin.GuildProfile.constructor | index.js:16-19 | before `start` the plugin has the existing store, no fetches, no listeners and no promises, and the ambient handler is not subscribed |
| Plugin.GuildProfile.Start | index.js:29 | subscribes the ambient handler and changes nothing else |
| Plugin.GuildProfile.Stop | index.js:129 | unsubscribes the ambient handler; the listeners, store, fetch log and promises are unchanged |
| Plugin.GuildProfile.UpdateMemberCounts | index.js:63-72 | returns the derived record, and the store holds exactly that record under its guild, with everything else unchanged |
| Plugin.GuildProfile.HandleMemberListUpdate | index.js:32-34 | writes the record of any update, whatever its guild, to the store |
| Plugin.GuildProfile.GetMemberCounts | index.js:36-61 | hit: a promise already holding the stored record, with no fetch and no listener; miss: exactly one new fetch, one pending promise and one listener for the id; the store is unchanged |
| Plugin.GuildProfile.OnReceived | index.js:53-57 | an update for the listener's guild is written to the store and resolves the listener's promise if still pending; any other update changes nothing |
| Plugin.DeliverUpdates | index.js:29-59 | after a run of deliveries every promise is what its listener makes of the whole run (`AfterEvents`, so `FirstMatchSettles` and `SettledStays` apply), and while the ambient handler is subscribed the store is the run's ingestion (`Ingest`, so `IngestLastWins` applies) |
| Plugin.GuildProfile.Dispatch | index.js:29-59 | the store gains the update's record exactly when the ambient handler is subscribed or some listener waits for that guild; every promise takes the update's effect on its own guild; the subscriptions are unchanged |

Every method of `GuildProfile` keeps the invariant `Valid()`. Under it, every
store entry sits under its own guild id. Each listener points at a distinct
promise asked for its own guild. Every pending promise has a listener. A
fulfilled promise holds a record for the guild it was asked for, so no caller
receives another guild's counts.

## Left out

- Context-menu and header-menu patching, React element construction and modal opening (index.js:74-124): user interface over host internals.
- Logging, i18n string injection and style injection in `start` (index.js:21-23): host side effects.
- `getModule` lookups and the body of `requestMembers` (index.js:46): foreign calls. A call of `requestMembers(id)` is modelled only as an entry in the `requested` log.
- The store module and its action module (index.js:16-17) are not part of this model. The store is a map in which each write overwrites the entry of the record's guild. Nothing more about them is claimed.
- Promise and async scheduling: a promise is a pending-or-fulfilled slot. Handing its value to the caller is not modelled.
- The event dispatcher's internals: `Dispatch` delivers one update to the subscribers in turn. Subscribing or unsubscribing during a delivery, and the dispatcher's handling of duplicate subscriptions, are not modelled.
- Start: models only the subscription at index.js:29, as a flag. In the source, `_.bindAll` (index.js:27) replaces `handleMemberListUpdate` with a new bound function on every `start`. A second `start` without a `stop` in between therefore subscribes a second, distinct handler, and `stop` (index.js:129) removes only the newest one, so the older one keeps writing to the store. The model has a single ambient subscription, so it does not capture that case.
- Updates without a `groups` field: the code would throw at index.js:65. In the model every update carries a `groups` sequence.
- JavaScript number semantics: counts are unbounded integers, so float rounding and overflow are not modelled. The group test `id != "offline"` is modelled as string inequality. JavaScript's loose `!=` agrees with it on string ids.
