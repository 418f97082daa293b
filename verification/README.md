# stormbot in Dafny

A model of the core of stormbot, an XMPP group-chat bot. The bot sits in
one multi-user chat room (XEP-0045) under a nick. It routes room messages to
its command parser, to fallback handlers and to per-nick subscribers. It
discovers other stormbot instances ("peers") in the room through service
discovery (XEP-0030). It forwards commands to those peers and executes
commands they send. Three plugins are modelled beside it: the
auto-persisting JSON store, the volunteer rota and the music player's path
guard.

| file | module | what it models |
|---|---|---|
| `wrappers.dfy` | `Wrappers` | `Option` and `Result` |
| `text.dfy` | `Text` | Python's `str.split`, `str.partition`, `str.startswith` and `str.join` for a single-character separator |
| `version.dfy` | `LooseVersion` | distutils `LooseVersion`: the version parser and the list comparison, with Python 3's TypeError for a number facing a word |
| `peer.dfy` | `Peers` | the `name#version` capability items, occupant JIDs `room/nick` (section 3.4 of RFC 7622), the `Peer` record and the advertised item list |
| `bot.dfy` | `Bot` | the `StormBot` session: configuration split, room message routing, the fallback chain, subscriptions, peer discovery, plugin lists from peers, incoming and outgoing peer commands, `get_peers` |
| `storage.dfy` | `Storage` | `Storage`, `DictProxy` and `ListProxy`: a JSON document updated through proxies and written to the file after every change |
| `volunteer.dfy` | `Volunteer` | `Role.last_start`, `Volunteer.remaining`, the announcement text and the `VolunteerPicker` memo |
| `music.dfy` | `Music` | `posixpath.join`, `normpath`, `abspath` and `commonpath`, `Music.safe_path` and the decisions of `Music.run` |

How the model treats the parts of the code it does not contain:

- **The chat transport** is an outbox: `write` appends a line to `StormBot.outbox`.
- **Discovery answers and iq payloads** arrive as inputs, either a result or an IqError condition.
- **Each event handler is one atomic step.**
- **The command parser and the command handlers** are one function field, `dispatch`. It says whether the body could not be tokenised, the parser raised `CommandParserError(message, usage)`, the parser aborted after help output, or a handler ran. A handler writes lines and then returns a value or raises.
- **Each plugin** is a value. It holds its optional distribution `(name, version)` and the answers of its `fallback`, `message` and `got_online` hooks.

The store keeps one JSON document. A container marks whether it is a proxy
object stored in the tree or a plain list or dict. A proxy handed to the
caller is a view:

- **`Attached(kind, path)`:** a path from the root. A write through it rewrites the document at that path and then dumps.
- **`Detached(local)`:** the fresh empty container that `cache or {}` and `cache or []` create for an empty plain container. A write through it changes only that private container, and the document does not change.

Reads are functions of the document, so they change neither the document nor the file.

Time in the volunteer rota is an integer number of microseconds. `now` and
the random draw are parameters.

Paths in the music guard are POSIX strings. The working directory and the
existence check are parameters.

Where the code and its written description disagree, the model follows the code:

- A nick is a peer candidate when it is non-empty and its discovery info lists the federation feature (`_is_peer`, stormbot/bot.py:313-322). There is no further condition on the nick.
- A peer command that no local plugin matches is only logged (stormbot/bot.py:423). No error reply is sent.
- A peer command whose handler fails gets an error reply that is built and never sent (stormbot/bot.py:414-420).
- A subscriber whose hook raises is reported with `e.message` (stormbot/bot.py:285-286). That attribute is missing on ordinary Python 3 exceptions; see Findings.

## Model

| member | source | states |
|---|---|---|
| Text.Partition | stormbot/bot.py:195 | without a '/' the whole argument is the room and the rest is empty; with one the argument is room + '/' + rest, and the room holds no '/' |
| Text.PartitionAfter | stormbot/bot.py:195 | partition cuts at the first separator |
| Text.Split | stormbot/bot.py:436 | at least one piece, and no piece holds the separator |
| Text.SplitLength | stormbot/bot.py:436 | there is one more piece than there are separators, so `name, version = item.split('#')` unpacks exactly when the item holds one '#' |
| Text.JoinSplit | stormbot/bot.py:436 | joining the pieces with the separator restores the text |
| Text.SplitJoin | stormbot/bot.py:436 | splitting the join of separator-free pieces restores the pieces |
| LooseVersion.RunLength | stormbot/bot.py:167 | a version token is the longest run of one character class (digits, lower-case letters, other characters), as the version pattern matches it |
| LooseVersion.Components | stormbot/bot.py:167 | there are never more components than characters, and every word is a non-empty run of lower-case letters only or of other characters only, never holding a digit or a dot |
| LooseVersion.CompareText | stormbot/bot.py:167 | two words compare equal exactly when they are the same string |
| LooseVersion.Compare | stormbot/bot.py:167 | two component lists compare equal exactly when they are equal; a number facing a word at the first place raises TypeError |
| LooseVersion.AtLeast | stormbot/bot.py:167 | raises when either version string is empty (AttributeError) and, for non-empty ones, exactly when the component comparison raises (TypeError); otherwise true exactly when the stored version does not compare below the wanted one |
| LooseVersion.Values | stormbot/bot.py:167 | the numbers of an all-number component list, position by position |
| LooseVersion.NumericComponents | stormbot/bot.py:167 | a version of digits and dots parses into numbers only |
| LooseVersion.CompareNumbers | stormbot/bot.py:167 | for number-only versions the comparison never raises, and "at least" holds exactly when the number lists are in the reference lexicographic order (prefix, or larger at the first difference) |
| LooseVersion.CompareSwap | stormbot/bot.py:167 | a < b exactly when b > a, and the comparison raises one way exactly when it raises the other |
| LooseVersion.AtLeastReflexive | stormbot/bot.py:167 | every non-empty version is at least itself; comparing the empty version raises AttributeError |
| LooseVersion.NumericNotLexicographic | stormbot/bot.py:167 | "1.10" is at least "1.9" and "1.9" is not at least "1.10" |
| LooseVersion.WordAgainstNumber | stormbot/bot.py:167 | comparing "a" with "1" raises TypeError |
| Peers.DecodeItem | stormbot/bot.py:436 | an item decodes exactly when it holds one '#', and encoding the decoded capability gives the item back |
| Peers.EncodeItem | stormbot/bot.py:130-131 | the item holds one more '#' than the name and the version together, and for '#'-free parts it splits at '#' into exactly the name and the version |
| Peers.ItemRoundTrip | stormbot/bot.py:130-131 | an encoded capability decodes back to itself exactly when neither its name nor its version holds a '#' |
| Peers.SplitJid | stormbot/bot.py:349-350 | the bare part holds no '/'; a JID with a '/' is bare + '/' + resource, and one without is all bare with an empty resource |
| Peers.JidRoundTrip | stormbot/bot.py:158-160 | splitting `room/nick` returns (room, nick) whenever the room holds no '/' |
| Peers.Peer.constructor | stormbot/bot.py:153-156 | a new peer has the given room and nick and no plugins |
| Peers.Peer.Jid | stormbot/bot.py:158-160 | the peer's JID splits back into its room and nick |
| Peers.Peer.AddPlugin | stormbot/bot.py:162-163 | the plugin map gets `name -> version`, replacing only that entry |
| Peers.Peer.Supports | stormbot/bot.py:165-167 | false for a plugin never added; true only for an added one |
| Peers.SupportsNumeric | stormbot/bot.py:165-167 | for non-empty versions made of ASCII digits and dots, `supports` never raises and is true exactly when the plugin was added and its stored version is at least the wanted one in component-wise numeric order |
| Peers.Peering.constructor | stormbot/bot.py:109-110 | the advertised item list starts empty |
| Peers.Peering.AddPlugin | stormbot/bot.py:130-131 | appends exactly the item `name#version` |
| Peers.DecodeItems | stormbot/bot.py:435-437 | the decoding of a list of items succeeds exactly when every item decodes |
| Peers.EncodeAll | stormbot/bot.py:130-131 | one item per capability, in order, each `name#version` |
| Peers.AdvertisedRoundTrip | stormbot/bot.py:435-437 | decoding the items advertised for '#'-free capabilities succeeds and yields exactly their capability table |
| Bot.SplitRoomArg | stormbot/bot.py:195-196 | the room holds no '/' and the nick is non-empty; an argument without a '/' is all room with nick "stormbot"; otherwise the argument is room/nick, or room/ with the default nick |
| Bot.RoomArgRoundTrip | stormbot/bot.py:195-196 | splitting `room/nick` with a non-empty nick returns (room, nick) |
| Bot.AddressedNick | stormbot/bot.py:277-281 | a found nick is non-empty, free of spaces and colons, and followed by ':' at the start of the body; when none is found, every colon after the first character comes after a space or another colon |
| Bot.FirstClaim | stormbot/bot.py:264-267 | the first plugin whose fallback returns True, or none, and no earlier plugin claims |
| Bot.FallbackOutcome | stormbot/bot.py:262-272 | when a plugin claims the body, the output is a prefix of what every fallback would write; when none claims it, the output is every fallback's lines followed by exactly the message and the usage |
| Bot.FallbackSecondClaims | stormbot/bot.py:262-272 | two plugins where the second claims: both fallbacks run in order, and the parse error is not written |
| Bot.FallbackErrorOnlyIfUnclaimed | stormbot/bot.py:262-272 | if nobody claims, every fallback runs and then the message and the usage are written once; if plugin k claims first, the fallbacks up to k run and nothing else is written |
| Bot.SubscriberFaultStopsChain | stormbot/bot.py:282-286 | as written, a first subscriber raising an exception without `message` stops the loop before the second subscriber; with faults reported, both run in order |
| Bot.FaultsReported | stormbot/bot.py:282-286 | with every fault reported, the text of each faulting subscriber's exception is among the lines written |
| Bot.DeliveriesAsWritten | stormbot/bot.py:282-286 | the loop as written writes a prefix of what the loop that reports every fault writes |
| Bot.DeliveriesAgreeWithoutFaults | stormbot/bot.py:282-286 | when no subscriber raises, the loop as written and the corrected loop write the same lines |
| Bot.DeliveriesShift | stormbot/bot.py:282-286 | the corrected loop writes the first subscriber's report, then the reports of the rest in order |
| Bot.FirstMatch | stormbot/bot.py:391-398 | the first plugin whose distribution has the requested name and version, or none, and no earlier plugin matches |
| Bot.StormBot.constructor | stormbot/bot.py:192-240 | the room and nick come from the room argument; the plugins are Helper, Version and then the extra plugins; the advertised items are `name#version` for each plugin with a distribution, in plugin order; no subscriptions, peers or output |
| Bot.StormBot.Subscribe | stormbot/bot.py:302-305 | the nick's subscriber list gets the plugin appended, duplicates kept; other nicks unchanged |
| Bot.StormBot.RoomReplies | stormbot/bot.py:256-286 | the bot's own messages and messages addressed to nobody produce no output |
| Bot.StormBot.CommandReplies | stormbot/bot.py:258-275 | a tokenising failure writes only the apology; a parser abort or a handler that returns writes the handler's lines and nothing more, since the returned value is not written to the room; a raising handler writes its lines and then exactly the apology; a parse error writes the fallback chain's outcome |
| Bot.StormBot.MucMessage | stormbot/bot.py:256-286 | the outbox grows by exactly the replies to the message: command output, the fallback chain after a parse error, the apology after a fault, or the subscriber reports |
| Bot.StormBot.RunFallbacks | stormbot/bot.py:262-272 | the for/else loop writes exactly the fallback chain's outcome |
| Bot.StormBot.Notify | stormbot/bot.py:281-286 | every subscriber of the nick runs in subscription order, each fault reported and skipped |
| Bot.RunSubscribers | stormbot/bot.py:282-286 | the lines written are each subscriber's writes in subscription order, a faulting subscriber's writes followed by its report |
| Bot.StormBot.PeerConnect | stormbot/bot.py:425-440 | other peer records unchanged; an IqError leaves no record for the nick; an answer gives a fresh record holding exactly the decoded items, so nothing from an earlier connection survives; a malformed item stops decoding |
| Bot.AddItems | stormbot/bot.py:435-437 | the fresh record ends up with exactly the map the items decode to, and the run completes exactly when every item is well formed |
| Bot.StormBot.GotOnline | stormbot/bot.py:248-254 | the bot's own presence does nothing; otherwise the hooks run in plugin order and the outbox grows by what they wrote; a raising hook stops the later hooks and the reconnection, leaving the peers unchanged; when every hook returns, the nick is reconnected exactly when it is a non-empty nick advertising the federation feature |
| Bot.OnlineRun | stormbot/bot.py:250-252 | the run of hooks completes exactly when every hook returns |
| Bot.OnlineCrashStops | stormbot/bot.py:250-254 | when hook j raises after every earlier hook returned, the lines written are those of the hooks up to j, and no later hook runs |
| Bot.IsPeer | stormbot/bot.py:313-322 | an empty nick is never a peer; a discovery query answered with an IqError means not a peer; otherwise the nick is a peer exactly when its features list the federation namespace |
| Bot.StormBot.PluginsResult | stormbot/bot.py:348-357 | accepted exactly when the sender is an occupant of the room known as a peer; then that peer's map gets the entries, and no other record changes |
| Bot.AddEntries | stormbot/bot.py:354-357 | the peer's map becomes the old map overridden by the entries, later entries winning |
| Bot.StormBot.Execute | stormbot/bot.py:399-420 | a replayed command always ends in a reply; a handler's returned text is the reply's result, and a `None` result or a parser abort gives an empty reply; a tokenising failure, a parse error or a raising handler gives the internal-server-error reply, which is never sent; the lines written are the handler's or the abort's, and none otherwise |
| Bot.StormBot.RecvOutcome | stormbot/bot.py:380-423 | an unknown sender, or a request no plugin matches by name and version, gets nothing and writes nothing |
| Bot.StormBot.PeerRecvCommand | stormbot/bot.py:380-423 | the outcome and the lines written are those of `RecvOutcome` |
| Bot.StormBot.GetPeers | stormbot/bot.py:442-447 | no filter gives every peer; a plugin without a distribution fails with DistributionNotFound; otherwise the peers kept are exactly those whose `supports` holds, and the result is a VersionError when the comparison raises for some peer |
| Bot.StormBot.PeerSendCommand | stormbot/bot.py:376-378 | the request exists exactly when the plugin has a distribution; it goes to the target's JID, names that distribution, carries the body "<target nick>: <command>", and its sender is the given one, or the bot's nick when none or an empty one is given |
| Bot.DecodeItemsStuck | stormbot/bot.py:435-437 | once an item fails to decode, later items change nothing |
| Bot.GetPeersNumeric | stormbot/bot.py:442-447 | with non-empty versions made of ASCII digits and dots, `get_peers(plugin)` succeeds and holds exactly the peers whose stored version is at least the plugin's in numeric order |
| Bot.ForwardAccepted | stormbot/bot.py:376-423 | a command one bot forwards to another bot in the same room, which knows the sender as a peer and has the plugin, is executed there as "<nick>: <command>" from the sender |
| Storage.Plain | stormbot/storage.py:5-7 | the dumped container has the kind, the length and the keys of the cache, is marked plain, and a scalar is dumped as itself |
| Storage.AtPlain | stormbot/storage.py:5-7 | along every path, the dump holds the dump of what the cache holds there, and a path missing in the cache is missing in the dump |
| Storage.Assign | stormbot/storage.py:41-43 | after `d[k] = v` the key holds v, every other key keeps its value, a new key adds one entry, and keys stay distinct |
| Storage.Remove | stormbot/storage.py:45-47 | deleting position i keeps every other entry in order |
| Storage.RemoveKeeps | stormbot/storage.py:45-47 | deleting a key removes that key only and keeps keys distinct |
| Storage.PutPut | stormbot/storage.py:41-43 | a second write at the same place overrides the first |
| Storage.Wrap | stormbot/storage.py:70-75 | a stored container becomes a proxy of the same kind with the same contents; a scalar is stored as is |
| Storage.Reading | stormbot/storage.py:70-75 | a scalar reads as itself; a proxy or non-empty plain container reads as a proxy one step below; an empty plain container reads as a fresh detached one |
| Storage.Position | stormbot/storage.py:14-23 | a list index is valid exactly when -len <= i < len, and a negative one counts from the end |
| Storage.InsertPosition | stormbot/storage.py:25-28 | an insert position counts negative indexes from the end and is clamped to 0..len |
| Storage.GetKey | stormbot/storage.py:38-39 | TypeError exactly when the view is not a live dict; KeyError exactly when the key is missing |
| Storage.GetIndex | stormbot/storage.py:14-15 | TypeError exactly when the view is not a live list; IndexError exactly when the index is out of range |
| Storage.Len | stormbot/storage.py:52-53 | defined exactly for a live container |
| Storage.Iter | stormbot/storage.py:49-50 | TypeError exactly when the view is not a live dict; otherwise as many keys as `len` counts, each of which reads, and every key that reads is among them |
| Storage.IterAfterSet | stormbot/storage.py:41-50 | after `d[k] = v`, iteration yields the old keys in their old order, followed by k when it was new |
| Storage.IterAfterDelete | stormbot/storage.py:45-50 | after `del d[k]`, where k first appears at position i of the iteration, the TypeError-free iteration yields the old keys in their old order without that position |
| Storage.SetKeyStep | stormbot/storage.py:41-43 | `d[k] = v` fails only with TypeError, exactly when the view is not a live dict; a failed write changes nothing; a write through a detached proxy never reaches the document; a successful write through an attached proxy keeps the view |
| Storage.DelKeyStep | stormbot/storage.py:45-47 | `del d[k]` raises TypeError exactly when the view is not a live dict and KeyError exactly when the key is missing; the write lands as `d[k] = v` does |
| Storage.SetIndexStep | stormbot/storage.py:17-19 | `l[i] = v` raises TypeError exactly when the view is not a live list and IndexError exactly when i is out of range; the write lands as `d[k] = v` does |
| Storage.DelIndexStep | stormbot/storage.py:21-23 | `del l[i]` raises TypeError exactly when the view is not a live list and IndexError exactly when i is out of range; the write lands as `d[k] = v` does |
| Storage.InsertStep | stormbot/storage.py:25-28 | `l.insert(i, v)` fails only with TypeError, exactly when the view is not a live list; the write lands as `d[k] = v` does |
| Storage.AssignTwice | tests/test_storage.py:18-29 | setting a key twice is setting it once to the second value |
| Storage.SetThenGet | stormbot/storage.py:38-43 | after `s[k] = v`, `s[k]` is v for a scalar, and for a container a proxy attached one step below holding v, even an empty one |
| Storage.SetKeepsOthers | stormbot/storage.py:41-43 | `s[k] = v` leaves every other key's reading unchanged and adds one entry exactly when k is new |
| Storage.LastWriteWins | tests/test_storage.py:18-29 | two writes to one key leave the document as the second alone would |
| Storage.DeleteKey | stormbot/storage.py:45-47 | deleting a present key removes it, lowers `len` by one and keeps other keys; a missing key raises KeyError and changes nothing |
| Storage.SetIndexThenGet | stormbot/storage.py:14-19 | after `l[i] = v` with i in range, the list holds its old items with position i replaced by v as stored, and `l[i]` reads v as `s[k]` does |
| Storage.SetIndexKeepsOthers | stormbot/storage.py:17-19 | `l[i] = v` leaves the reading at every other position unchanged |
| Storage.InsertThenGet | stormbot/storage.py:25-28 | after `l.insert(i, v)` the list holds the old items with v, unwrapped, inserted at the clamped position, and that position reads v |
| Storage.InsertShifts | stormbot/storage.py:25-28 | after an insert, each old item reads at its old position before the insertion point and one position further on from it |
| Storage.DeleteIndex | stormbot/storage.py:21-23 | `del l[i]` with i in range leaves exactly the old items without position i; an out-of-range index raises IndexError and changes nothing |
| Storage.DeleteShifts | stormbot/storage.py:21-23 | after `del l[i]`, position j reads the old item j before i and the old item j + 1 from i on |
| Storage.EmptyRawDetached | stormbot/storage.py:36 | an empty plain dict read from the document gives a fresh dict, and writes through it never reach the document |
| Storage.NonEmptyRawAttached | stormbot/storage.py:36 | a non-empty plain dict is read in place, attached at its path |
| Storage.StoreEmptyDict | tests/test_storage.py:8-16 | storing `{}` under "key" in a new store dumps `{"key": {}}` |
| Storage.StoreTwice | tests/test_storage.py:18-29 | storing "a" then "b" under "key" dumps `{"key": "b"}` |
| Storage.StoreSubkey | tests/test_storage.py:31-42 | storing `{}`, reading it back and setting "subkey" through it dumps `{"key": {"subkey": "abc"}}` |
| Storage.LoadEmptyKey | tests/test_storage.py:44-51 | after loading `{"key": {}}`, `s["key"]` is an empty dict |
| Storage.LoadSubkey | tests/test_storage.py:53-60 | after loading `{"key": {"subkey": "abc"}}`, `s["key"]["subkey"]` is "abc" |
| Storage.Store.Load | stormbot/storage.py:61-68 | an existing file's document becomes the cache; a missing file gives `{}`, written at once; the file holds the cache |
| Storage.Store.Dump | stormbot/storage.py:77-81 | the file holds the current document |
| Storage.Store.SetKey | stormbot/storage.py:41-43 | the document and result are those of `d[k] = v`, and the file holds the new document |
| Storage.Store.DelKey | stormbot/storage.py:45-47 | the document and result are those of `del d[k]`, and the file holds the new document |
| Storage.Store.SetIndex | stormbot/storage.py:17-19 | the document and result are those of `l[i] = v`, and the file holds the new document |
| Storage.Store.DelIndex | stormbot/storage.py:21-23 | the document and result are those of `del l[i]`, and the file holds the new document |
| Storage.Store.Insert | stormbot/storage.py:25-28 | the document and result are those of `l.insert(i, v)`, and the file holds the new document |
| Volunteer.FloorDiv | stormbot/volunteer.py:29 | the quotient rounds toward minus infinity |
| Volunteer.LastStart | stormbot/volunteer.py:27-29 | undefined (ZeroDivisionError) exactly when the duration is zero |
| Volunteer.LastStartBounds | stormbot/volunteer.py:27-29 | for a positive duration, last_start(now) <= now < last_start(now) + duration |
| Volunteer.LastStartMultiple | stormbot/volunteer.py:29 | last_start(now) - start is a whole number of durations |
| Volunteer.LastStartIdempotent | stormbot/volunteer.py:29 | last_start of a period start is that start |
| Volunteer.Remaining | stormbot/volunteer.py:17-19 | within the volunteer's period, the time left is in (0, duration] |
| Volunteer.RemainingAfterPick | stormbot/volunteer.py:15-19 | a volunteer started at last_start(now) has more than nothing and at most a whole period left at now |
| Volunteer.SpanOf | stormbot/volunteer.py:53 | a duration splits into days rounded down and a non-negative remainder in hours, minutes, seconds and microseconds below one day; the day count is zero exactly when the duration lies in [0, one day), and the microseconds are the duration modulo one second |
| Volunteer.SpanText | stormbot/volunteer.py:53 | the text shows a fraction of a second exactly when there are microseconds, and a day count exactly when the day count is non-zero |
| Volunteer.Announcement | stormbot/volunteer.py:53 | the line starts with "<name> is <role> for ", and the rest shows a fraction of a second exactly when the time left is not a whole number of seconds, and a day count exactly when it is negative or at least a day |
| Volunteer.WeekText | stormbot/volunteer.py:53 | a whole week prints as "7 days, 0:00:00" |
| Volunteer.MinusOneText | stormbot/volunteer.py:53 | minus one microsecond prints as "-1 day, 23:59:59.999999" |
| Volunteer.Candidates | stormbot/volunteer.py:57 | the candidates are exactly the roster members other than the bot's nick |
| Volunteer.FindRole | stormbot/volunteer.py:48 | a found role is one of the roles and has the name; none is found only when no role has it |
| Volunteer.VolunteerPicker.constructor | stormbot/volunteer.py:32-35 | the two roles with their start times and periods, and an empty memo |
| Volunteer.VolunteerPicker.Pick | stormbot/volunteer.py:55-60 | fails exactly when there are no candidates or the period is zero; otherwise records for the role a roster member other than the bot, started at the current period's start, and changes no other role |
| Volunteer.VolunteerPicker.Run | stormbot/volunteer.py:47-53 | keeps every remembered volunteer filed under the role it was picked for; a role already in the memo is announced from it unchanged; otherwise one is picked and announced; either way the line starts with "<name> is <requested role> for " |
| Music.CollapseAll | stormbot/music.py:20 | normalising a rooted path of separator-free pieces yields clean components only |
| Music.NormComponents | stormbot/music.py:20 | the kept components are non-empty, free of '/' and never "."; for a rooted path they are never ".." either |
| Music.JoinPath | stormbot/music.py:32 | an absolute second part replaces the first; otherwise the result starts with the first part and ends with the second, with a '/' just before the second when the first is non-empty; the result is absolute when either part is |
| Music.NormPath | stormbot/music.py:20 | normalisation never yields the empty path and keeps a path absolute |
| Music.AbsPath | stormbot/music.py:20 | an absolute path ignores the working directory and is only normalised; with an absolute working directory the result is absolute |
| Music.NormRooted | stormbot/music.py:10 | a rooted path of clean components is already normal |
| Music.NormParent | stormbot/music.py:20 | a trailing ".." cancels the component before it |
| Music.Lcp | stormbot/music.py:21 | the common prefix is a prefix of both lists and cannot be extended |
| Music.CommonPath | stormbot/music.py:21 | raises ValueError exactly when one path is absolute and the other is not |
| Music.SafePath | stormbot/music.py:19-22 | an absolute base and working directory always give an answer |
| Music.SafeIff | stormbot/music.py:19-22 | for a base in normal form, a path is safe exactly when the components of its normalised absolute form start with the base's components |
| Music.BaseIsSafe | stormbot/music.py:19-22 | the base itself is safe |
| Music.SiblingPrefixRejected | stormbot/music.py:21-22 | base "/music" rejects "/musicx/a" |
| Music.ParentEscapes | stormbot/music.py:32-33 | asking for ".." from a base below the root is refused |
| Music.AbsoluteArgument | stormbot/music.py:32-33 | an absolute song replaces the base in the join and is safe exactly when it lies under the base |
| Music.DoubleSlashBaseRejectsAll | stormbot/music.py:19-22 | a base starting with exactly two slashes, which `abspath` keeps, makes every path unsafe |
| Music.Init | stormbot/music.py:8-11 | the music directory is absolute |
| Music.Run | stormbot/music.py:31-42 | no song raises; an unsafe path writes only the refusal and spawns nothing; a safe path writes the missing-song line when the file is absent, then the playing line, and spawns exactly [player, joined path] |

## Left out

- XMPP transport: the connection, `session_start`, joining the room, `send_message`, iq construction and sending, and the handler and feature registration of `StormbotPeering` are not modelled. Lines written go to an outbox, and discovery answers are inputs.
- asyncio: handlers are atomic steps; interleavings of concurrent handlers are not modelled.
- argparse and shlex: `CommandParser`, `_command` and the plugins' parser set-up are the `dispatch` input.
- pkg_resources: a plugin's distribution is a fixed optional `(name, version)`. A lookup that raises DistributionNotFound for a plugin without one is modelled in `get_peers` and `peer_send_command` as an error result.
- `_plugins_get` and `peer_forward_msg`'s iq sending are transport. The forwarded request is the value `PeerSendCommand` returns.
- `str.format` in `write` and the help and version texts of the Helper and Version plugins are not modelled.
- JID handling is a split at the first '/'. Normalisation (RFC 7622) and the iq's missing attributes are not modelled.
- Storage file handling: the file handle, `seek`, `truncate`, `flush` and the JSON text are not modelled. The file is the `persisted` snapshot of the document, compared as a value.
- Proxy identity: a view is a path fixed when the proxy is read, whereas a Python proxy keeps the object it was made for. After a list insertion or deletion shifts an element, or after an ancestor is replaced, a stale view reads and writes whatever now sits at its path, and those writes reach the document. It raises TypeError only when the container there is of another kind, or when the path is gone. In Python the old proxy goes on working on the object it was made for, and after a replacement its writes are dumped without appearing in the document.
- Proxy aliasing: a proxy object stored as a value is stored by its contents, so aliasing between two places holding the same proxy is not modelled. Writes below a detached container are kept in that view only.
- The `MutableMapping` and `MutableSequence` mixin methods, and list iteration, are not modelled.
- Volunteer inputs: `datetime.now`, `random.choice`, `random.seed`, `isodate` parsing and the room roster call are parameters. One clock reading serves a whole `run`, where Python reads the clock in `last_start` and again in `remaining`. Time is integer microseconds, so `timedelta / timedelta` is exact floor division instead of floating point.
- Music: `subprocess.Popen` is the returned command, `os.path.exists` is a parameter and `os.getcwd()` is a parameter. `commonpath` on two paths takes the common prefix of both component lists, which equals Python's prefix of the smallest and largest list.
- stormbot/say.py, stormbot/fortune.py, stormbot/mock.py, setup.py, `Fakebot` and `main` are not part of this model.
- Peers.Peer.Supports: its own contract covers only the missing-plugin case; the full order is stated for digit-and-dot versions by `Peers.SupportsNumeric`, because versions with letters may raise TypeError in Python 3.
- LooseVersion.Components: only the ASCII digits 0-9 count as digits. The version pattern's `\d` also matches other Unicode decimal digits, which the model files as other characters.
- Bot.StormBot.GetPeers: returns a set computed at once. `get_peers` returns a lazy `filter` over the live `_peers.values()` view: peers come in insertion order, a comparison raises only when iteration reaches that peer, and peers added or removed before iteration are seen.
- Plugin wiring: the model takes the plugins as they are evidently meant to be wired. `Music.__init__(self, args)` and `VolunteerPicker.__init__(self, args)` (stormbot/music.py:8, stormbot/volunteer.py:32) take one argument besides `self`, while the bot passes two in `plugin(self, self.args)` (stormbot/bot.py:223). Their `run(self, bot, msg, parser, args)` (stormbot/music.py:31, stormbot/volunteer.py:47) differs from the call `args.command(msg, self.cmd_parser, args, peer)` (stormbot/bot.py:293). The model takes the bot, the message and the parsed arguments as the plugins' own signatures name them.
- Bot.StormBot.MucMessage: reports every subscriber fault and goes on with the next subscriber; the code as written stops at a fault without a `message` attribute (see Findings).

## Findings

| source | as written | input that shows it | evidently intended | confidence | as-written member | corrected member |
|---|---|---|---|---|---|---|
| stormbot/bot.py:282-286 | a subscriber's exception is reported with `self.write(e.message)` | "bob" has two subscribers, and the first one's hook raises an exception without a `message` attribute (any built-in exception in Python 3) when "alice" writes "bob: hi" | the fault is reported and the next subscriber still runs | medium, not executed | Bot.SubscriberFaultStopsChain | Bot.StormBot.Notify |
