# fl0w core, modelled in Dafny

fl0w is the control plane of a small fleet of robot controllers ("Wallabies"). A relay
server connects editors, controllers and web observers. This project models the parts of
it that keep state, and proves what that state and the messages built from it satisfy:

- **Presence** (`presence.dfy`, module `Presence`, from `Server/Server.py`):
  - each connection carries a name and a channel tag (editor 1, controller 2, web 3);
  - the Broadcast registry groups connections by tag;
  - the `peers` route keeps, per observer, the list of channels it wants rosters of;
  - it builds rosters and re-pushes them whenever a connection identifies or closes.
- **Build planning** (`compile.dfy`, module `Compile`, from `Server/Server.py`): the binary
  folder name and the gcc argument list that `Compile.compile` derives from a synchronised
  `.c` file.
- **Sensor streaming** (`sensors.dfy`, module `Sensors`, from `Wallaby/Wallaby.py`):
  - the `SensorReadout` registry of required ports and per-connection port lists;
  - one round of the fetcher thread;
  - the `sensor` pipe that turns a request into registry updates.
- **Program control** (`control.dfy`, module `Control`, from `Wallaby/Wallaby.py`): the
  `WallabyControl` slot holding the running user program, its command dispatcher, and the
  relay of the program's output.
- **Directory sync** (`sync.dfy`, module `Sync`, from `Shared/Sync.py`):
  - the recursive listing of a synced folder over an abstract directory tree;
  - the basename helper and the watchdog event filter;
  - the `SyncClient` and `SyncServer` bookkeeping: known files, suppressed paths, the started
    flag;
  - the messages each side sends, including the responder's reconciliation of a "list".
- `lists.dfy` (module `Lists`) holds three Python idioms as functions:
  - `if not x in l: l.append(x)`;
  - `if x in l: del l[l.index(x)]`;
  - `str.split` / `str.join`.

Classes model what the source mutates in place: `Peers`, `Relay`, `SensorReadout`, `Sensor`,
`WallabyControl`, `SyncClient` and `SyncServer`. Their methods are proved against pure
functions of the old state (`WithChannel`, `Subscribed`, `Unsubscribed`, `Transcript`,
`Brackets`, `Reconciled`, …), and lemmas prove what the source promises about those functions.

Inputs the model does not compute:
- I/O, hashes and the hardware are parameters:
  - `disk` gives a path's content and modification time;
  - `digest` stands for MD5;
  - `hardware` gives controller-library readings;
  - `unreachable` is the set of observers whose send fails;
  - a `Process` is the lines a program prints and its exit code.
- Writes to the synced folder are returned as a list of `FsOp`, and outgoing messages as
  return values.

## Where the code and the design differ

The model follows the code in each case:
- **Closing a connection.** The design removes its interest list. `Handler.closed`
  (Server/Server.py:184-189) only leaves the Broadcast channel and pushes rosters, so the
  list disappears only if the push to it fails (`Presence.Relay.Closed`).
- **Who `push_changes` sends to.** The design sends only to observers with a non-empty
  interest list. The code (Server/Server.py:162-166) sends to every observer that has an
  entry, including one whose list was emptied by unsubscribing (`Presence.Pushed`).
- **Sensor connections with no ports.** The design sends them nothing. The fetcher
  (Wallaby/Wallaby.py:106-111) pipes a message to every registered connection, including
  one whose lists are empty (`Sensors.Delivered`).
- **A second `run`.** The design rejects a second `run` while a program runs. The code has
  no guard, and the new process replaces the old handle (`Control.WallabyControl.Spawn`).
- **Suppressed watcher events.** The design clears a suppressed path inside the watcher
  callback. The code clears it right after the write (Shared/Sync.py:98-107), and
  `modified`/`deleted` only test membership.

## Model

| member | source | states |
|---|---|---|
| Lists.RemoveFirst | Server/Server.py:147-150 | `del l[l.index(x)]` behind an `in` test: unchanged when `x` is absent, otherwise exactly one occurrence of `x` fewer (multiset) and one element shorter |
| Lists.RemoveFirstAt | Server/Server.py:57 | removing the first occurrence at a known index `k` cuts out exactly element `k` |
| Lists.RemoveFirstNoDup | Shared/Sync.py:91-93 | on a duplicate-free list, removal keeps it duplicate-free and removes exactly `x` |
| Lists.RemoveFirstKeepsOthers | Wallaby/Wallaby.py:72-74 | removing one `x` from a list that may hold duplicates keeps every other element |
| Lists.AppendIfAbsent | Shared/Sync.py:86-88 | `if not x in l: l.append(x)`: `x` is present afterwards, the element set grows by `x` only, no duplicate is created, and a present `x` changes nothing |
| Lists.AppendIfAbsentIdempotent | Shared/Sync.py:86-88 | appending the same element twice equals appending it once |
| Lists.AppendThenRemove | Shared/Sync.py:86-93 | suppressing then unsuppressing a path that was not suppressed gives the old list back |
| Lists.Split | Server/Server.py:50 | `split("/")` yields at least one piece and no piece holds the separator |
| Lists.SplitJoin | Server/Server.py:50 | join then split gives back separator-free pieces |
| Lists.JoinSplit | Server/Server.py:50 | split then join gives back the string |
| Compile.DashedName | Server/Server.py:50 | the relative path with its folders flattened into one name: the result holds no '/' |
| Compile.SlashesToDashes | Server/Server.py:50 | reference definition: the string with each '/' replaced by '-', character for character |
| Compile.DashedNameReplacesSlashes | Server/Server.py:50 | `"-".join(relpath.split("/"))` equals the reference: each slash becomes a dash and nothing else changes |
| Compile.RStrip | Server/Server.py:50 | `rstrip(chars)`: the result is a prefix, does not end in a stripped character, and only stripped characters were removed |
| Compile.RStripUnique | Server/Server.py:50 | those three properties determine `rstrip`'s result |
| Compile.NoSlashIsFlat | Server/Server.py:50 | a relative path without folders keeps its name |
| Compile.BinaryNameAsWritten | Server/Server.py:50 | the name as written is a prefix of the dashed path and never ends in '.' or 'c' |
| Compile.BinaryName | Server/Server.py:50 | the intended name plus ".c" is exactly the dashed path |
| Compile.BinaryNameCollisions | Server/Server.py:50-51 | two sources share a binary folder only if their dashed paths coincide |
| Compile.AsWrittenStripsStem | Server/Server.py:50 | as written, `stem + "c.c"` and `stem + ".c"` both get folder `stem`; the intended names differ |
| Compile.MusicCollidesWithMusi | Server/Server.py:50 | "music.c" and "musi.c" are both built into "musi" as written, and into "music" and "musi" as intended |
| Compile.Command | Server/Server.py:55-57 | the gcc list: with the library available, exactly the eight arguments of Server/Server.py:55 with "-lwallaby" fourth; otherwise the same list without "-lwallaby"; the flag is in the list iff the library is available |
| Compile.FlagNotRepeated | Server/Server.py:55-57 | no other argument can equal "-lwallaby", so `command.index` finds the library flag |
| Compile.DropFlag | Server/Server.py:57 | `del command[command.index("-lwallaby")]` removes exactly the fourth argument |
| Compile.PlanBuild | Server/Server.py:49-57 | a build is planned iff relpath ends in ".c" and the file has a main; its (intended) name plus ".c" is the dashed path; its folder is the binary path plus the name; "-lwallaby" is in the command iff the library is available |
| Control.ActionFor | Wallaby/Wallaby.py:156-157 | only "disconnect", "reboot", "shutdown" and "stop" select an action |
| Control.ActionForInjective | Wallaby/Wallaby.py:156-157 | distinct names never select the same action |
| Control.ProgramCommandDistinct | Wallaby/Wallaby.py:171-172 | two programs of the same folder are started by the same command only if they are the same program |
| Control.Transcript | Wallaby/Wallaby.py:176-180 | a finished program's output: one line message per output line, in order, then its return code |
| Control.TranscriptEndsOnce | Wallaby/Wallaby.py:176-180 | a transcript holds exactly one return code, and it comes last |
| Control.Remaining | Wallaby/Wallaby.py:176-181 | what is still to relay always ends with a return code |
| Control.RemainingEndsWithCode | Wallaby/Wallaby.py:176-180 | when the next output is a return code, it is the only one left |
| Control.RemainingAtStart | Wallaby/Wallaby.py:173-176 | a just-spawned process has its whole transcript to relay |
| Control.Killed | Wallaby/Wallaby.py:184-187 | `stop` marks a running program killed and changes nothing else; with no program the slot stays empty |
| Control.KilledIdempotent | Wallaby/Wallaby.py:184-189 | stopping twice is stopping once |
| Control.WallabyControl.constructor | Wallaby/Wallaby.py:153-158 | no program runs and the socket is open |
| Control.WallabyControl.Stop | Wallaby/Wallaby.py:184-189 | the slot becomes `Killed` of the old slot; the connection is untouched |
| Control.WallabyControl.Disconnect | Wallaby/Wallaby.py:201-203 | stop, then close the socket |
| Control.WallabyControl.Spawn | Wallaby/Wallaby.py:173 | the slot holds the new process with nothing relayed, whatever it held before |
| Control.WallabyControl.Relay | Wallaby/Wallaby.py:176-181 | one relay step sends the first remaining output; a return code empties the slot, and a line leaves the rest to relay |
| Control.WallabyControl.RunProgram | Wallaby/Wallaby.py:170-181 | the outputs are exactly the transcript (lines in order, one return code) and the slot ends empty |
| Control.WallabyControl.Run | Wallaby/Wallaby.py:160-167 | unknown strings, non-"run" mappings and other data change nothing; stop, disconnect, reboot and shutdown act with their side effects in order; a "run" entry relays the program's transcript |
| Presence.Roster | Server/Server.py:125-136 | the roster never lists the requester, and lists only connections whose tag is a requested channel, with that tag |
| Presence.RosterMembership | Server/Server.py:125-136 | a connection is in the roster iff it is tagged with a requested channel and is not the requester; its entry is its own name, address, port and tag |
| Presence.RosterIgnoresOrder | Server/Server.py:131 | only the set of requested channels matters |
| Presence.RosterOfConcat | Server/Server.py:125-136 | the roster of two channel lists is the union of their rosters |
| Presence.ValidChannels | Server/Server.py:110-113 | the filter keeps exactly the valid tags of the request |
| Presence.RosterOfValidChannels | Server/Server.py:110-122 | dropping invalid tags does not change the roster |
| Presence.EditorSeesController | Server/Server.py:125-136 | scenario: an editor asking for controllers sees the controller with tag 2 and not itself |
| Presence.WithChannel | Server/Server.py:139-144 | subscribe: the observer's list gains `c` only, other observers unchanged, lists stay duplicate-free |
| Presence.WithChannelIdempotent | Server/Server.py:139-144 | subscribing twice to a channel equals subscribing once |
| Presence.WithoutChannel | Server/Server.py:147-150 | unsubscribe: removes exactly `c` from that observer only, a no-op when the observer or channel is absent |
| Presence.WithChannelsEffect | Server/Server.py:118-120 | a subscribe request touches only the requester, keeps lists duplicate-free and leaves every requested channel subscribed |
| Presence.Peers.constructor | Server/Server.py:104-105 | no interest lists |
| Presence.Peers.Subscribe | Server/Server.py:139-144 | the new lists are `WithChannel` of the old |
| Presence.Peers.Unsubscribe | Server/Server.py:147-150 | the new lists are `WithoutChannel` of the old |
| Presence.Peers.UnsubscribeAll | Server/Server.py:153-155 | the observer's list is gone and every other list is unchanged |
| Presence.Peers.FilterChannels | Server/Server.py:110-113 | the loop computes `ValidChannels` |
| Presence.Peers.SubscribeEach | Server/Server.py:119-120 | the loop subscribes each channel in turn |
| Presence.Peers.UnsubscribeEach | Server/Server.py:115-116 | the loop unsubscribes each channel in turn |
| Presence.Peers.Run | Server/Server.py:107-122 | "subscribe" then "unsubscribe" change the lists; "subscribe" and "channels" each reply with the roster of that request's valid channels; "unsubscribe" replies nothing |
| Presence.Peers.Rosters | Server/Server.py:162-166 | every reachable observer is sent its own roster exactly once, nobody else is sent anything, and the failed ones are collected |
| Presence.Peers.PushChanges | Server/Server.py:158-168 | as `Rosters`, and afterwards exactly the unreachable observers have lost their lists; all other lists are unchanged |
| Presence.TagAsWritten | Server/Server.py:77-79 | as written, the connection joins the new channel; every other channel, its old one included, is unchanged |
| Presence.Tag | Server/Server.py:77-79 | as intended, the connection joins the new channel and leaves its previous one; other channels are unchanged |
| Presence.Identified | Server/Server.py:76-87 | the tag changes only to the requested channel, and only when it is one of {1, 2, 3}; a valid requested channel is always taken, so a valid tag stays valid; a given name always replaces the old one and the name changes only to a given one; address and port are kept |
| Presence.TagKeepsRegistered | Server/Server.py:77-79 | the intended re-tag keeps each channel's members equal to the connections tagged with it |
| Presence.TagAsWrittenBreaksRegistry | Server/Server.py:77-79 | as written, a controller that re-identifies as an editor is still a member of the controller channel |
| Presence.Retagged | Server/Server.py:76-79 | the registry after `subscribe`: only the connection moves, into the requested channel when it is valid; an invalid or missing channel changes nothing; the registry keeps agreeing with the tags |
| Presence.IdentifiedKeepsTagged | Server/Server.py:76-87 | a `subscribe` message keeps the registry equal to the tags, and all tags valid |
| Presence.Untagged | Server/Server.py:185-186 | a closing connection leaves its channel and nobody else moves; the registry then agrees with the remaining connections' tags and holds the closed connection in no channel |
| Presence.UntaggedKeepsTagged | Server/Server.py:184-186 | closing keeps the registry equal to the remaining tags |
| Presence.Relay.constructor | Server/Server.py:216-219 | one empty Broadcast channel per tag, no connections, no interest lists |
| Presence.Relay.Setup | Server/Server.py:172-176 | a new connection starts as "Unknown" with no tag |
| Presence.Relay.SubscribeRun | Server/Server.py:74-88 | non-mappings change nothing; a mapping sets the tag and name as `Identified`, re-tags the registry as intended, and pushes rosters exactly once |
| Presence.Relay.Closed | Server/Server.py:184-189 | the connection leaves its channel and the table; rosters are pushed; only unreachable observers lose their lists |
| Sensors.ValidPort | Wallaby/Wallaby.py:114-120 | a valid port has one of the two modes and lies within 0-9 |
| Sensors.Subscribed | Wallaby/Wallaby.py:62-68 | after subscribing, the port is required and the connection is registered with the port listed under the mode |
| Sensors.Dropped | Wallaby/Wallaby.py:72-74 | removing the connection's listing keeps the registered connections, and every other connection's lists |
| Sensors.UnsubscribedAsWritten | Wallaby/Wallaby.py:71-81 | as written: the listing is dropped and the required lists are kept; the call raises iff, before it, no other connection listed the port and the caller listed it at most once |
| Sensors.DroppedUnlisted | Wallaby/Wallaby.py:72-76 | after the removal nobody lists the port iff no other connection listed it and the caller listed it at most once |
| Sensors.UnsubscribedAsWrittenEffect | Wallaby/Wallaby.py:71-81 | as written, a call that does not raise agrees with the intended one; one that raises for a required port leaves a registry that breaks the invariant |
| Sensors.Unsubscribed | Wallaby/Wallaby.py:71-81 | (intended) a successful unsubscribe leaves the listings `Dropped` and both modes in the required lists |
| Sensors.Empty | Wallaby/Wallaby.py:39-41 | the initial registry satisfies the invariant |
| Sensors.SubscribeEffect | Wallaby/Wallaby.py:62-68 | subscribe keeps the invariant, makes the port required exactly as a set member, gives the connection one more occurrence of it, and changes nothing else |
| Sensors.SubscribeFrame | Wallaby/Wallaby.py:62-68 | the frame part of `SubscribeEffect`: which parts of the registry change and how |
| Sensors.SubscribeKeepsInv | Wallaby/Wallaby.py:62-68 | subscribe keeps: both modes present, required lists duplicate-free, a port required iff some connection lists it |
| Sensors.SubscribedListings | Wallaby/Wallaby.py:62-68 | after subscribing, a (mode, port) is listed iff it was listed before or is the new one |
| Sensors.SubscribedGains | Wallaby/Wallaby.py:62-68 | no listing is lost, and the new one is present |
| Sensors.SubscribedAddsOnlyPort | Wallaby/Wallaby.py:62-68 | no listing other than the new one appears |
| Sensors.UnsubscribeEffect | Wallaby/Wallaby.py:71-81 | (intended) fails iff the port was never required; otherwise keeps the invariant, removes one occurrence from the connection's list, and stops reading the port iff nobody lists it any more; nothing else changes |
| Sensors.DroppedListings | Wallaby/Wallaby.py:72-74 | removing one listing adds none and keeps every other listing |
| Sensors.DroppedAddsNone | Wallaby/Wallaby.py:72-74 | nothing becomes listed by a removal |
| Sensors.DroppedKeepsOthers | Wallaby/Wallaby.py:72-74 | every listing except the removed (mode, port) survives |
| Sensors.UnsubscribedRaises | Wallaby/Wallaby.py:80-81 | the `del … index(port)` raises iff the port was not required |
| Sensors.UnsubscribedKeepsInv | Wallaby/Wallaby.py:71-81 | a successful unsubscribe keeps the invariant |
| Sensors.StillListedKeepsInv | Wallaby/Wallaby.py:75-80 | when some connection still lists the port, keeping the required lists keeps the invariant |
| Sensors.ReleasedKeepsInv | Wallaby/Wallaby.py:80-81 | when nobody lists the port, removing it from the required list keeps the invariant |
| Sensors.UnsubscribedFrame | Wallaby/Wallaby.py:71-81 | the frame part of `UnsubscribeEffect` |
| Sensors.DroppedPeers | Wallaby/Wallaby.py:72-74 | only the connection's list for that mode changes, by one occurrence of the port at most |
| Sensors.UnsubscribedRequired | Wallaby/Wallaby.py:75-81 | the port stays required iff it is still listed; other ports and the other mode are unchanged |
| Sensors.LastUnsubscribeRaises | Wallaby/Wallaby.py:75-80 | the sole subscriber of analog port 3 unsubscribes: as written this raises and leaves port 3 read for nobody, breaking the invariant; as intended port 3 stops being read |
| Sensors.ResponseContents | Wallaby/Wallaby.py:106-110 | a connection's message has exactly the keys "analog" and "digital", holds exactly its listed ports, and each value is this round's reading |
| Sensors.ListingsAreRead | Wallaby/Wallaby.py:104-110 | under the invariant every listed port has a reading this round, so the fetcher's lookup cannot fail |
| Sensors.SensorReadout.constructor | Wallaby/Wallaby.py:36-58 | an empty registry; random readings unless on a controller with its library |
| Sensors.SensorReadout.Subscribe | Wallaby/Wallaby.py:62-68 | the new registry is `Subscribed` of the old, and the invariant holds |
| Sensors.SensorReadout.Unsubscribe | Wallaby/Wallaby.py:71-81 | the new registry is `Unsubscribed` of the old, or unchanged when the call raises |
| Sensors.SensorReadout.ReadSensor | Wallaby/Wallaby.py:84-95 | a random reading is within 0-4095 (analog) or 0-1 (digital); a real one is the library's value |
| Sensors.SensorReadout.ReadMode | Wallaby/Wallaby.py:103-105 | exactly the required ports of the mode are read, each plausibly |
| Sensors.SensorReadout.CollectReadings | Wallaby/Wallaby.py:109-110 | the loop collects `Readings` of the listed ports |
| Sensors.SensorReadout.BuildResponse | Wallaby/Wallaby.py:107-110 | the loop builds `Response` |
| Sensors.SensorReadout.PipeAll | Wallaby/Wallaby.py:106-111 | every registered connection gets exactly one message, its own response, and nobody else gets one |
| Sensors.SensorReadout.Tick | Wallaby/Wallaby.py:99-111 | one round reads exactly the required ports, each plausibly, and every listed port is covered; then every connection gets its own message exactly once |
| Sensors.Ports | Wallaby/Wallaby.py:135-141 | the ports that reach the registry are exactly the integer elements valid for the mode |
| Sensors.Tagged | Wallaby/Wallaby.py:142-145 | each port becomes one update of that event and mode |
| Sensors.EventRequests | Wallaby/Wallaby.py:132-145 | every update of an event carries a valid port |
| Sensors.Requests | Wallaby/Wallaby.py:129-145 | every update of a message carries a valid port |
| Sensors.RequestsExactly | Wallaby/Wallaby.py:129-145 | an update is made iff the data is a mapping and lists that integer port, valid for its mode, under that event and mode name; all subscriptions come before any unsubscription |
| Sensors.EventRequestsExactly | Wallaby/Wallaby.py:133-141 | one event's updates are exactly its valid integer ports, tagged with the event |
| Sensors.EventRequestsTagged | Wallaby/Wallaby.py:142-145 | every update of an event is tagged with it |
| Sensors.RequestsOrdered | Wallaby/Wallaby.py:131 | "subscribe" updates precede "unsubscribe" updates |
| Sensors.Step | Wallaby/Wallaby.py:142-145 | one update keeps the invariant, and a raising one changes nothing |
| Sensors.ApplyAll | Wallaby/Wallaby.py:129-145 | updates applied in order keep the invariant |
| Sensors.SubscriptionsNeverRaise | Wallaby/Wallaby.py:142-143 | a message without unsubscriptions never raises |
| Sensors.RaisedStays | Wallaby/Wallaby.py:129-145 | once an update raised, the later updates are skipped |
| Sensors.Sensor.constructor | Wallaby/Wallaby.py:147-148 | the pipe starts with an empty registry |
| Sensors.Sensor.Run | Wallaby/Wallaby.py:129-145 | the registry after the call, and whether it raised, are `ApplyAll` of the message's updates |
| Sync.ListNode | Shared/Sync.py:16-21 | every path listed below an entry starts with that entry's name, which is not excluded |
| Sync.ListItems | Shared/Sync.py:12-22 | every listed path has at least one component, and its first one is not excluded |
| Sync.RelativeLs | Shared/Sync.py:12-22 | one relative path string per listed file |
| Sync.ListNodeExact | Shared/Sync.py:16-21 | below one entry, a path is listed iff it leads to a file and avoids every excluded name |
| Sync.ListItemsExact | Shared/Sync.py:12-22 | the listing holds exactly the files whose path has no excluded component |
| Sync.ListItemsNoDup | Shared/Sync.py:12-22 | each file is listed once |
| Sync.RelativeLsExact | Shared/Sync.py:12-22 | a relative path string is listed iff its components lead to a file and none is excluded |
| Sync.RelativeLsNoDup | Shared/Sync.py:12-22 | the listed relative paths are distinct |
| Sync.Basename | Shared/Sync.py:30 | `os.path.basename`: the longest slash-free tail of the path |
| Sync.NameFromPath | Shared/Sync.py:29-34 | the basename, or None exactly when the path is empty or ends with '/' |
| Sync.Forwards | Shared/Sync.py:46-57 | events for directories and events whose basename is excluded are never forwarded |
| Sync.ForwardsExact | Shared/Sync.py:46-57 | an event is forwarded iff it is not for a directory and its basename is empty or not excluded |
| Sync.ListedFileForwarded | Shared/Sync.py:46-57 | events for every listed file pass the filter |
| Sync.Slashed | Shared/Sync.py:63 | the folder ends with '/' and gains at most that one character |
| Sync.AddOf | Shared/Sync.py:111 | an "add" for one file makes the receiver write exactly that path, with that content and mtime |
| Sync.Brackets | Shared/Sync.py:98-107 | after add/del brackets, the suppression list stays duplicate-free and holds exactly the old paths that were not bracketed |
| Sync.BracketsRestore | Shared/Sync.py:98-107 | brackets around paths that were not suppressed leave the suppression list exactly as it was |
| Sync.Served | Shared/Sync.py:108-111 | every answer to a "req" is a single-file "add" of a requested and known path, read from that path |
| Sync.ServedAll | Shared/Sync.py:108-111 | every requested known path is answered |
| Sync.Decide | Shared/Sync.py:167-174 | req iff mtime ≥ last stop; nothing iff older and the local hash is equal; del iff older and absent here or the hash differs |
| Sync.Reconciled | Shared/Sync.py:164-174 | at most one reply per listed entry |
| Sync.UnchangedNeverDeleted | Shared/Sync.py:167-174 | a file the responder holds with the content the client listed is never deleted |
| Sync.ReconciledAnswers | Shared/Sync.py:164-174 | every reply to a "list" answers one of its entries |
| Sync.ReconciledCovers | Shared/Sync.py:164-174 | every entry's reply is sent |
| Sync.ReconciledExact | Shared/Sync.py:164-174 | a message is a reply iff it is the reply for one of the entries |
| Sync.ReconciledSends | Shared/Sync.py:164-174 | "del [p]" is sent iff some entry for p is older than the last stop and absent here or different; "req [p]" iff some entry for p is at least as new |
| Sync.SyncClient.constructor | Shared/Sync.py:61-68 | the folder ends in '/', not started, the known files are the folder's listing, nothing suppressed |
| Sync.SyncClient.Start | Shared/Sync.py:74-80 | a "list" with exactly one entry per known file, its mtime and digest; then started |
| Sync.SyncClient.Stop | Shared/Sync.py:82-83 | not started; nothing else changes |
| Sync.SyncClient.Suppress | Shared/Sync.py:86-88 | the list becomes `AppendIfAbsent` of the old and stays duplicate-free |
| Sync.SyncClient.Unsuppress | Shared/Sync.py:91-93 | the path is no longer suppressed and every other path keeps its state |
| Sync.SyncClient.Receive | Shared/Sync.py:98-103 | the writes of the "add" in order, each bracketed, leaving `Brackets` of the old list |
| Sync.SyncClient.Discard | Shared/Sync.py:104-107 | the removals of the "del" in order, each bracketed, leaving `Brackets` of the old list |
| Sync.SyncClient.Serve | Shared/Sync.py:108-111 | the answers are `Served` |
| Sync.SyncClient.Run | Shared/Sync.py:96-111 | "add" over "del" over "req"; non-mappings and mappings without these keys change nothing |
| Sync.SyncClient.Modified | Shared/Sync.py:114-120 | once started the file becomes known; an "add" is sent iff started and not suppressed |
| Sync.SyncClient.Created | Shared/Sync.py:123-124 | as `Modified` |
| Sync.SyncClient.Deleted | Shared/Sync.py:127-133 | once started the file is no longer known; a "del" is sent iff started and not suppressed |
| Sync.SyncClient.OnModified | Shared/Sync.py:45-47 | filtered events change nothing; the others act as `Modified` |
| Sync.SyncClient.OnCreated | Shared/Sync.py:50-52 | filtered events change nothing; the others act as `Created` |
| Sync.SyncClient.OnDeleted | Shared/Sync.py:55-57 | filtered events change nothing; the others act as `Deleted` |
| Sync.SyncServer.constructor | Shared/Sync.py:137-141 | the folder ends in '/', the known files are the folder's listing, nothing suppressed |
| Sync.SyncServer.Suppress | Shared/Sync.py:152-154 | as the client's |
| Sync.SyncServer.Unsuppress | Shared/Sync.py:157-159 | as the client's |
| Sync.SyncServer.Reconcile | Shared/Sync.py:164-174 | the loop sends `Reconciled` of the listed entries |
| Sync.SyncServer.Receive | Shared/Sync.py:175-180 | as the client's "add" |
| Sync.SyncServer.Discard | Shared/Sync.py:181-184 | as the client's "del" |
| Sync.SyncServer.Run | Shared/Sync.py:162-184 | "list" over "add" over "del"; anything else changes nothing |
| Sync.SyncServer.Modified | Shared/Sync.py:187-194 | the file becomes known; an "add" is broadcast iff the path is not suppressed |
| Sync.SyncServer.Created | Shared/Sync.py:197-198 | as `Modified` |
| Sync.SyncServer.Deleted | Shared/Sync.py:201-206 | the file is no longer known; a "del" is broadcast iff the path is not suppressed |

## Left out

- Sublime/fl0w/fl0w.py is not part of this model: it is editor UI and a socket receive thread.
- Transport and start-up:
  - the Highway connection classes, the WebSocket server and the route table (Server/Server.py:224-254);
  - the controller's `Handler` (Wallaby/Wallaby.py:226-256);
  - the `info`, `whoami`, `hostname` and `processes` routes and the controller's `Subscribe.start`.
  These are I/O only.
- Configuration loading and `folder_validator` (Server/Server.py:192-213): file-system side effects.
- `Compile`'s I/O:
  - `Compile.__init__`: its `abspath` and library checks become the inputs `sourcePath`, `binaryPath` and `libraryAvailable`;
  - `mkdir`, `Popen`, `communicate` and the reply of `compile`.
  These are process and file-system effects.
- The regular-expression scan `is_valid_c_program` is the input `hasMain`.
- Logging, and the `print` calls of Shared/Sync.py:78 and 166: output only.
- Concurrency:
  - the whole fetcher loop with its sleep; `Tick` is one round;
  - the threads started by `WallabyControl.run` and `SensorReadout.__init__`;
  - the watchdog observers, whose events become sequential method calls;
  - interleavings of these.
- Compile.PlanBuild: plans with the intended name `BinaryName`. The code's folder is `BinaryNameAsWritten` (see the first row of "Findings"): for "music.c" the code builds into "musi", the model into "music".
- Control.WallabyControl.Run: a "run" entry is executed as a sequential call. As written it names `_thread`, which the module never imports, and raises NameError.
- Control: the OS effects of reboot and shutdown, and closing the socket, are returned as `Effect` values. A killed program reports the code -9 and its unread output is dropped.
- Sensors.SensorReadout.ReadSensor: a random reading is any value in range, not a uniform draw, and a real one is the abstract `hardware` function. The ctypes library is not modelled.
- Sensors.SensorReadout.constructor: with real readings, the code as written raises NameError at Wallaby/Wallaby.py:55, because `cdll` is used but ctypes is never imported. The model loads the library and reads real values, as evidently intended.
- Sensors.SensorReadout.CollectReadings: skips a port without a reading, where the fetcher would raise KeyError. `Tick` and `Sensors.ListingsAreRead` show that no such port exists under the registry's invariant.
- Message shapes are datatypes:
  - a malformed inner value is not modelled, for example a "subscribe" whose value is neither a list nor a mapping;
  - for the `subscribe`, `sensor`, `wallaby_control` and sync routes, the outer shape (mapping or not, which keys are present) is modelled.
- Sends other than the roster pushes of `push_changes` are assumed to succeed. The `unreachable` parameter models a failed send only inside `push_changes` (Server/Server.py:162-166), the one place the code catches the failure.
- Presence.Peers.Run: the roster reply `handler.send` (Server/Server.py:136) is assumed to succeed. A failed send raises out of `run`, so the later events of the same request are skipped: `{"subscribe": [1], "unsubscribe": [2]}` subscribes 1 and never unsubscribes 2. The model always applies every event.
- Sync.SyncClient.Start: the send of the "list" (Shared/Sync.py:79) is assumed to succeed. A failed send leaves `started` False, where the model sets it.
- Presence.Peers.Run: only mapping requests are modelled. `Peers.run` (Server/Server.py:107-109) does not check the type of its data. So a non-mapping either raises TypeError (a number, or a list holding one of the keys) or is silently ignored; the model has no such case.
- Presence.Pushed and Sensors.Delivered: the order in which dictionary iteration visits observers is not fixed. The model proves the result for any order.
- Presence.Relay.Closed: the transport, not Server/Server.py, removes the connection from the table. The model does the removal in `Closed` so that the pushed rosters no longer show it.
- The Broadcast class is not part of this model. Its registry is a map from channel tag to a set of connections.
- File I/O, MD5 and base64 are the abstract inputs `disk` and `digest`. Writes and removals are returned as `FsOp` values. The mtime carried by `Write` is the modification time the code evidently means to set with `os.utime`. Modification times are integers, because the code only compares them.
- Sync.SyncClient.Serve, Sync.SyncServer.Reconcile and Sync.LocalDigest read or hash each file at the path as given, as the code does (`get_file_content(file)` at Shared/Sync.py:111, `md5(file)` at Shared/Sync.py:169). Reading via the synced folder is not modelled.
- `os.path.relpath`:
  - watchdog events carry the relative path directly, and the source path is the folder followed by it;
  - `relative_recursive_ls` is modelled only with `relative_to` equal to the listed folder, as both callers use it;
  - path normalisation is not modelled.
- The directory tree is an input satisfying `Sync.Tree`: distinct, slash-free, non-empty entry names. A real file system guarantees this.
- Sync.SyncClient.constructor and Sync.SyncServer.constructor require a non-empty folder name: `folder[-1]` raises IndexError on an empty one. Starting the watchdog observer is not modelled.
- `SyncServer.start` (Shared/Sync.py:145-149) is not modelled: it names the unbound `folder` and raises NameError before it attaches its event handler. The server-side `ReloadHandler` is therefore never attached.
- Modelled as intended; each defect is noted in a comment:
  - Sync.SyncClient.Receive and Sync.SyncServer.Receive: `os.utime(file, mtime)` (Shared/Sync.py:102 and 179) passes a bare number where a pair of times is required, so it raises TypeError right after the first file is written, leaving that path suppressed. The unsuppress after it calls the undefined `unsupress_fs_event`. On the server, `.decode()` on the received content (Shared/Sync.py:178) may already raise earlier, depending on the type the transport delivers;
  - Sync.SyncClient.Discard and Sync.SyncServer.Discard: the "del" branches use an unbound `file` and raise NameError;
  - Sync.AddOf: the outgoing "add" messages of Shared/Sync.py:111 and 120 lack the path key;
  - Sync.SyncClient.Serve: `base64.b64encode(...).encode()` (Shared/Sync.py:111) calls `.encode()` on bytes, which raises AttributeError, so as written no "req" is ever answered;
  - Sync.SyncClient.Modified (and Sync.SyncClient.Created through it): the same `.encode()` (Shared/Sync.py:120) raises AttributeError after the file is remembered, so as written no "add" is sent;
  - Sync.SyncServer.Modified and Sync.SyncServer.Deleted: they name the unbound `handler` and `channel`, and return the message they evidently mean to broadcast.
- A suppressed path's watchdog event arriving between a suppress and an unsuppress is not modelled: events are sequential calls between messages.

## Findings

| source | as written | input that shows it | evidently intended | confidence | as-written member | corrected member |
|---|---|---|---|---|---|---|
| Server/Server.py:50 | `rstrip(".c")` strips every trailing '.' and 'c' character, not the ".c" extension | sources "music.c" and "musi.c" are both built into the folder "musi" | strip the extension only, giving "music" and "musi" | high; not executed | Compile.MusicCollidesWithMusi | Compile.BinaryName |
| Wallaby/Wallaby.py:75-80 | the flag is assigned as `readout_still_required` but read as `readout_required` | the only connection listing analog port 3 unsubscribes from it: the read raises UnboundLocalError | the port stops being read once nobody lists it | high; not executed | Sensors.LastUnsubscribeRaises | Sensors.UnsubscribeEffect |
| Server/Server.py:77-79 | re-tagging adds the connection to the new Broadcast channel without removing it from the old one | a controller (tag 2) sends `{"channel": 1}` and is then in both channels | leave the old channel, join the new one | medium (Broadcast's code is not part of this model); not executed | Presence.TagAsWrittenBreaksRegistry | Presence.TagKeepsRegistered |
