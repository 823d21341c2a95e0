# A verified model of the chat server

The server keeps client sessions that outlive their connections, rooms with members, and a presence
protocol that tells every member who is in the room. All events run on one thread, so the model is a
state machine whose steps are the event handlers: a connection is opened, brings a packet, is closed or
fails, the timer ticks, or the process saves its rooms and restarts. Between steps the unordered
containers may change their iteration order, which is a step of its own.

What is proved holds in every state of every run:

* every connected member can rebuild the exact roster of its room from what it was sent;
* the client list, the connection index, the token index and the counters per address agree, so the
  limits hold, and no run ever meets a situation the code logs as impossible; the condition on the
  limits under which this is so is exact;
* clients and rooms refer to each other consistently, nicks and member ids are unique, a member is an
  orphan exactly when its client has no connection;
* a revive hands a session over completely, a reconnect restores it, leaving and joining a room restores
  nick and looks, and a connection that has lost its session never touches the server again;
* histories are the tail of an unbounded log, and survive a restart;
* every broadcast reaches every connected member once; nobody sends more than the limiter allows;
  nobody stays silent for longer than the sweep allows;
* a room's rules change, and others are thrown out of it, only by somebody with the right; nobody enters a
  room while banned there;
* every packet and every command has exactly its effect: for each, the new rooms, sessions and log and the
  packets in every outbox are given over the fields of the state before, refusals included;
* a message text is clean UTF-8 once its packet has been read.

## How it is built

* `Types`, `Json`: the records, packets and JSON values.
* `RateLimit`, `Members`, `MemberIds`, `Presence`, `History`, `Persistence`, `Utf8`, `Sanitizing`: one
  part of the server each, with its own laws.
* `Chat`: the state machine. Client and room objects live in stores indexed by their address. `alarms`
  collects every situation the code logs as impossible or relies on never meeting; `log` keeps every
  public message ever sent; `out` is everything ever sent per connection.
* `Delivery`, `World`, `RoomSteps`, `RoomEntries`, `WorldSteps`, `PacketSteps`: the invariant over rooms,
  links and views, and why every change of a room keeps it.
* `Registry`, `Sessions`, `Revive`: the invariant of the clients manager, and orphaning, removing,
  connecting and reviving on the whole state.
* `Invariant`, `Runs`: every event keeps the whole invariant, hence every run does.
* `Rights`: who owns, moderates and is banned from a room, over its fields. `Effects`: what a step does to
  outboxes and sessions.
* `Commands`, `Packets`, `Joining`, `Removals`, `Outcomes`, `Notices`, `Replays`, `Pings`: event by event,
  what a step does. These results are stated over fields, accounts and outboxes, not through the functions
  of `Chat` that they are about.
* `Theorems`, `Opening`, `Limits`, `Transfers`, `Reviving`, `Lifecycle`, `Rates`, `Talking`,
  `Authority`, `Rejoining`: the results.
* `Lookups`, `Storage`, `Service`: the handlers as code that updates the fields of a server object step
  by step, with the loops of the original, each proved to do what its function in `Chat` says. `Handle`
  ties one event to one step.

The proofs use `hide` statements to keep definitions closed where they are not needed.

Assumptions on the environment, all in `Chat.Valid` and `Invariant.GoodConfig`: the clock does not run
backwards, a connection is opened once and its address is fixed, a generated token is not in use, fewer
than 2^32 - 2 clients are alive when a connection is opened, and at least one connection, and at least as
many clients as connections, are allowed per address (`Limits` says what happens otherwise).

## Model

| member | source | states |
|---|---|---|
| `Theorems.RosterReplicated` | packets.cpp:241-252 | In every reachable state, for every connected member of a room, the fold of everything sent on its connection (last online list, then status packets) equals what a fresh online list of the room would give, and is exactly the room's nicked members by id with nick, status, girl and color |
| `Theorems.MembersDistinct` | rooms.cpp:173-218 | In every reachable state the member ids of a room are non-zero 32-bit numbers, and ids, clients and set nicks are pairwise distinct |
| `Theorems.StatusTracksConnection` | client.cpp:42-75 | A member's client exists, its status is online, away or orphan, and it is orphan if and only if the client has no connection |
| `Theorems.MembershipAgrees` | client.cpp:105-121 | A client lists a room without duplicates, has exactly one member in it if it lists it and none otherwise, and a listed room is registered and its client alive |
| `Theorems.MemberIsFound` | rooms.cpp:190-198 | The lookup of a client's member in one of its rooms never yields null |
| `Theorems.NothingDangles` | rooms.cpp:92-99 | Every member's client is alive and lists the room; a room that is no longer registered has no members and is listed by no client |
| `Theorems.NamesUnique` | server.cpp:152-187 | Registered rooms have distinct names, through creation, removal and restart |
| `Theorems.HistoryRefinesLog` | rooms.cpp:180-188 | A room's history is the last maxHistory messages of its unbounded public log, ids consecutive modulo 2^32 and ending just before nextMessageId, nothing private in it, also across saves and restarts |
| `Theorems.NoAlarm` | server.cpp:49-57 | With at least as many clients as connections allowed per address no run dereferences a null member, clamps a counter, misses an orphan, refuses a revive, revives onto the same connection or runs out of member ids |
| `Theorems.CapsHold` | server.hpp:27-28 | No address ever has more connected or live clients than its limits, revives included |
| `Theorems.CountersExact` | src/clients_manager.hpp:150-160 | The counters of an address equal its connected and its live clients, and exactly the addresses with a live client have an entry |
| `Theorems.IndexesAgree` | src/clients_manager.hpp:23-69 | The client list is in order of creation without duplicates; the connection and the token index hold exactly the pairs of live clients |
| `Theorems.DiscardedIsBare` | client.cpp:77-86 | A client off the list has no connection and no rooms |
| `Theorems.ExactlyOnce` | rooms.cpp:297-302 | A broadcast appends the packet exactly once to the outbox of every connected member of the room and to no other |
| `Theorems.BannedNickIsGone` | commands/command_ban.hpp:66-71 | After a nick is newly banned nobody holds it, exactly its holder is gone from the room, and in every other case nothing changes |
| `Opening.OpenOutcome` | server.cpp:33-60 | An opened connection is refused without effect at the connection limit, admitted plainly below the client limit, and otherwise admitted after removing the earliest created orphan of the address from the list and from every room |
| `Opening.FindOrphanEarliest` | src/clients_manager.hpp:39-47 | The first match in the list is the earliest created orphan of the address |
| `Opening.MakeSpaceIs` | server.cpp:46-57 | By counting, an orphan exists whenever an address has more clients than connections; it is the one removed, and it leaves every room |
| `Limits.EvictionExact` | server.cpp:53-57 | For all signed 32-bit limits: no run fails to find an orphan if and only if no connection is allowed at all or maxClientsFromIp >= maxConnectionsFromIp |
| `Limits.StuckRun` | server.cpp:53-57 | When fewer clients than connections are allowed there is a run, built for every such pair of limits, in which no orphan is found |
| `Invariant.OrphanExists` | server.cpp:46-57 | Fewer connected than live clients at an address implies an orphan of it in the list |
| `Reviving.ReviveTransfer` | src/clients_manager.hpp:113-135 | A revive gives the target the connection and keeps its rooms, token, name and looks; the discarded client leaves every room and the list; the target's members are online and otherwise the same; one client less is alive and one connection less is mapped if and only if the target was connected; the counters stay exact |
| `Reviving.MovedCounts` | src/clients_manager.hpp:122-131 | Sizes of the list and the connection index after a revive; the superseded connection is out of the index |
| `Lifecycle.ReconnectRestores` | packets.cpp:329-348 | A broken connection, a new one and the old token restore the session: same rooms, name, looks and token, every other client and every room as before, the member online |
| `Lifecycle.FailOutcome` | server.cpp:74-80 | An error on a live connection only takes the connection away from its client and turns its members into orphans |
| `Lifecycle.StaleIsHarmless` | server.cpp:20-31 | Once a connection is out of the index, in every continuation a message, close or error on it changes nothing but the clock |
| `Lifecycle.LosingMakesStale` | src/clients_manager.hpp:80-96 | A connection that no live client has after an event is out of the index |
| `Lifecycle.SilenceBound` | server.cpp:82-110 | If sweeps are at most P seconds apart, at every moment a live client has been silent at most 300 + P seconds and a connected one at most 150 + P |
| `Lifecycle.SweepExact` | server.cpp:82-110 | A sweep removes exactly the clients silent for more than 300 seconds, takes the connection from exactly those silent for more than 150, and leaves every other session alone |
| `Lifecycle.RestartRestores` | server.cpp:122-141 | After saving and loading, for any iteration order, the same rooms with the same owner, name, message counter, history, infos, bans and moderators are registered under distinct names, empty |
| `Talking.MessageDelivered` | packets.cpp:133-155 | A message that passes the limiter reaches every connected member's outbox exactly once and no other outbox, takes the next message id, extends the log by one and leaves every other room alone |
| `Talking.MessageStopped` | packets.cpp:115-131 | A message stopped by the limiter, or blank, changes no room and no log; its sender gets one system packet |
| `Authority.RulesChangeByRight` | packets.cpp:200-233 | Over every event but a restart, a room's name, owner, bans and moderators change only by a message of a member whose account is 1 or 2, the room's owner or among its moderators; its moderators only by 1, 2 or the owner |
| `Authority.ExpelledByRight` | rooms.cpp:276-295 | A client that stays alive loses its member in a room only by its own packet or by one of account 1 or 2, the room's owner or one of its moderators |
| `Authority.EntryByRight` | rooms.cpp:224-246 | A client gets a member in a room only by its own packet, and only if its address is not in bannedIps and its account not in bannedUids, or its account is 1 or 2, the owner or a moderator |
| `Authority.RoomsByRight` | server.cpp:16-110 | Every event either leaves a room's rules and the members of live clients alone, or is a packet whose sender had the right, as spelled out over the fields |
| `Authority.SayRightful` | packets.cpp:200-233 | A message or command does to any room only what its sender, by account, ownership and moderator list, has the right to |
| `Authority.OnJoinRightful` | packets.cpp:545-623 | A join lets nobody in but its sender, and nobody whose address or account is banned unless it has a moderator's right |
| `Authority.ModerEffect` | commands/command_ban.hpp:49-75 | A moderator's command touches no other room and no moderator, and lets nobody in |
| `Rejoining.RejoinRestores` | rooms.cpp:262-274 | A known user with a nick that leaves a room and joins it again with auto-login, not banned, has its nick, gender and color back under some id, online, and every other member is as before |
| `Rejoining.NickIsFree` | rooms.cpp:248-260 | Nobody holds the nick of a member that left |
| `Talking.PrivateStaysPrivate` | commands/command_private_message.hpp:34-43 | A private message is appended once for its sender and once for its addressee to their outboxes and to no other; it is addressed to a non-zero id, so no history takes it; which member a command addresses is Commands.PrivateDone and PrivateByIdDone |
| `Commands.Obeyed` | packets.cpp:200-233 | A command is carried out if and only if its sender has what it asks for, spelled out over the fields: id 1 or 2, the room's owner, its moderators, a nick, an account; otherwise it is only answered |
| `Commands.CommandRefused` | packets.cpp:217-230 | A command its sender is not entitled to changes no room and no log; the sender gets one system packet |
| `Commands.ModerationRefused` | packets.cpp:219-230 | Kick, ban and unban commands of anybody who is not account 1 or 2, nor the owner, nor among the moderators of the room, are only answered |
| `Commands.OwnershipRefused` | packets.cpp:218-230 | Moderator commands of anybody who is neither account 1 or 2 nor the owner are only answered |
| `Commands.ListingAnswers` | packets.cpp:227-230 | Help, lists and unknown commands change no room and no log and give the sender one system packet |
| `Commands.BanUidDone` | commands/command_ban.hpp:86-113 | From a sender with the right, the account is in bannedUids afterwards and nothing else in the room changes; refused without a number, and over 100 bans by anybody but account 1 or 2; one answer |
| `Commands.BanIpDone` | commands/command_ban.hpp:122-149 | The same for an address and bannedIps |
| `Commands.UnbanNickDone` | commands/command_ban.hpp:158-177 | The nick is out of bannedNicks afterwards unless it is empty or longer than 24; one answer |
| `Commands.UnbanUidDone` | commands/command_ban.hpp:186-208 | The account is out of bannedUids afterwards; without a number nothing changes; one answer |
| `Commands.UnbanIpDone` | commands/command_ban.hpp:217-239 | The address is out of bannedIps afterwards; without an address nothing changes; one answer |
| `Commands.AddModerDone` | commands/command_moder.hpp:13-43 | From the owner or account 1 or 2, the account is among the moderators afterwards; refused for account 0, without a number, and over 10 moderators by anybody but account 1 or 2; one answer |
| `Commands.DelModerDone` | commands/command_moder.hpp:52-74 | The account is no moderator afterwards; without a number nothing changes; one answer |
| `Commands.KickDone` | commands/command_kick.hpp:14-24 | Exactly the member with that nick is gone, its client has lost exactly this room; every listener hears the offline notice, the kicked one as well, which then gets the leave packet |
| `Commands.KickMisses` | commands/command_kick.hpp:14-24 | A nick nobody holds: the sender gets one system packet and no room changes |
| `Commands.BanNickAlone` | commands/command_ban.hpp:49-77 | A nick nobody holds is in bannedNicks afterwards; over the limit, empty, longer than 24 or banned already, nothing changes; one answer |
| `Commands.BanNickKicks` | commands/command_ban.hpp:66-71 | A nick that a member holds: it is banned, exactly that member is kicked as by /kick, and the sender is answered |
| `Commands.NickDone` | rooms.cpp:39-70 | A legal nick nobody holds, and not banned unless the sender has the right of a moderator, becomes the member's nick; all are told it is online, has a new nick, or is offline when the nick is dropped, once each |
| `Commands.NickRefused` | rooms.cpp:39-49 | A malformed, taken or banned nick changes no room; the sender gets one system packet |
| `Commands.NickIdle` | rooms.cpp:39-43 | Dropping a nick one does not have changes nothing and answers nothing |
| `Commands.GenderDone` | commands/command_gender.hpp:13-37 | The member has the given gender, else the opposite one; all listeners are told if it has a nick, else only itself |
| `Commands.ColorDone` | commands/command_color.hpp:13-37 | The member has the given color; all listeners are told if it has a nick, else only itself |
| `Commands.ColorRefused` | commands/command_color.hpp:13-37 | Without a color nothing changes; one answer |
| `Commands.PlainSpreads` | packets.cpp:142-154 | A plain text of a member with a nick enters log and history under the next id and goes to every listening outbox once |
| `Commands.PlainNeedsNick` | packets.cpp:146-150 | A plain text of a member without a nick goes nowhere; one answer |
| `Commands.StyledSpreads` | commands/command_styled_message.hpp:17-30 | A styled text is published in its own style, a blank one only answered |
| `Commands.PrivateDone` | commands/command_private_message.hpp:13-43 | The member that holds the nick and the sender get the message once each, addressed to that member's id; no other outbox grows, no room and no log changes |
| `Commands.PrivateRefused` | commands/command_private_message.hpp:30-41 | A blank text, or a nick nobody holds: only the sender gets a packet, a system one |
| `Commands.PrivateByIdDone` | commands/command_private_message.hpp:52-84 | The same for the member with the id, if it has a nick |
| `Commands.PrivateByIdRefused` | commands/command_private_message.hpp:71-82 | A blank text, or no member with that id and a nick: only the sender gets a packet, a system one |
| `Commands.EmptyIsIgnored` | packets.cpp:115-116 | A message without a target or a text only counts as a sign of life |
| `Commands.NotInRoom` | packets.cpp:135-139 | A message to a room its sender is not in is only answered |
| `Packets.HeardNow` | client.cpp:32-40 | The sender of a valid packet, unless it revives another session, has been heard now |
| `Packets.InvalidIgnored` | client.cpp:32-40 | An invalid packet changes nothing but the clock |
| `Packets.IdleIsLife` | packets.cpp:785-787 | A packet with nothing to do changes nothing but the time its sender was last heard |
| `Packets.OnlineListDone` | packets.cpp:270-278 | A member gets exactly one online list of its room |
| `Packets.OnlineListRefused` | packets.cpp:270-275 | Anybody else gets exactly one error |
| `Packets.LoginDone` | packets.cpp:309-419 | A login gives the session the account's id, name, gender and color, keeps token, rooms and connection, and is answered with them |
| `Packets.LoginFails` | packets.cpp:309-419 | A failed login changes no session field but the time; one error |
| `Packets.NoLoginDone` | packets.cpp:309-419 | Without a login the session is answered as it is |
| `Packets.LeaveDone` | packets.cpp:652-662 | Exactly the member and both sides of the link are gone, the data of a user with an account is stored; listeners with the leaver among them hear it once if it had a nick, and the leaver gets the answer |
| `Packets.LeaveRefused` | packets.cpp:652-657 | Not in such a room: one error and nothing else |
| `Packets.CreateDone` | packets.cpp:712-713 | A new, empty room of that name, owned by the sender's account, is registered last; one answer |
| `Packets.CreateRefused` | packets.cpp:691-710 | A guest, a bad name or a taken name is refused with its own error code and creates nothing |
| `Packets.RemoveRefused` | packets.cpp:743-767 | A guest, a missing room, or anybody but account 1 or 2 and the owner is refused with its own error code and removes nothing |
| `Removals.RemoveDone` | packets.cpp:759-763 | The room is registered no more and empty, departing users are stored, every client has lost exactly this room, and every outbox grew by exactly the departures it was still in to hear, its own leave packet, and the answer |
| `Outcomes.PresenceDone` | packets.cpp:491-499 | Away or back is the member's status in every room where the sender has a nick, everything else in every room is as before, and each such room is told the new status once |
| `Outcomes.TypingDone` | packets.cpp:500-504 | Typing is told to all listeners of the one room, if the sender has a nick there; no room changes |
| `Outcomes.StatusIgnored` | packets.cpp:485-506 | Any other status, or typing elsewhere, only counts as a sign of life |
| `Outcomes.CloseOutcome` | server.cpp:62-80 | Closed with 1000 or 1001 the client is off the list, out of the index and of every room, told while it could still hear it; closed otherwise, or failed, it is an orphan in all its rooms, told when it could no longer hear it |
| `Replays.ReviveReplays` | client.cpp:42-62 | After a revive the connection got the reply and then, for every room of the target in turn, the join packet, the online list, one message packet per kept message in order and, with a nick, the back notice; the kept messages are the tail of the log; every other outbox grew by the departures and back notices it listens to, and nothing else |
| `Joining.JoinDone` | packets.cpp:576-621 | A client not banned, or with a moderator's right spelled out, becomes the last member under an unused non-zero id with the nick and looks stored for it or of its account; its outbox grows by the join packet, the online list, exactly the kept tail of the log if asked for and no message otherwise, and the notes; listeners hear its nick once if it has one |
| `Joining.JoinBanned` | packets.cpp:563-574 | A client banned by address or by account and without a moderator's right gets no member and exactly one user_banned error; at most the room's id counter moves |
| `Joining.JoinRefused` | packets.cpp:545-558 | Already in a room of that name, or no such room: one error with the code of the case and nothing else |
| `Pings.SweepPingsExactly` | server.cpp:86-100 | A sweep adds exactly one ping to the outbox of a connection whose client has been silent for more than 60 and at most 150 seconds, none to any other, and notes its time |
| `Theorems.HistoryIsTail` | rooms.cpp:180-188 | The history is the whole log if the limit is negative or not exceeded, else literally its last maxHistory messages |
| `Utf8.RepairKeepsText` | algo.cpp:24-33 | A well-encoded beginning of any string is kept byte for byte |
| `Utf8.RepairReplacesOne` | algo.cpp:24-33 | The first byte that begins no character is replaced, and the repair goes on behind it |
| `Sanitizing.SanitizedPrefix` | packets.cpp:93-97 | The text is the first 30720 bytes of the collapsed text, each kept or made a space, and all of it unchanged if it is short and UTF-8 |
| `Rates.RateBound` | packets.cpp:115-133 | In every run, at most 4 * (L / 2 + 1) messages of one client pass the limiter in any L consecutive seconds |
| `Rates.RunIsAttempts` | packets.cpp:115-133 | What a run lets through of a client is exactly what the limiter alone lets through of its attempts |
| `RateLimit.PassedBound` | packets.cpp:115-133 | The same bound for the limiter alone, over any attempts in the order of time |
| `RateLimit.BoundReached` | packets.cpp:115-133 | The bound is tight: for every L > 0 a new client can pass 4 * (L / 2 + 1) messages in L seconds |
| `RateLimit.WorstOrdered` | packets.cpp:115-133 | The attempts that reach the bound are in the order of time |
| `RateLimit.BudgetPays` | packets.cpp:115-133 | Every message that passes uses up one of the messages that may still pass |
| `Runs.StepInv` | server.cpp:16-110 | Every event takes a state that satisfies the whole invariant to one that does, brings no closed connection back and changes no limiter except as the event's own message does |
| `Runs.RunInv` | server.cpp:16-110 | Every valid run keeps the invariant |
| `Invariant.OpenInv` | server.cpp:33-60 | Opening a connection keeps the invariant, raises no alarm and brings no old connection into the index |
| `Invariant.CloseInv` | server.cpp:62-80 | Closing and failing keep the invariant and bring no old connection into the index |
| `Invariant.ReceiveInv` | server.cpp:20-31 | A message keeps the invariant, revives included, and changes limiters only as stated |
| `Invariant.ReviveInv` | server.cpp:197-211 | A revive keeps the invariant of the whole server |
| `Runs.TickInv` | server.cpp:82-110 | A sweep keeps the invariant and restarts the bound on everybody's silence |
| `Runs.RestartInv` | server.cpp:133-141 | Loading a saved server keeps the invariant |
| `Registry.SpliceCounters` | src/clients_manager.hpp:122-131 | Although a revive only decrements at the target's old address, all counters stay exact |
| `Registry.DecrementExact` | src/clients_manager.hpp:150-160 | A decrement of a positive counter is exact, touches no other address and drops the entry exactly when nothing is left |
| `Registry.OrphanKeepsManager` | src/clients_manager.hpp:80-87 | List, indexes and counters agree again once a client lost its connection |
| `Registry.DelistKeepsManager` | src/clients_manager.hpp:98-111 | List, indexes and counters agree again once a client without connection is off the list |
| `Registry.ConnectKeepsManager` | src/clients_manager.hpp:49-69 | List, indexes and counters agree again once a client has been added |
| `Revive.ReviveClientStep` | src/clients_manager.hpp:113-135 | A revive keeps rooms, members, links, views and manager in order and changes exactly two sessions |
| `Sessions.MakeOrphanStep` | src/clients_manager.hpp:80-87 | Orphaning keeps everything in order and changes nothing of any session but the connection |
| `Sessions.RemoveStep` | src/clients_manager.hpp:98-111 | Removing keeps everything in order, shortens the list by the client and leaves it no member anywhere |
| `Sessions.ConnectStep` | src/clients_manager.hpp:49-69 | Connecting keeps everything in order |
| `Transfers.ReviveRoomsAre` | src/clients_manager.hpp:122-131 | Every room after a revive is the room before without the discarded client's member and with the target's member online |
| `Transfers.RemovedLeaves` | client.cpp:77-86 | A removal takes exactly the client's member out of each room and stores a known user's data there |
| `Transfers.OrphanLeaves` | client.cpp:64-75 | An orphaning changes exactly the status of the client's member in each room |
| `Transfers.LeftRoomStored` | rooms.cpp:254-257 | Leaving stores the data of a user with an id under that id and stores nothing for a guest |
| `WorldSteps.OnRemoveStep` | client.cpp:77-86 | Removing a client keeps rooms, links and every other receiver's view in order and leaves it no member |
| `WorldSteps.RemoveRoomWorld` | rooms.cpp:92-99 | Removing a room sends everybody out, unregisters it and keeps everything in order |
| `WorldSteps.LeaveRoomWorld` | client.cpp:117-121 | Leaving a room undoes the link on both sides and keeps everything in order |
| `WorldSteps.KickMemberWorld` | rooms.cpp:285-295 | Kicking a member undoes the link on both sides and keeps everything in order |
| `WorldSteps.OrphanRoomsStep` | client.cpp:64-75 | Telling all rooms of a lost connection settles every member and every view |
| `WorldSteps.ReviveRoomsStep` | client.cpp:42-62 | Telling all rooms of a revive settles every member and every view, the revived receiver's own included |
| `PacketSteps.ProcessFine` | packets.cpp:485-767 | No packet but a revive disturbs rooms, links, views or sessions |
| `PacketSteps.OnJoinFine` | packets.cpp:545-623 | A join, with or without auto-login, banned or not, keeps everything in order |
| `PacketSteps.MembersAtMostClients` | rooms.cpp:224-246 | A room never has more members than there are live clients |
| `RoomSteps.SetNickStep` | rooms.cpp:39-70 | Setting a free nick, a changed nick or none keeps the room in order and tells every receiver exactly what changed |
| `RoomSteps.ChangeLooksStep` | commands/command_gender.hpp:15-38 | A change of gender or color, with or without a nick, leaves every receiver with the true roster |
| `RoomSteps.ChangeStatusStep` | packets.cpp:491-499 | Away and back leave every receiver with the true roster |
| `RoomSteps.TypingStep` | packets.cpp:500-504 | A typing packet changes nobody's roster |
| `RoomSteps.RemoveMemberStep` | rooms.cpp:248-260 | A departure leaves every remaining receiver with the true roster |
| `RoomEntries.ReviveStep` | client.cpp:45-61 | After a revive the receiver and everybody else know the true roster of the room |
| `RoomEntries.ListSettles` | packets.cpp:576-578 | The online list a newcomer gets is the true roster, its own entry included once it has one |
| `RoomEntries.JoinStep` | rooms.cpp:224-246 | A joined member gets an unused id and a link on both sides, and nobody's roster changes |
| `RoomEntries.PublicMessageStep` | packets.cpp:152-154 | A public message keeps the room in order and its history the tail of its log |
| `Presence.FromListIsRoster` | packets.cpp:241-252 | An online list is read as exactly the roster of the members it was made from |
| `Presence.RosterUnique` | packets.cpp:434-455 | At most one roster fits the members of a room |
| `Presence.ReplaceAnnounced` | rooms.cpp:39-70 | A status packet about a changed member turns every exact view of the old members into one of the new members |
| `Presence.RemovalAnnounced` | rooms.cpp:248-252 | An offline packet turns every exact view into one without the member |
| `Presence.NickDropAnnounced` | rooms.cpp:56-59 | Dropping the nick is announced as going offline |
| `Delivery.BroadcastExactlyOnce` | rooms.cpp:297-302 | The loop over members serves every connection of a member once and no other, if members have distinct clients and clients distinct connections |
| `Members.RemoveKeepsDistinct` | rooms.cpp:259-259 | Erasing a member removes exactly it |
| `Members.UpdateKeepsDistinct` | commands/command_nick.hpp:30-36 | Replacing a member's data under a nick nobody else holds keeps ids, clients and nicks distinct |
| `MemberIds.GenNextMemberId` | rooms.cpp:173-178 | The id loop terminates whenever the room has fewer than 2^32 - 1 members and finds the first non-zero id, cyclically after the counter, that nobody holds |
| `MemberIds.NextMemberId` | rooms.cpp:173-178 | The id is non-zero, 32 bits wide, unused, and every id passed over is zero or taken |
| `MemberIds.SomeIdFree` | rooms.cpp:173-178 | Fewer than 2^32 - 1 members leave a non-zero id free |
| `History.LastOfAppend` | rooms.cpp:180-188 | Cutting the history after every message is the same as cutting the whole log once |
| `History.HistoryConsecutive` | rooms.hpp:174-174 | Neighbouring messages of a history have consecutive ids modulo 2^32 |
| `History.HistoryEnd` | rooms.hpp:174-174 | The last message of a history has the id before the next one given out |
| `Persistence.RoomRoundTrip` | rooms.cpp:101-171 | Loading a saved room, whatever order its containers were saved in, gives the room back without members and with a fresh id counter |
| `Persistence.InfosRoundTrip` | rooms.cpp:17-33 | Stored infos come back under their keys because each is filed under its own user id |
| `Storage.SerializeRoom` | rooms.cpp:101-133 | The loops over the containers produce a saved form of the room |
| `Storage.DeserializeRoom` | rooms.cpp:135-171 | The loops over a JSON value produce the loaded room, for any JSON value |
| `Storage.SaveAndLoad` | rooms.cpp:101-171 | Saving and loading by the loops gives everything but the members back |
| `Storage.StoreStrings` | rooms.cpp:102-108 | The list holds exactly the strings of the set, in some order |
| `Storage.StoreInfos` | rooms.cpp:121-125 | The list holds exactly the serialized infos of the map |
| `Storage.FetchInfos` | rooms.cpp:145-150 | The map holds under each user id the last info listed with it |
| `Lookups.FindMemberByClient` | rooms.cpp:190-198 | The loop finds the first member of the client, or none |
| `Lookups.FindMemberByNick` | rooms.cpp:200-208 | The loop finds the first member with the nick; an empty nick is never found |
| `Lookups.FindMemberById` | rooms.cpp:210-218 | The loop finds the first member with the id, or none |
| `Lookups.PushHistory` | rooms.cpp:180-188 | Appending and dropping from the front one by one leaves the last maxHistory messages; a private message is not kept |
| `Utf8.ReplaceInvalidUtf8` | algo.cpp:24-33 | The in-place loop terminates and turns the string into its repair |
| `Utf8.RepairIsUtf8` | algo.cpp:24-33 | The repair with an ASCII character is UTF-8 |
| `Utf8.RepairFixes` | algo.cpp:24-33 | The repair leaves a string unchanged if and only if it is UTF-8, and is idempotent |
| `Utf8.RepairOnlyReplaces` | algo.cpp:24-33 | The repair changes a byte only to the replacement |
| `Utf8.CheckExact` | algo.cpp:28-29 | The search for an invalid byte runs through if and only if the bytes encode a sequence of code points (sections 3 and 4 of RFC 3629) |
| `Utf8.AcceptedIsEncoded` | algo.cpp:28-29 | An accepted character is the shortest encoding of a code point that is no surrogate and at most U+10FFFF |
| `Utf8.EncodedIsAccepted` | algo.cpp:28-29 | Every encoded code point is accepted with its exact length, whatever follows |
| `Sanitizing.Sanitized` | packets.cpp:93-97 | After deserialization a message is UTF-8, at most 30720 bytes and without four newlines in a row; it is unchanged if and only if it was so before; a second pass does nothing |
| `Sanitizing.CollapseCapsRuns` | packets.cpp:93-93 | Collapsing caps every run of newlines at three |
| `Sanitizing.CollapseKeepsInk` | packets.cpp:93-93 | Collapsing takes nothing but newlines away |
| `Service.Server.Handle` | server.cpp:16-110 | Every event handled on the object's fields is the step of the state machine and leads from a reachable to a reachable state |
| `Service.Server.constructor` | server.cpp:13-16 | A new server is the initial state |
| `Service.Server.OnOpen` | server.cpp:33-60 | The object is left in exactly the state of the open step: refused, admitted, or admitted for an evicted orphan (Opening.OpenOutcome) |
| `Service.Server.OnClose` | server.cpp:62-72 | The object is left in the state of the close step: the client removed for 1000 and 1001, orphaned for any other code, untouched for an unknown connection (Outcomes.CloseOutcome) |
| `Service.Server.OnError` | server.cpp:74-80 | The object is left in the state of the error step: the client orphaned, or nothing for an unknown connection (Lifecycle.FailOutcome) |
| `Service.Server.OnReceive` | server.cpp:20-31 | The object is left in the state of the message step; an unknown connection changes nothing |
| `Service.Server.OnTick` | server.cpp:82-110 | Both loops leave the object in the state of the sweep (Lifecycle.SweepExact, Pings.SweepPingsExactly) |
| `Service.Server.SweepAll` | server.cpp:86-102 | The loop that orphans and pings while collecting finds the clients to kick that collecting first would find |
| `Service.Server.KickOverdue` | server.cpp:104-110 | The loop leaves the object in the state after removing the collected clients one by one |
| `Service.Server.FindFirstOrphan` | src/clients_manager.hpp:39-47 | The loop finds the first orphan of the address in list order, or none |
| `Service.Server.GetCounterFromIp` | src/clients_manager.hpp:139-139 | Reading a counter creates it with zeros |
| `Service.Server.DecrementForIp` | src/clients_manager.hpp:150-160 | The counters after creating, lowering, clamping and erasing the entry are those of Registry.DecrementExact, a clamp is recorded as an alarm |
| `Service.Server.RemoveFromClients` | src/clients_manager.hpp:162-172 | The search-and-erase loop erases the client and its token, and tells whether it was listed |
| `Service.Server.Connect` | src/clients_manager.hpp:49-69 | List, both indexes, counters and client store take in the new client (Registry.ConnectKeepsManager) |
| `Service.Server.MakeOrphan` | src/clients_manager.hpp:80-87 | Index, counter, session and all rooms are those of an orphaning (Sessions.MakeOrphanStep, Transfers.OrphanLeaves) |
| `Service.Server.Remove` | src/clients_manager.hpp:98-111 | List, indexes, counters, session and all rooms are those of a removal (Sessions.RemoveStep, Transfers.RemovedLeaves) |
| `Service.Server.ReviveClient` | src/clients_manager.hpp:113-135 | The statements in the order of the original leave the state of a revive (Reviving.ReviveTransfer), a refusal is recorded as an alarm |
| `Service.Server.UnlistForRevive` | src/clients_manager.hpp:122-127 | The target's old connection and one client leave the counters, the current client the list and the token index |
| `Service.Server.SetConnection` | client.cpp:24-30 | The session has the connection, and the new address only if there is a connection |
| `Service.Server.OnPacket` | client.cpp:32-40 | An invalid packet changes nothing; any other refreshes the packet time and is processed |
| `Service.Server.OnRevive` | client.cpp:42-62 | The loop sets every member online and sends join, online list, history and the back notice room by room (Replays.ReviveReplays, WorldSteps.ReviveRoomsStep) |
| `Service.Server.OnDisconnect` | client.cpp:64-75 | The session loses its connection, then the loop sets every member to orphan and tells the rooms (WorldSteps.OrphanRoomsStep) |
| `Service.Server.OnRemove` | client.cpp:77-86 | The loop takes the client out of all its rooms, then the session is bare (WorldSteps.OnRemoveStep) |
| `Service.Server.OnKick` | client.cpp:88-90 | The room, and no other, leaves the client's rooms |
| `Service.Server.SendPacket` | client.cpp:92-97 | A packet goes to the client's connection if it has one |
| `Service.Server.JoinRoom` | client.cpp:105-115 | Banned with only a member id used up, or a new member with an unused id and a link from the client (Joining.JoinBanned, Joining.JoinDone, RoomEntries.JoinStep) |
| `Service.Server.LeaveRoom` | client.cpp:117-121 | Link and member are both gone if the client was in the room, else nothing changes (WorldSteps.LeaveRoomWorld) |
| `Service.Server.GetRoomByName` | client.cpp:123-131 | The loop finds the first room of that name |
| `Service.Server.SetNick` | rooms.cpp:39-70 | The member and the packet of each case: unchanged, banned, first nick, dropped nick, changed nick (Commands.NickDone, RoomSteps.SetNickStep) |
| `Service.Server.RemoveMember` | rooms.cpp:248-260 | Notice before erasure, stored data, member erased; a missing member is recorded as an alarm (RoomSteps.RemoveMemberStep) |
| `Service.Server.KickMember` | rooms.cpp:285-295 | Link gone, notice sent to all while the member is still in, leave packet, member erased (WorldSteps.KickMemberWorld) |
| `Service.Server.SendPacketToAll` | rooms.cpp:297-302 | The loop delivers the packet to every member in turn |
| `Service.Server.PublicMessage` | packets.cpp:152-154 | The message takes the next id, wraps the counter at 2^32, enters history and log and is delivered to the members (Talking.PublicFields) |
| `Service.Server.CreateRoom` | server.cpp:152-164 | An empty room at a new address, registered |
| `Service.Server.RemoveRoom` | rooms.cpp:92-99 | The room is unregistered, then the loop over a copy of its members sends each out (WorldSteps.RemoveRoomWorld) |
| `Service.Server.ProcessJoin` | packets.cpp:545-623 | The state and the answer of each case: already in, no such room, banned, joined with or without auto-login and history (Joining.JoinRefused, JoinBanned, JoinDone) |
| `Service.Server.AutoLogin` | packets.cpp:586-610 | Looks and nick from stored data or the account; no nick if it is banned or taken (Joining.JoinDone) |
| `Service.Server.ProcessStatus` | packets.cpp:485-506 | The loop sets and announces away and back in every room with a nick; typing is announced in one room; anything else does nothing (Outcomes.PresenceDone, TypingDone, StatusIgnored) |
| `Service.Server.ProcessMessage` | packets.cpp:115-155 | The limiter is touched, then blocks, rejects a blank text, or counts and lets the text on to the room |
| `Service.Server.ProcessLeave` | packets.cpp:652-662 | Not in such a room, or left and answered (Packets.LeaveDone, LeaveRefused) |
| `Service.Server.ProcessCreateRoom` | packets.cpp:691-714 | Refused for a guest, a bad name or a taken name, else a room owned by the sender (Packets.CreateDone, CreateRefused) |
| `Service.Server.ProcessRemoveRoom` | packets.cpp:743-767 | Refused for a guest, a missing room or somebody who is neither administrator nor owner, else the room is removed (Removals.RemoveDone, Packets.RemoveRefused) |
| `Service.Server.ProcessOnlineList` | packets.cpp:270-278 | Not in such a room, or exactly the roster list of the room (Packets.OnlineListDone, OnlineListRefused) |
| `Service.Server.ProcessAuth` | packets.cpp:309-419 | Another live client's token revives it after the reply; otherwise the login outcome is applied (Packets.LoginDone, LoginFails, Replays.ReviveReplays) |
| `Service.Server.Say` | packets.cpp:200-233 | A command runs only at a level its sender has in this room, a plain text only with a nick (Commands.Obeyed, CommandRefused, PlainSpreads) |
| `Service.Server.CommandNick` | commands/command_nick.hpp:29-40 | The nick is set only if it is legal or empty and nobody holds it (Commands.NickDone, NickRefused, NickIdle) |
| `Service.Server.CommandGender` | commands/command_gender.hpp:15-38 | The gender is the given one or the opposite, told to all with a nick and to oneself without (Commands.GenderDone) |
| `Service.Server.CommandColor` | commands/command_color.hpp:15-38 | The color is the given one, told to all with a nick and to oneself without, or refused (Commands.ColorDone, ColorRefused) |
| `Service.Server.CommandStyledMessage` | commands/command_styled_message.hpp:18-31 | A blank text is refused, any other is published with its style (Commands.StyledSpreads) |
| `Service.Server.CommandPrivateMessage` | commands/command_private_message.hpp:13-43 | Exactly sender and holder of the nick get the message; nothing enters a history (Commands.PrivateDone, PrivateRefused) |
| `Service.Server.CommandPrivateMessageById` | commands/command_private_message.hpp:52-84 | Exactly sender and member with the id get the message, if it has a nick; nothing enters a history (Commands.PrivateByIdDone, PrivateByIdRefused) |
| `Service.Server.CommandKick` | commands/command_kick.hpp:14-26 | The holder of the nick is kicked, or the sender is told there is none (Commands.KickDone, KickMisses) |
| `Service.Server.CommandBanNick` | commands/command_ban.hpp:49-75 | The nick is banned and its holder kicked unless over the limit, malformed or banned already (Commands.BanNickKicks, BanNickAlone) |
| `Service.Server.CommandSets` | commands/command_moder.hpp:13-73 | Exactly the set the command names is edited, within its limit; one answer (Commands.BanUidDone to DelModerDone) |
| `Service.Server.Serialize` | server.cpp:122-131 | The loop over the rooms produces a saved form of the server |
| `Service.Server.Restart` | server.cpp:133-141 | The loop places every saved room at a new address; no client is left (Lifecycle.RestartRestores) |

## Left out

- StatusOf: status packets leave out data, user_id, is_owner, is_moder and last_seen_time, which are not part of the roster; so does `Member::lastSeenTime`.
- OnAuth: the database, the session store and the login gate are an arbitrary outcome of a login; only the token branch is modelled in full.
- IsSavedRoom: a history entry is saved as an opaque printed form of its message; JSON text itself is not modelled.
- OnRestart: the process loads what it saved last; a crash that loses later changes is not modelled.
- Valid: the 2^32 - 2 bound on live clients excludes a room with no member id left, in which the id loop of the original would not end.
- RunCommand: the command parser is taken as given, an event carries the matched command and its arguments; the length and alphabet checks of a nick and of a room name are flags of the event.
- EditSets: the sets are edited as one value, not by the insert and erase calls of the room object.
- Server: client and room objects are records in stores indexed by address, updated in place there; they are not heap objects of their own, so pointer aliasing and reference counts are not captured.
- SetConnection: taking the real address of a client from a request header is not modelled; the address is part of the connection.
- LastOf: a negative maxHistory never cuts, because the original compares sizes as unsigned numbers.
- The order of two packets to two different connections; each connection has its own outbox.
- Closing a superseded or timed-out connection (`closeConnection`): the close event may arrive at any later time, or never.
- Help texts, list commands (help, userlist, roomlist, myrooms, ipcounter, banlist, moderlist) and all message texts of system and error packets: string building only.
- Configuration, logging, signals, sockets and the timer itself: calls into libraries.
- The quality of random tokens; only that a generated token is unused.
