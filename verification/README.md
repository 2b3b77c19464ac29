# Verification of the game's group, class, door, combine and alias code

A Dafny model of five pieces of the SentienceMUD server that change shared state in place and keep several
redundant copies of one fact in step, with proofs of what they keep over whole runs of the game.

* **Groups** (`act_comm.c`). Who is grouped with whom is held in the member lists, the characters' `group` pointers,
  the player counts, the leader pointers, the legacy fields `leader`, `num_grouped` and `lgroup`, and in timed
  invitation and request records. `GroupModel` says what each operation does to the whole state, `GroupInvariants`
  what every reachable state satisfies; `GroupMembership`, `GroupCommands`, `GroupFollowing` and `GroupRuns` prove
  that each step of any run keeps it; `GroupFrames`, `GroupTheorems` and `GroupFacts` draw the consequences,
  `GroupOutcomes` says exactly what an attempt to join, invite, request, accept, decline, promote or follow comes to,
  and `GroupEffects` what becomes of the records, the queues, the followers and their pets. `GroupRequests` traces
  every queue entry of a run to the request that made it and says by what right anybody comes into a group, and
  `GroupWitnesses` gives runs that reach the states in which the code does less than it promises. `GroupWorld` is the
  code itself: one object with the heaps and the global lists, and a method for each C function and each arm of the
  command, with the source's loops, proved to produce the state that `GroupModel` prescribes (`GroupSteps` holds the
  facts its loops need). `GroupSplit` is `do_split` on top of it.
* **Class rewards** (`act_class.c`). `SkillSources` and `SkillScopes`: the list of class sources of a skill with its
  cached broadest source, and when a skill may be used. `RewardModel`, `RewardLedger`, `RewardPools`, `RewardSkills`:
  applying, revoking and rebuilding rewards, the ledger, and the stat pools over whole runs of class switches and
  level gains. `RewardTables` reads the result off the class, skill and group tables alone. `RewardCharacter` is the
  code in place, on skill entries that are objects.
* **Doors** (`act_move.c`). `Doors`: commands on a graph of rooms that write both sides of an exit. `DoorStories`:
  what they refuse, what they undo, and two rooms with a door between them.
* **Combining** (`act_obj2.c`). `Combine`: the pairing loops of `do_combine` on marked spell records.
  `CombineEffects`: what the command does to the two items, told from skill, roll and spells.
* **Aliases** (`alias.c`). `Aliases`: the packed alias arrays as a finite map. `AliasEffects`: defining, showing,
  using and removing an alias, end to end.

`Lists` and `Strings` hold the list and string functions these files share.

## How C is read

* A pointer into a heap is a number that is a key of a heap map; `IS_VALID` is membership in the heap, so a freed
  object is a number that is no longer a key. The allocator never hands out the same number twice. A pair of id
  words is one number. Global lists are sequences; `list_remlink` is `Lists.Without`.
* Players have `pcdata` and non-players do not, so that `pcdata` tests and `IS_NPC` tests agree.
* `current_time` is a number that an operation of its own advances. Random rolls, keys in hand, what a character
  sees, and the victim a name resolves to are parameters.
* Script triggers and quest hooks do nothing. `p_percent_trigger` callbacks that would call back into the group code
  between two of its statements are therefore outside the model.
* Class, skill and skill-group tables are maps; the reward ledger is a sequence of keys (level, type, folded name), and
  no custom reward is named "rewards_applied", which would overwrite the ledger.
* Exits never change where they lead, and rooms are numbered.

## Where the code and its documentation differ

The model follows the code. For each difference below there is a concrete case and, where the text says when it
happens, the exact condition.

* The cap of "9 people" (act_comm.c:4351-4357) reads the `num_grouped` of the character passed as master. That is
  zero for a member who does not lead, so a call with such a master adds an eleventh member to a full group:
  `GroupFrames.AddGroupedCap` gives the exact condition, and `GroupWitnesses.CapIsReachable` a run of the game that
  gets there. Every arm of the group command passes a leader;
  mount.c:116, act_obj.c:5889, act_obj.c:6473, act_obj.c:6506, magic_death.c:176, magic_mind.c:110, magic_nature.c:60
  and the script commands pass whoever mounts, buys, casts or is named.
* The arm of `stop_grouped` for legacy pointers (act_comm.c:4406-4415) and the repair arm of `die_follower`
  (act_comm.c:2581-2582) are kept in the model and proved never to change anything in a state that its operations
  reach. In the game one script command writes the legacy pointers by itself and so reaches the first arm; see the
  `mob assist` entry of the last section.
* "Bonuses ... ARE revoked by default" (act_class.c:594-595) is not what the loop does: it looks at the revoke flag
  alone and, unlike applying, not at the class level. `RewardLedger.LeaveAndRejoin` says exactly when leaving a
  class and coming back restores the pools, and `RewardLedger.BonusGainedTwice` shows a bonus gained twice. Over runs
  that mix switches and level gains the path matters by exactly the drift that `RewardPools.PathIndependence` names:
  a class that is left takes bonuses it never gave, and a level gained in an idle class gives bonuses that stay
  (`RewardPools.IdleLevelPays`).
* A request entry outlives its player's record of it: joining another group by invitation clears the record
  (act_comm.c:4010-4014) and not the entry, and a leader who then accepts the entry takes the player out of the group
  it is in. `GroupOutcomes.AcceptMoves` says exactly whom an accepted name brings in, `GroupOutcomes.EntryOutlivesJoin`
  follows the stale entry through a join into any other group, and `GroupWitnesses.StaleEntry` is a run of the game in
  which it pulls a player out of one.
* `accept` and `decline` find an entry by the beginning of a name, the earliest first, so that a player whose whole
  name begins an earlier one's cannot be reached by name: `GroupOutcomes.RequestThenAccept` and `RequestThenDecline`
  have the exact conditions, `GroupWitnesses.HiddenName` the runs in which the wrong player comes in, and
  `GroupWitnesses.AliceForAl` one of them.
* An invitation lets its player in for sixty seconds. After that `accept` with the inviter's name is taken for a
  leader's acceptance of a request, and makes an ungrouped player who follows nobody found a group of its own:
  `GroupOutcomes.InviteThenAccept`.
* A split counts uncharmed companions and pays players, so that coins vanish between a player and an NPC companion:
  `GroupWitnesses.SplitLosesCoins`; `GroupSplit.SplitBalance` is the exact balance.
* Adding a source is meant to widen use, but it can end it. A skill held without any class source is usable by
  everyone until some class names it, which `rebuild_skill_sources` does at every login (nanny.c:2794); and a class
  node that becomes a combat node stops covering a class that does not fight. `SkillScopes.AdditionLoses` is the exact
  condition for one source and `RewardSkills.RebuildLoses` for a rebuild; `SkillScopes.SourcelessLost` and
  `SkillScopes.CombatLost` are the two cases.
* A skill held without any class source is lost altogether when a class that also granted it is left:
  `RewardSkills.SourcelessSkillGone`, and `SkillScopes.GrantThenRevoke` for when the sources are restored.
* `do_open` with the key of a lock that is broken, jammed or not functional calls itself without end:
  `Doors.DoOpen` returns exactly when the lock turns, or no key is needed; `Doors.JammedDoor` never does.
* A near miss of `do_combine` is documented as "combined with random spell pairing" (act_obj2.c:706), but its test
  refuses as soon as a mate is found. `Combine.NearMissRefusesTwins` is the concrete case, `Combine.MatchInOrder` and
  `Combine.NearMissMerges` the exact conditions.
* `substitute_alias` skips lines that begin "alias" or "unalias" according to its comment (alias.c:53); the test skips
  lines that those words begin with. What protects the reserved words is the table: `Aliases.ReservedNeverRewritten`.
  An alias named "al" can be defined and does nothing when typed alone: `Aliases.MuteAlias`.

## Model

| member | source | states |
|---|---|---|
| GroupRuns.RunInv | act_comm.c:3949-4171 | from boot, after any interleaving of create, add, remove, promote, disband, follow, die, invite, request, accept, decline, expiry, login, extraction and time, the whole group invariant holds |
| GroupRuns.StepInv | act_comm.c:3269-3748 | each single step of any kind keeps the invariant, from any state that has it |
| GroupFacts.ReachableMembership | act_comm.c:3949-4171 | in every reachable state a character is in a member list exactly when it points to that group; lists are duplicate-free, disjoint and non-empty; the player count is exact; the leader is a member; the ungrouped have no leader |
| GroupFacts.ReachableLegacy | act_comm.c:4186-4252 | the legacy fields of every grouped character are a function of its group: the leader shows its followers and their number, the others show the leader and nothing else |
| GroupFacts.ReachableRequests | act_comm.c:2973-3017 | at most ten requests a group and one a player, and every player with an unexpired request is queued, with the same expiry, in a group that is still loaded |
| GroupFacts.LegacyComparison | act_comm.c:4254-4276 | comparing legacy leader pointers decides group equality |
| GroupFacts.SameGroupMeaning | act_comm.c:4254-4276 | being in the same group is group equality or a mount and its rider, and is symmetric |
| GroupFacts.SameGroupChain | act_comm.c:4254-4276 | mounts aside the relation is transitive, and where transitivity breaks a mount and its rider are one of the two links |
| GroupFacts.MountBreaksChain | act_comm.c:4254-4276 | an ungrouped mount is with its rider but with none of the rider's companions, unless it carries them too |
| GroupFacts.Succession | act_comm.c:4128-4171 | when removal disbands the group and when not, exactly; if not, who leads: the old leader, else the first player, else the first member |
| GroupFacts.FirstPlayerIsFirst | act_comm.c:4128-4150 | the player found by the succession search has only non-players before it on the list |
| GroupFacts.PlayersLead | act_comm.c:4016-4028 | in every reachable state the leader of a group is a non-player exactly when all its members are |
| GroupFacts.RemoveWithoutDisband | act_comm.c:4093-4171 | without the disband flag removal keeps the invariant exactly when the character was not alone in its group |
| GroupFacts.ClearAllEmpties | act_comm.c:4174-4183 | clearing all groups leaves no group and nobody grouped or led |
| GroupFacts.HeadIsLeader | act_comm.c:4186-4252 | the legacy head of a grouped character is the live leader of its own group |
| GroupMembership.SyncInv | act_comm.c:4186-4252 | synchronising repairs the legacy fields of a led group and breaks nothing else |
| GroupMembership.DisbandInv | act_comm.c:4037-4090 | disbanding keeps the invariant, even for a group that has just lost its leader |
| GroupMembership.SuccessorLeads | act_comm.c:4128-4150 | with an exact player count the succession finds a member, so that the arm of the sync without a leader is never taken |
| GroupMembership.RemoveInv | act_comm.c:4093-4171 | removal with the disband flag keeps the invariant and leaves the character ungrouped |
| GroupMembership.AddInv | act_comm.c:3990-4035 | adding keeps the invariant and leaves the character in exactly that group |
| GroupMembership.CreateInv | act_comm.c:3949-3988 | creating keeps the invariant and returns the group of the given leader |
| GroupMembership.AddGroupedInv | act_comm.c:4336-4370 | joining keeps the invariant for every master, full groups included |
| GroupMembership.StopGroupedInv | act_comm.c:4384-4421 | leaving keeps the invariant, and the arm for legacy pointers changes nothing |
| GroupMembership.SetLeaderInv | act_comm.c:2890-2902 | promotion keeps the invariant |
| GroupCommands.QueueInv | act_comm.c:2973-2989 | a queue may be replaced by any short one without duplicates in which every waiting player keeps its entry |
| GroupCommands.RemoveExpiredInv | act_comm.c:2991-3017 | expiry keeps the invariant, with and without telling the requesters |
| GroupCommands.FindPlayerSound | act_comm.c:3541-3546 | the search by id returns the one online player with that id, or nothing when there is none |
| GroupFollowing.DieFollowerFrees | act_comm.c:2562-2587 | after it no character has the dead one as master or leader, it has neither master nor group, and the invariant holds |
| GroupFollowing.ReleaseFollowerInv | act_comm.c:2578-2583 | one pass of its loop frees that follower and never takes the repair arm |
| GroupFollowing.NobodyFollowsLoner | act_comm.c:2581-2582 | in a good state no leader pointer leads to a character without a group |
| GroupFrames.AddGroupedCap | act_comm.c:4336-4363 | a joining call keeps every group within a leader and nine others exactly when it does not pass a non-leading member of a full group |
| GroupFrames.CapReading | act_comm.c:4351-4351 | what the cap test reads: the followers for a leader, zero for any other member, however long a departed leader's count is stale |
| GroupFrames.FoundedGroup | act_comm.c:3949-3988 | a new group holds exactly its founder, who leads it, with an empty queue, and may do without players exactly if it was founded so |
| GroupTheorems.RunCap | act_comm.c:4336-4363 | no reachable group exceeds ten members while callers pass a leader or an ungrouped master |
| GroupTheorems.StepCap | act_comm.c:3269-3748 | which single steps keep the cap, exactly |
| GroupTheorems.InviteProvenance | act_comm.c:3316-3386 | in every reachable state a pending invitation was issued by an acting leader of the run for its own group, sixty seconds before it expires |
| GroupRequests.RequestProvenance | act_comm.c:3388-3467 | in every reachable state each queue entry was put there by a request of the run, of the player with its id and name, sixty ticks before it expires, to a player then acting as leader, for the group it stands in |
| GroupRequests.RequestAdds | act_comm.c:3388-3467 | a request adds at most the entry of the player who makes it, to the queue of the leader it names |
| GroupRequests.StepFade | act_comm.c:2973-3017 | no other step puts anything into any queue |
| GroupRequests.JoinSafety | act_comm.c:3469-3560 | who enters a group by accepting: by an invitation of the run less than sixty ticks old whose inviter still leads that same live group, or by a request of the run less than sixty ticks old, of a player with that id for that very group, which stands in the accepting leader's queue, or founding an own group; afterwards nothing is pending and it is in exactly that group |
| GroupWitnesses.CapIsReachable | act_comm.c:4347-4363 | some run leads to a group of more than ten |
| GroupWitnesses.StaleEntry | act_comm.c:3541-3552 | a run in which a player asks one leader, joins another player instead and, with no request of its own left, is taken out of that group when the first leader accepts its name |
| GroupWitnesses.HiddenName | act_comm.c:3526-3552 | runs in which accepting a player by its whole name lets in the earlier one whose name it begins |
| GroupWitnesses.AliceForAl | act_comm.c:3526-3552 | one such run: accepting "al" lets Alice in and leaves Al out |
| GroupTheorems.AcceptInviteEntry | act_comm.c:3469-3513 | the invitation arm lets only the invited player in, into the group that issued it |
| GroupTheorems.AcceptRequestEntry | act_comm.c:3516-3560 | the request arm lets in only the player behind an unexpired entry |
| GroupOutcomes.JoinBehind | act_comm.c:4336-4363 | who gets in behind a grouped master, exactly, and that it goes to the end of that list or changes nothing |
| GroupOutcomes.JoinLoner | act_comm.c:4347-4359 | behind an ungrouped master a new group of the two appears, led by the master unless it is an NPC and the other a player |
| GroupOutcomes.JoinThenLeave | act_comm.c:3990-4171 | joining and leaving restores members and leader exactly when the group has a player, or may do without and the visitor was an NPC or the leader heads the list |
| GroupOutcomes.InviteOutcome | act_comm.c:3316-3386 | an invitation is recorded exactly for the invitable, and the inviter's group exists afterwards in any case |
| GroupOutcomes.InviteThenAccept | act_comm.c:3376-3513 | an invited player gets in exactly if it accepts within sixty ticks, without a name or by the beginning of the inviter's, there is room and the inviter is a player; any other name changes nothing; nobody ever gets in by an NPC's invitation |
| GroupOutcomes.InviteThenDecline | act_comm.c:3568-3590 | declining within sixty ticks, without a name or by the beginning of the inviter's, leaves the inviter's group and a clean invitation record, nothing else; any other decline changes nothing |
| GroupOutcomes.RequestOutcome | act_comm.c:3388-3467 | a request that may be made is queued last behind the unexpired ones and remembered with the same expiry |
| GroupOutcomes.RequestRefused | act_comm.c:3388-3467 | any other request leaves the player's record as it was |
| GroupOutcomes.AcceptMoves | act_comm.c:3516-3556 | who comes into a group by its leader accepting a name, exactly: the player behind the first unexpired entry that answers to it, if there is room, even out of another group |
| GroupOutcomes.EntryOutlivesJoin | act_comm.c:3541-3552 | whatever other group a player joins after it asked, the leader's queue keeps the entry and the join clears the player's record; the leader who accepts the entry takes the player out of that other group exactly if there is room |
| GroupOutcomes.RequestThenAccept | act_comm.c:3430-3560 | a requester gets in by its own name exactly if the leader accepts within sixty ticks, there is room, and no earlier entry still unexpired answers to that name |
| GroupOutcomes.DeclineEnds | act_comm.c:3592-3619 | declining a name ends exactly the pending request of the player who answers to it |
| GroupOutcomes.DeclineQueue | act_comm.c:3592-3619 | and leaves in the queue exactly the other unexpired entries |
| GroupOutcomes.RequestThenDecline | act_comm.c:3592-3619 | declining a requester by its own name ends the request and its entry exactly if it had expired or no earlier entry still unexpired answers to that name |
| GroupOutcomes.Promotion | act_comm.c:3269-3314 | the named member leads afterwards exactly if it is another player; the members stay who they are |
| GroupOutcomes.FollowOutcome | act_comm.c:2436-2459 | who starts following leaves its group, and nobody else's master changes |
| GroupOutcomes.ToggleOutcome | act_comm.c:3697-3742 | the bare command takes a companion out, and a follower in exactly if there is room |
| GroupOutcomes.ToggleRefused | act_comm.c:3703-3734 | the bare command changes nothing for one who follows somebody or is in a group it does not lead, about anybody who does not follow it, or where one of the two is charmed |
| GroupOutcomes.PendingUpdateOutcome | act_comm.c:3039-3067 | afterwards nothing of the player's own has expired and nothing unexpired is lost |
| GroupOutcomes.PendingUpdateQueues | act_comm.c:3039-3067 | a leader's queue is clean afterwards and no other queue has changed |
| GroupCommands.FindGroupFound | act_comm.c:2832-2853 | the search by id finds the one loaded group with that id |
| GroupOutcomes.FindMemberSound | act_comm.c:2765-2786 | the search by name finds a member with that prefix whenever there is one |
| GroupEffects.InvitationDead | act_comm.c:3481-3501 | accepting an invitation whose inviter no longer leads that group, or carries or rides the invited, drops the invitation and nothing else, unless the name given is not the inviter's |
| GroupEffects.NewGroup | act_comm.c:3949-3988 | a new group has an id above all others, and may do without players only if founded so |
| GroupEffects.FoundedBehind | act_comm.c:4347-4349 | a group founded behind an ungrouped master may do without players exactly if the master is an NPC |
| GroupEffects.FoundedByCommand | act_comm.c:3316-3467 | a group founded by an invitation or for a request always needs a player |
| GroupEffects.AcceptQueue | act_comm.c:3533-3556 | accepting a name leaves in the queue exactly the other unexpired entries, and the named one only if its player is online, outside the group, and the group full |
| GroupEffects.LookAtRequests | act_comm.c:3627-3666 | looking at the requests leaves the unexpired, and ends exactly the requests that have run out, if the requesters are told |
| GroupEffects.DeclineTells | act_comm.c:3603-3603 | declining any name ends every request that has run out in the queue |
| GroupEffects.UpdateTells | act_comm.c:3039-3067 | so does the periodic update of the leader |
| GroupEffects.AcceptTells | act_comm.c:3533-3538 | so does accepting a name to which nobody answers |
| GroupEffects.UnfollowOutcome | act_comm.c:2473-2506 | who ceases to follow is charmed no more, its master's pet no more, and in no group; nobody else's ties change |
| GroupEffects.DeathOutcome | act_comm.c:2562-2587 | exactly the followers of the dead follow nobody and lose their charm, exactly its master loses its pet, and no other tie of anybody changes |
| GroupEffects.ExtractOutcome | handler.c:3267-3267 | who leaves the game is on no list, in no group, and nobody's master or leader; the others stay |
| GroupEffects.LeaveClears | act_comm.c:4093-4171 | who leaves a group keeps no invitation and no request |
| GroupEffects.DisbandOutcome | act_comm.c:4037-4090 | disbanding leaves the members as if never grouped and ends the requests of whoever else waited; nobody else changes |
| GroupEffects.SetLeaderOutcome | act_comm.c:2890-2902 | any player of a group can be made its leader, an NPC exactly if the group has no player and need not have one; the members stay |
| GroupWorld.World.IdFindPlayer | act_comm.c:3541-3541 | refines the search for an online player by id |
| GroupWorld.World.FindGroupById | act_comm.c:2832-2853 | refines the search for a loaded group by id |
| GroupWorld.World.FindMemberByName | act_comm.c:2765-2786 | refines the search for a member by name prefix |
| GroupWorld.World.FindRequestById | act_comm.c:2933-2951 | whether a player is queued |
| GroupWorld.World.FindRequestByName | act_comm.c:2953-2971 | the first queued player whose name has that prefix |
| GroupWorld.World.RemoveRequestById | act_comm.c:2973-2989 | the walk over the shrinking list drops exactly that player's entries |
| GroupWorld.World.RemoveExpiredRequests | act_comm.c:2991-3017 | the walk over the shrinking list keeps exactly the unexpired entries and tells the right requesters |
| GroupWorld.World.SyncLegacyState | act_comm.c:4186-4252 | the sync loops produce the prescribed legacy fields |
| GroupWorld.World.GroupDisband | act_comm.c:4037-4090 | the disband loops, which shrink the lists they walk, produce the prescribed state |
| GroupWorld.World.FindSuccessor | act_comm.c:4128-4150 | the search for an heir returns the first player, and where there is none the first live member |
| GroupWorld.World.GroupRemoveMember | act_comm.c:4093-4171 | removal in place produces the prescribed state |
| GroupWorld.World.GroupAddMember | act_comm.c:3990-4035 | joining in place produces the prescribed state |
| GroupWorld.World.GroupCreate | act_comm.c:3949-3988 | creation in place produces the prescribed state |
| GroupWorld.World.GroupSetLeader | act_comm.c:2890-2902 | promotion in place produces the prescribed state |
| GroupWorld.World.GroupsClearAll | act_comm.c:4174-4183 | the loop that disbands the first group until there is none ends, with the prescribed state |
| GroupWorld.World.SameGroup | act_comm.c:4254-4276 | refines the same-group test |
| GroupWorld.World.CommandLeaderOf | act_comm.c:2855-2867 | in a valid world the leader a command acts for is the live leader of the character's group, or the character itself when it has none |
| GroupWorld.World.IsActingLeader | act_comm.c:2869-2883 | in a valid world exactly those act as leader who follow nobody and lead their group or have none |
| GroupWorld.World.DoAddGrouped | act_comm.c:4336-4370 | joining behind a master in place |
| GroupWorld.World.DoStopGrouped | act_comm.c:4384-4421 | leaving in place |
| GroupWorld.World.DoAddFollower | act_comm.c:2436-2459 | following in place |
| GroupWorld.World.DoStopFollower | act_comm.c:2473-2506 | ceasing to follow in place |
| GroupWorld.World.DoDieFollower | act_comm.c:2562-2587 | the loop over the loaded characters in place, with the guarantee of DieFollowerFrees |
| GroupWorld.World.DoPromote | act_comm.c:3269-3314 | the promote arm in place |
| GroupWorld.World.DoInvite | act_comm.c:3316-3386 | the invite arm in place |
| GroupWorld.World.DoRequest | act_comm.c:3388-3467 | the request arm in place |
| GroupWorld.World.DoAccept | act_comm.c:3469-3566 | the accept arm in place |
| GroupWorld.World.DoDecline | act_comm.c:3568-3625 | the decline arm in place |
| GroupWorld.World.DoShowRequests | act_comm.c:3627-3666 | the requests arm, and the prompt's test for requests, in place |
| GroupWorld.World.DoPendingUpdate | act_comm.c:3039-3067 | the periodic expiry in place |
| GroupWorld.World.DoToggle | act_comm.c:3697-3742 | the bare group command in place |
| GroupWorld.World.PerformAll | act_comm.c:3088-3742 | a whole run in place ends in the state of the same run on values, so all that is proved of runs holds of the object |
| GroupSplit.SplitBalance | act_comm.c:3821-3874 | a split changes the room's total of each coin by its share times one plus the paid minus the counted, leaves the splitter solvent, and conserves coins exactly when those numbers agree |
| GroupSplit.PlayersConserve | act_comm.c:3804-3872 | they agree when every grouped character present is an uncharmed player |
| GroupSplit.CountedIsSize | act_comm.c:3804-3809 | there are as many shares as uncharmed companions present |
| GroupSplit.SplitTests | act_comm.c:3777-3833 | a split takes place exactly of coins the splitter has, among two at least, and with one coin at least a share |
| GroupSplit.SplitShares | act_comm.c:3835-3874 | a share goes to every other player among the companions present, charmed or not; the splitter keeps one share and the remainder, and no other purse changes |
| GroupWitnesses.SplitLosesCoins | act_comm.c:3804-3874 | in a reachable state a player splits ten silver with an NPC companion and five are gone |
| GroupSplit.Room.DoSplit | act_comm.c:3762-3875 | the command in place hands out exactly these shares, or nothing |
| GroupSplit.Room.CountMembers | act_comm.c:3804-3809 | the first loop counts the uncharmed companions present |
| GroupSplit.Room.PayShares | act_comm.c:3865-3874 | the last loop pays exactly the players among the companions present |
| SkillSources.AddMeaning | act_class.c:144-181 | adding a source joins one class and scope into the class-to-scope map, keeps one node a class, and changes nothing exactly when already covered |
| SkillSources.RemoveMeaning | act_class.c:193-222 | removing a source takes exactly that class out of the map; nothing is left exactly when no other class was there |
| SkillSources.SkillEntry.Add | act_class.c:144-181 | the list in place, with the cached pair equal to the first node of maximal scope |
| SkillSources.SkillEntry.Remove | act_class.c:193-222 | the same for removal, and whether sources remain |
| SkillSources.BroadestUnique | act_class.c:173-180 | the cached pair is determined by the list |
| SkillSources.SkillEntry.RefreshCache | act_class.c:173-180 | the refresh loop finds the first node of maximal scope |
| SkillScopes.IsAvailable | act_class.c:770-837 | the walk decides availability by any source; with a cache in step the fallback is unreachable |
| SkillScopes.ScopesReach | act_class.c:786-814 | whom a node of each of the four scopes serves, among three classes of two types, one of them without combat |
| SkillScopes.CoversByScopes | act_class.c:786-814 | availability is a question about the class-to-scope map alone |
| SkillScopes.RemovalKeepsCover | act_class.c:193-222 | after removing a class a skill is available exactly when a node of another class covers the current one |
| SkillScopes.AdditionCovers | act_class.c:144-181 | after adding a source: by another class, or by the joined node |
| SkillScopes.AdditionLoses | act_class.c:152-170 | exactly when adding a source takes a usable skill away: never one a token grants; a skill without source when the new node does not cover; any other when a covering node becomes a combat node that does not and no other class covers |
| SkillScopes.SourcelessLost | act_class.c:778-780 | the concrete skill without source that one class's grant takes from another |
| SkillScopes.CombatLost | act_class.c:797-800 | the concrete class that loses its own skill to the combat scope |
| SkillScopes.GrantThenRevoke | act_class.c:630-645 | revoking a grant restores the list exactly when the class was no source before, and empties it exactly when there was no other |
| RewardLedger.LedgerKeys | act_class.c:60-126 | after a pass a key is on record exactly when it was before or a reward of the range carries it |
| RewardLedger.OneTimeFiresOnce | act_class.c:561-584 | over any run of joins, level ranges and departures the character is what a list of unconditional acts makes of it, in which a one-time key is applied at most once and never if it was on record before |
| RewardLedger.PassIsFired | act_class.c:561-584 | one pass has exactly the effect of applying, unconditionally, the rewards of the range other than one-time rewards on record |
| RewardLedger.RunKeys | act_class.c:60-126 | after a run a key is on record exactly when it was before or some pass of the run was due to record it |
| RewardLedger.BonusGainedTwice | act_class.c:600-628 | a concrete bonus that leaving and rejoining gains twice |
| RewardLedger.LeaveAndRejoin | act_class.c:600-628 | what leaving a class and rejoining it does to each pool, and exactly when it restores them all |
| RewardLedger.RevokePools | act_class.c:612-628 | revoking takes away exactly the revocable bonuses and keeps the gap between maximum and permanent value |
| RewardPools.JoinPools | act_class.c:547-586 | one pass over a range of levels, whatever the flags, adds the bonuses of the range that are not one-time and the one-time bonuses recorded for the first time, nothing else |
| RewardPools.RunPools | act_class.c:1026-1059 | over any run of switches and of level gains (act_class.c:1255-1273, update.c:562-584), whatever the flags, each maximum minus recorded one-time bonuses minus the active class's bonuses moves by the drift of the run and nothing else, and maximum minus permanent never changes |
| RewardPools.DriftMeaning | act_class.c:612-628 | where each bonus has one of the two flags, the drift of a turn is the growth of a level plus what is unfair: bonuses beyond its level that a class takes when left, and bonuses that a level of an idle class gives at once |
| RewardPools.PathIndependence | act_class.c:1026-1059 | two runs that end in the same class with the same levels and records end with the same six pool values if and only if their drifts are equal |
| RewardPools.RunRecords | act_class.c:1026-1059 | after a run a class has on record exactly what it had, what the levels it gained brought, and, if entered, all that its first level allowed |
| RewardPools.FairDrift | act_class.c:612-628 | over a run without unfair turns the drift is the growth of the levels gained |
| RewardPools.RouteDoesNotMatter | act_class.c:1026-1059 | of two such runs that entered the same classes and end in the same one with the same levels, the six pool values are the same exactly if the levels brought the same growth |
| RewardPools.SwitchesFair | act_class.c:1026-1059 | switches alone are fair where no class has a revocable bonus beyond its level |
| RewardPools.IdleLevelPays | act_class.c:1255-1273 | the concrete level that, gained while its class is idle, leaves ten hit points more than the same level gained in the class |
| RewardSkills.RebuildJoins | act_class.c:699-751 | rebuilding computes, for each held skill, the join of its map with the maximum scope over the rewards up to the class level |
| RewardSkills.RebuildIdempotent | act_class.c:699-751 | rebuilding twice is rebuilding once |
| RewardSkills.RebuildFixed | act_class.c:699-751 | it changes nothing exactly when every grant is covered |
| RewardSkills.GrantMember | act_class.c:707-748 | a rebuild makes a grant exactly when a joined class has a reward within its level that names the skill, by itself or as one of the contents of a group in the tables |
| RewardSkills.RebuildBySet | act_class.c:699-751 | the resulting map depends on the set of grants alone |
| RewardSkills.RebuildOrderFree | act_class.c:699-751 | reordering the classes, their rewards, or the skills of groups does not change the resulting map |
| RewardSkills.RebuildLoses | act_class.c:699-751 | exactly which held skills a rebuild makes unavailable to the current class |
| RewardSkills.LostToCombat | act_class.c:797-800 | a skill with sources is so lost only to combat scopes granted to each class that covered it |
| RewardSkills.RebuildAfterApply | act_class.c:547-586 | after a first-time application of all joined classes it changes nothing at all |
| RewardSkills.RevokeMeaning | act_class.c:630-670 | revoking removes only that class's node from the skills that its revocable rewards name in the tables, and drops an entry exactly with its last node |
| RewardSkills.RevokeKeepsOthers | act_class.c:630-670 | a skill that another class's node makes available stays available |
| RewardSkills.SourcelessSkillGone | act_class.c:630-645 | a concrete skill held without source that is gone after a class that granted it is left |
| RewardSkills.ApplySkillGives | act_class.c:239-289 | applying a skill reward gives the skill with at least that scope and only widens the others |
| RewardSkills.ApplyNamesGives | act_class.c:302-360 | the same for all the skills of a list, as the contents of a group are |
| RewardTables.PassGives | act_class.c:302-360 | a pass over a range of levels gives every skill that a reward of the range names in the tables, by itself or through a group: held, with a node of the class at least as broad, and rated |
| RewardTables.LeaveTakes | act_class.c:630-670 | leaving a class takes its node off exactly the skills that a revocable reward names in the tables, each of which goes with its last node; any other skill is as it was |
| RewardTables.RebuildGives | act_class.c:699-751 | a rebuild gives every held skill that a reward within the level of a joined class names in the tables a node of that class at least as broad |
| RewardTables.RebuildFrom | act_class.c:699-751 | every node that a rebuild adds comes from such a reward |
| RewardTables.SwitchTakes | act_class.c:1026-1046 | switching takes the old class's node off every skill that one of its revocable rewards names in the tables |
| RewardTables.SwitchGives | act_class.c:1048-1056 | and gives every skill that a reward of the new class up to its level names |
| RewardTables.GainGives | update.c:562-584 | a level gained gives every skill that a reward of exactly that level names |
| RewardTables.BonusRaises | act_class.c:413-427 | each bonus name raises one maximum and its permanent value; another name raises nothing |
| RewardTables.SameKey | act_class.c:60-90 | the ledger takes two rewards for one exactly if level and kind agree and their names differ in case at most |
| RewardTables.SkillRating | act_class.c:249-257 | a reward rates a skill one exactly if it says so and the skill had no rating |
| RewardCharacter.Character.ApplySkillReward | act_class.c:239-289 | the skill list in place |
| RewardCharacter.Character.ApplySkillNames | act_class.c:344-352 | the group loop in place |
| RewardCharacter.Character.HasRewardBeenApplied | act_class.c:60-90 | the ledger walk decides membership of the folded key |
| RewardCharacter.Character.MarkRewardApplied | act_class.c:103-126 | afterwards the reward reads as applied, and nothing has changed for any reward with another key or for any other class |
| RewardCharacter.Character.ApplyClassRewards | act_class.c:547-586 | the reward loop in place |
| RewardCharacter.Character.RevokeClassRewards | act_class.c:600-677 | the revocation loop in place |
| RewardCharacter.Character.RebuildSkillSources | act_class.c:699-751 | the nested rebuild loops in place |
| RewardCharacter.Character.SetActiveClass | act_class.c:1024-1056 | leaving, switching and applying in place |
| RewardCharacter.Character.GainLevelIn | update.c:562-584 | a level gained in a class, active or not, in place |
| Doors.RevDirInvolution | act_move.c:96-99 | the reverse-direction table is an involution without fixed points |
| Doors.RevDirLeadsBack | act_move.c:90-99 | the table holds, for each of the ten directions as a step in space, the one direction that leads back |
| Doors.LinkMeans | act_move.c:1957-1959 | two sides are a pair exactly if the exit in the opposite direction leads back |
| Doors.LinkBack | act_move.c:1957-1959 | a link between two sides is mutual and leads back to where it started |
| Doors.OnePair | act_move.c:1957-1959 | each exit record lies in at most one linked pair |
| Doors.FarSideSafe | act_move.c:1929-1971 | whether the far side stays safe by itself after the change made to it, exactly; if the change was allowed there too, it does |
| Doors.StillSafe | act_move.c:1929-1971 | a change that its own side allows, made on both sides, keeps every side safe and every pair in agreement |
| Doors.DoClose | act_move.c:2071-2100 | closes both sides exactly when allowed, keeps both safety properties everywhere |
| Doors.DoLock | act_move.c:2367-2411 | the same for locking |
| Doors.DoUnlock | act_move.c:2560-2604 | the same for unlocking |
| Doors.DoPick | act_move.c:2764-2815 | the same for picking, with the roll given |
| Doors.DoBar | act_move.c:4369-4413 | the same for barring |
| Doors.DoOpen | act_move.c:1922-1971 | comes back exactly when the lock turns or no key is needed, within two nested levels; then both sides are open and unlocked, or nothing has changed |
| Doors.JammedDoor | act_move.c:1942-1950 | a concrete jammed door with the key in hand: no depth of nesting comes back |
| Doors.Interleave | act_move.c:1922-2100 | any interleaving of the six commands keeps locked-implies-closed and barred-implies-closed on every exit and equal bits on every linked pair |
| DoorStories.SeenFromTheNorth | act_move.c:2090-2092 | two rooms: what the south door of the northern one shows while somebody in the southern one closes, locks and opens the door to the north |
| DoorStories.CloseAndOpen | act_move.c:1922-2100 | closing an open door in working order and opening it again leaves both sides as they were |
| DoorStories.LockAndUnlock | act_move.c:2367-2604 | so do locking and unlocking it |
| DoorStories.LockAndPick | act_move.c:2764-2815 | and locking and picking it |
| DoorStories.NotFound | act_move.c:1750-1812 | without an exit, without a door, or with a hidden one none of the six commands does anything |
| DoorStories.WithoutKey | act_move.c:2378-2382 | without the key a lock is neither locked nor unlocked, and a locked door not opened |
| DoorStories.Stuck | act_move.c:2383-2392 | a broken or jammed lock turns neither way, not even for an immortal's pick |
| DoorStories.PickFails | act_move.c:2777-2803 | a mortal's pick that fails, or tries a lock that does not work, leaves the lock as it was |
| DoorStories.ImmortalPicks | act_move.c:2764-2815 | an immortal's pick needs no roll: both sides are unlocked, and nothing else changes |
| DoorStories.Unfit | act_move.c:2071-2100 | a broken door does not close, and one that may not be barred or closed is not barred |
| DoorStories.BarHolds | act_move.c:1936-1940 | a barred door stays closed |
| Combine.PairStrongest | act_obj2.c:813-853 | the maximizing loop ends, having paired strongest first, or on a spell whose number the items do not have equally often |
| Combine.MatchStrongest | act_obj2.c:813-892 | with the leftover check it accepts exactly the items with equal multisets of spell numbers among spells of positive level, and then every such spell is paired |
| Combine.KthWithKth | act_obj2.c:816-850 | for every spell number the k-th strongest of one item is paired with the k-th strongest of the other |
| Combine.NoneStronger | act_obj2.c:917-924 | no other pairing of same spells blends into a higher strongest level, before the cap |
| Combine.AsStrong | act_obj2.c:917-924 | spell by spell: every pair of another pairing is matched by the first pair of its spell |
| Combine.TotalSame | act_obj2.c:917-924 | every complete pairing blends into the same total, before the cap |
| Combine.Strongest | act_obj2.c:818-837 | the inner loops find a strongest spell not yet paired, of one number or of any |
| Combine.PairInOrder | act_obj2.c:856-882 | the other branch goes through exactly when no spell has a mate, and then has paired nothing |
| Combine.MatchInOrder | act_obj2.c:856-892 | with the leftover check it accepts exactly when the second item has no spell of positive level |
| Combine.NearMissRefusesTwins | act_obj2.c:856-882 | two items with the same one spell are called different after a near miss |
| Combine.NearMissMerges | act_obj2.c:856-892 | exactly when a near miss merges the items that have the same spells, and no others |
| Combine.BlendLevels | act_obj2.c:917-924 | the blend loop in place, under the cap |
| Combine.DoCombine | act_obj2.c:712-932 | how the command ends and what becomes of levels, charges and items in each case; CombineTwins, CombineRefused and NearMissRefused say it without its own tests |
| CombineEffects.CombineTwins | act_obj2.c:776-932 | two items with the same spells: a roll within the skill mixes the k-th strongest spells of each number and uses up the second item alone, a roll that misses by more than seven destroys both |
| CombineEffects.CombineRefused | act_obj2.c:712-892 | no skill, items of other or different types, one item twice, one without spells, or, unless nearly missed, different spells: nothing happens to either item |
| CombineEffects.NearMissRefused | act_obj2.c:856-892 | a near miss of items whose second has a spell of positive level leaves both as they were |
| Aliases.AliasTable.DoAlias | alias.c:111-235 | update or append, and every refusal, as the list and the map prescribe |
| Aliases.AliasTable.DoUnalias | alias.c:249-314 | the shifting loop deletes exactly that name |
| Aliases.AliasTable.Substitute | alias.c:58-107 | substitution is one lookup of the first word in the map |
| Aliases.UpdatedMap | alias.c:200-232 | redefining or adding is one update of the finite map |
| Aliases.UpdatedTable | alias.c:200-232 | and keeps the table packed, within its size, with distinct allowed names |
| Aliases.RemovedMap | alias.c:284-310 | deleting is one deletion from the map |
| Aliases.RemovedOthers | alias.c:284-310 | and keeps the other entries in their order |
| Aliases.RunKeeps | alias.c:111-314 | every reachable table is packed, with distinct and allowed names |
| Aliases.ReservedNeverRewritten | alias.c:164-169 | in every reachable table a line whose first word is alias, or begins with una or quit, whatever the case of its letters, is left as it is |
| Aliases.AliasFires | alias.c:77-104 | in front of arguments a defined alias fires exactly unless its name begins with white space; AliasCarries says what the line becomes |
| Aliases.AliasCarries | alias.c:77-104 | what a line of an alias and arguments becomes, as text: the definition, a blank and the arguments, without white space between, cut at 511 characters |
| Aliases.BareAliasFires | alias.c:67-104 | typed alone it fires exactly when its name neither abbreviates alias or unalias nor begins with white space |
| Aliases.MuteAlias | alias.c:67-72 | the alias named al can be defined and does nothing alone |
| Aliases.Perform | alias.c:111-314 | a run on the arrays ends in the list of the run on values |
| AliasEffects.AliasTakes | alias.c:137-235 | which lines of the command change the table, exactly, and no other |
| AliasEffects.AliasShows | alias.c:197-217 | a name alone shows its definition, if it has one, and changes nothing |
| AliasEffects.Defines | alias.c:200-232 | defining in a table with room adds that one definition, whatever the name had before |
| AliasEffects.Undefines | alias.c:249-314 | removing takes exactly the named definition out, and says so exactly if there was one |
| AliasEffects.DefineAndUse | alias.c:58-235 | an alias just defined turns its name and arguments into its definition and the arguments |
| AliasEffects.RemoveAndUse | alias.c:58-314 | once removed it leaves the line as it is |
| AliasEffects.QuotedFirst | interp.c:1552-1580 | quotes of either kind hold blanks together in the first word |
| AliasEffects.NoTildes | alias.c:137-137 | no name and no definition in a reachable table has a tilde |
| Strings.LettersFold | merc.h:8959-8959 | each capital folds to its own small letter, and nothing else folds |

## Left out

- Text output, colour, logging, saving and loading, channels, history and account handling: input and output only.
- Script triggers, quest hooks, skill improvement and wait states.
- `mob assist ... group` (script_mpcmds.c:772-777) sets `leader`, `master` and `num_grouped` directly, without a group; the states it makes, in which `stop_grouped` does take its arm for legacy pointers, are outside the model.
- Formation slots, the display arms of the group command, pets and mounts being extracted with their owner.
- Groups are heap maps in one object rather than linked C structs: dangling pointers are modelled by keys that are gone, reuse of a freed address is not.
- GroupRuns.Login: a character enters with clear group fields and a player id that is not online; the rest of logging in is not part of this model.
- GroupTheorems.RunCap: assumes callers of `add_grouped` pass a leader or an ungrouped master, because without it the bound is false (see GroupFrames.AddGroupedCap).
- `move_char` and its follower recursion, portals, containers and books with locks: the door logic again without a second side.
- Doors.DoOpen: an object whose name is a direction would be found before the door by the nested commands; objects are not in the model.
- Wear and breakage of keys: a key in hand is a parameter of each command, and a nested open no longer needs it.
- RewardPools.RouteDoesNotMatter: assumes, as the design of the two flags intends, that every bonus is either one-time or revocable and that no turn is unfair; RewardPools.PathIndependence is exact without either.
- GainLevel: a gain has passed the guards on experience, free levels and the class maximum; the dice of `advance_level` and the racial cap on vitals are the growth it is given.
- Title, token, song, trait, script and custom rewards, class entry and leave callbacks, unequipping after a switch.
- The known-groups list and the legacy group flags that applying a group reward also sets: nothing modelled reads them.
- Skill checks and item searches before `do_combine` and `do_bar` act.
- C `int` overflow of levels, coins and pools: numbers are unbounded.
- Names of 512 characters and more in the alias commands, which overrun a fixed buffer in C; tables loaded from a player file rather than built by the commands.
