# A verified model of the networking core

This project models the stateful core of a client/server shooter sandbox and proves what its parts promise each
other. Times are whole microseconds, positions and interpolation factors are real numbers, floats in the archive
are 32-bit patterns, and randomness and the success of a send are inputs.

The parts, and the file or files that hold each:

- **Command replay archive** (`Format`, `FormatLaws`, `Codec`, `ReplayDemo`, `ArchiveWriter`, `ArchiveReader`, `ArchiveLimits`,
  `ReplayArchive`, `WireLaws`, `ArchiveOutcome`, `ArchiveTable`): a little-endian writer and reader of a deeply nested
  demo in two versions. `Format` describes binary formats once and `FormatLaws` proves their laws by induction; the
  classes of `Codec` and the methods of the archive are proved to compute what the formats say. The main result is the
  language of the archive: which buffers load, and as what. `ArchiveTable` is the file as one flat table of fields.
- **Lag compensation** (`Timeline`, `Paths`, `Geometry`, `LagCompensation`, `RewindLaws`, `RecordPace`, `HostClock`,
  `PlayerRewind`): per-entity histories pruned by age and by count. Pruning cannot be seen in the answers; `RecordPace`
  says how wide the cap must be for that, and `HostClock` that it is in a hosting process.
- **Interpolation** (`InterpolationBuffer`, `InterpolationLaws`): the client-side twin, with a teleport cut, and
  with nothing else cut.
- **What you see is what you hit** (`ShootWhatYouSaw`, `Shots`): the two buffers against each other at one time, and
  the shot from end to end, with the time the client shows, the time its command asks for, and a server that has gone
  on meanwhile; exactly, and within a proved bound when snapshots are lost, repeated or overtaken.
- **Prediction** (`Prediction`, `PredictionLaws`, `PredictionMap`, `ClientGate`, `ClientGateLaws`): pending
  commands, replay, corrections on the screen, several participants, and the client's sequence gate around them,
  over whole sessions.
- **Lossy proxy** (`Proxy`, `ProxyLaws`, `ProxyOrder`, `ProxyRoutes`): scheduling with dice, sorting and sending in a
  loop. Conservation of packets, order and timeliness over whole runs, and where every datagram goes, by the log of
  events alone.
- **Smaller cores**: the window's aspect ratio (`WindowPolicy`), the study event log (`StudyLog`) and the level
  files (`LevelText`, `LevelTextLaws`, `LevelLoadLaws`), both over `TextLines`.

Where the source changes state, the model does: classes with the source's fields, loops with invariants. Each
method is proved against a function of the old state, and the laws are lemmas about those functions and about the
runs made of them. A run is a sequence of events folded over the step functions.

Three statements were found to need a condition, and are given with it.

- The archive returns a saved demo if and only if the demo is within the reader's limits, which the writer does not
  check. `ArchiveOutcome.SavedLoadsAs` says what becomes of the others: a waypoint index of 2^32 or more silently loads
  as the index modulo 2^32, and a demo over any other limit does not load.
- A saved level loads as itself if and only if its name has no quote and no line end and is none of the words the
  loader looks for.
- What you see is what you hit, asked of the two buffers at one time not before the oldest sample of either, if and only
  if the time is after the client's oldest sample of the enemy or its newest state is where that oldest one is
  (`ShootWhatYouSaw.YouHitWhatYouSee`). Up to its oldest sample the client shows the newest state while the server
  rewinds to where the enemy was, so at that time it fails for an enemy that has moved (`FirstSampleDiffers`).

A shot uses two times. The client shows the enemies at its newest snapshot's time, plus the time since that arrived,
less the interpolation delay; its command carries only the first and the last of these. So the server is asked for a
time that lies behind the one shown, by the time since the snapshot arrived. `Shots.ShotTestsExactly` says what is
tested, for whatever is shown. Between two neighbouring samples of the client what you see is what you hit if and only
if that time is zero or the enemy has not moved between the two (`Shots.ShotTestsWhatYouSee`; `ElapsedMisses` is an
instance of the rest). A moving enemy is missed by no more than its speed times that time (`ShotOffByElapsed`). With
interpolation switched off the newest state is shown and its very time asked for, and the two always agree
(`UninterpolatedShotHits`).

The snapshots a client receives may be any of the server's worlds, as long as each is the first of its time: the server
keeps only that one, and another that is sent, as after an edit or a join in the same network step, is not what a shot
is tested against (`ShootWhatYouSaw.SecondOfItsTimeLost`).

A run of the lag compensation is compared with a never-pruning one under positive caps. With a cap of zero the
service keeps nothing, so once such a cap is raised the two may accept different samples (`RewindLaws.ZeroCapForgets`);
the server's own cap is at least 2. In `PredictionLaws` a run is disciplined when command numbers increase and
acknowledgements do not decrease; `ClientGateLaws` proves that every client session is, idle commands included, from
what the server promises: acknowledgements follow the numbering of snapshots, only commands the client has numbered are
acknowledged, and no snapshot arrives half the number range late.

## Model

| member | source | states |
|---|---|---|
| FormatLaws.DecExact | src/Codec.cpp:59-139 | A chain of reader calls from any offset succeeds with a value and an end offset exactly when the value is within the limits, is spelled there byte for byte, and ends there; both directions, for every nested format |
| FormatLaws.EmitSpells | src/Codec.cpp:9-50 | A chain of writer calls only appends, and what was in the buffer stays; an uncut value is spelled where it was appended |
| FormatLaws.LanguageOf | src/CommandReplayArchive.cpp:685-818 | A whole buffer reads as a value exactly when the value is within the limits of the format and the buffer is the written form of the value, up to the byte that spells true |
| FormatLaws.StreamLaw | src/Codec.cpp:9-147 | Typed reads matching any sequence of typed writes give back the values and stop at the end of the buffer |
| FormatLaws.DecIgnoresRest | src/Codec.cpp:59-135 | A read at any offset depends only on the bytes it consumes: appending bytes changes neither value nor end offset |
| FormatLaws.SpellsAgree | src/Codec.cpp:67-74 | Two buffers read as the same value agree on every byte outside the booleans |
| FormatLaws.AlikeSpells | src/Codec.cpp:67-74 | A buffer that agrees with a readable one outside the booleans, and is non-zero where it is, reads as the same value |
| FormatLaws.EmitSpellsBools | src/Codec.cpp:13-15 | A written boolean is the byte 0 or 1, at the offsets the layout names |
| Format.LETruncates | src/CommandReplayArchive.cpp:626-626 | Casting a size or an index to 32 bits on writing keeps it modulo 2^32 |
| Codec.ByteWriter.WriteU8 | src/Codec.cpp:9-11 | Appends the byte |
| Codec.ByteWriter.WriteBool | src/Codec.cpp:13-15 | Appends 1 for true, 0 for false |
| Codec.ByteWriter.WriteU16 | src/Codec.cpp:17-20 | Appends the two bytes, low first |
| Codec.ByteWriter.WriteU32 | src/Codec.cpp:22-26 | Appends four bytes, low first |
| Codec.ByteWriter.WriteU64 | src/Codec.cpp:28-32 | Appends eight bytes, low first |
| Codec.ByteWriter.WriteShifted | src/Codec.cpp:23-31 | The shift loop appends exactly the little-endian bytes of the number, for every width |
| Codec.ByteWriter.WriteI32 | src/Codec.cpp:34-36 | Appends the two's complement pattern |
| Codec.ByteWriter.WriteF32 | src/Codec.cpp:38-42 | Appends the bit pattern of the float |
| Codec.ByteWriter.WriteString | src/Codec.cpp:44-50 | Appends length and bytes, or throws exactly above 65535 bytes and then changes nothing |
| Codec.ByteReader.ReadU8 | src/Codec.cpp:59-65 | Succeeds exactly when a byte is left, and takes it |
| Codec.ByteReader.ReadBool | src/Codec.cpp:67-74 | Any non-zero byte is true |
| Codec.ByteReader.ReadU16 | src/Codec.cpp:76-84 | Succeeds exactly when two bytes are left; value and new offset are those of the little-endian number |
| Codec.ByteReader.ReadU32 | src/Codec.cpp:86-96 | The same for four bytes |
| Codec.ByteReader.ReadU64 | src/Codec.cpp:98-107 | The shift loop reads the little-endian number of eight bytes, all or nothing |
| Codec.ByteReader.ReadI32 | src/Codec.cpp:109-116 | Reads the two's complement pattern back |
| Codec.ByteReader.ReadF32 | src/Codec.cpp:118-125 | Reads the bit pattern of a float |
| Codec.ByteReader.ReadString | src/Codec.cpp:127-135 | Length and bytes, or a failure when either is cut short; on every path the offset never decreases and stays within the buffer |
| Codec.ByteReader.ReadCount | src/CommandReplayArchive.cpp:55-62 | A list count, refused above its limit |
| Codec.ByteReader.ReadEnum | src/CommandReplayArchive.cpp:90-98 | An enumeration byte, refused above its last value |
| ArchiveWriter.WriteVec3 | src/CommandReplayArchive.cpp:73-77 | Appends exactly the layout of the vector, field by field in the order of the source, and keeps what was there |
| ArchiveWriter.WritePlayerState | src/CommandReplayArchive.cpp:100-111 | Appends exactly the layout of the player state, field by field in the order of the source, and keeps what was there |
| ArchiveWriter.WriteRemoteActorState | src/CommandReplayArchive.cpp:127-136 | Appends exactly the layout of the remote actor, field by field in the order of the source, and keeps what was there |
| ArchiveWriter.WriteControlBinding | src/CommandReplayArchive.cpp:150-153 | Appends exactly the layout of the control binding, field by field in the order of the source, and keeps what was there |
| ArchiveWriter.WriteEnvironment | src/CommandReplayArchive.cpp:219-226 | Appends exactly the layout of the movement environment with its boxes, field by field in the order of the source, and keeps what was there |
| ArchiveWriter.WriteSimConfig | src/CommandReplayArchive.cpp:244-261 | Appends exactly the layout of the simulation constants, field by field in the order of the source, and keeps what was there |
| ArchiveWriter.WriteCommand | src/CommandReplayArchive.cpp:425-440 | Appends exactly the layout of the player command, field by field in the order of the source, and keeps what was there |
| ArchiveWriter.WriteCommandEvent | src/CommandReplayArchive.cpp:480-488 | Appends exactly the layout of the command event, field by field in the order of the source, and keeps what was there |
| ArchiveWriter.WriteSnapshotEvent | src/CommandReplayArchive.cpp:501-508 | Appends exactly the layout of the snapshot event, field by field in the order of the source, and keeps what was there |
| ArchiveWriter.WriteRosterEntry | src/CommandReplayArchive.cpp:166-184 | Completes exactly when its display name has at most 65535 bytes, and then appended the layout of the roster entry |
| ArchiveWriter.WriteWorldState | src/CommandReplayArchive.cpp:283-330 | Completes exactly when every roster name has at most 65535 bytes, and then appended the layout of the world state with its seven lists |
| ArchiveWriter.WriteRuntimeEvents | src/CommandReplayArchive.cpp:631-640 | Completes exactly when every key has at most 65535 bytes, and then appended the layout of the list of runtime events |
| ArchiveWriter.WriteKeyframes | src/CommandReplayArchive.cpp:649-659 | Completes exactly when every roster name in it has at most 65535 bytes, and then appended the layout of the list of keyframes |
| ArchiveWriter.WriteTracks | src/CommandReplayArchive.cpp:661-679 | Completes exactly when every player name has at most 65535 bytes, and then appended the layout of the list of client tracks |
| ArchiveWriter.WriteHeader | src/CommandReplayArchive.cpp:526-545 | Completes exactly when title and source label have at most 65535 bytes, and then appended the layout of the current-version header |
| ArchiveWriter.WriteCommandEvents | src/CommandReplayArchive.cpp:626-629 | Appends the count cut to 32 bits and every command event in order |
| ArchiveWriter.WriteCombatEvents | src/CommandReplayArchive.cpp:642-647 | Appends the count cut to 32 bits and every combat event in order |
| ArchiveWriter.WriteBytes | src/CommandReplayArchive.cpp:608-683 | Refused exactly for a version other than the current one, thrown out exactly when a string is too long, and otherwise the buffer is the image of the demo |
| ArchiveReader.ReadVec3 | src/CommandReplayArchive.cpp:79-84 | Succeeds exactly when the bytes from the offset on are a vector, and then returns that value and the offset behind it |
| ArchiveReader.ReadPlayerState | src/CommandReplayArchive.cpp:113-125 | Succeeds exactly when the bytes from the offset on are a player state, and then returns that value and the offset behind it |
| ArchiveReader.ReadRemoteActorState | src/CommandReplayArchive.cpp:138-148 | Succeeds exactly when the bytes from the offset on are a remote actor, and then returns that value and the offset behind it |
| ArchiveReader.ReadControlBinding | src/CommandReplayArchive.cpp:155-164 | Succeeds exactly when the bytes from the offset on are a control binding, and then returns that value and the offset behind it |
| ArchiveReader.ReadRosterEntry | src/CommandReplayArchive.cpp:186-217 | Succeeds exactly when the bytes from the offset on are a roster entry, with its four enumeration checks, and then returns that value and the offset behind it |
| ArchiveReader.ReadEnvironment | src/CommandReplayArchive.cpp:228-242 | Succeeds exactly when the bytes from the offset on are a movement environment, with its box limit, and then returns that value and the offset behind it |
| ArchiveReader.ReadSimConfig | src/CommandReplayArchive.cpp:263-281 | Succeeds exactly when the bytes from the offset on are a simulation constants, and then returns that value and the offset behind it |
| ArchiveReader.ReadWorldState | src/CommandReplayArchive.cpp:332-423 | Succeeds exactly when the bytes from the offset on are a world state, with the limits of its lists, and then returns that value and the offset behind it |
| ArchiveReader.ReadCommand | src/CommandReplayArchive.cpp:442-458 | Succeeds exactly when the bytes from the offset on are a player command, and then returns that value and the offset behind it |
| ArchiveReader.ReadCommandEvent | src/CommandReplayArchive.cpp:490-499 | Succeeds exactly when the bytes from the offset on are a command event, and then returns that value and the offset behind it |
| ArchiveReader.ReadSnapshotEvent | src/CommandReplayArchive.cpp:510-524 | Succeeds exactly when the bytes from the offset on are a snapshot event, and then returns that value and the offset behind it |
| ArchiveReader.ReadCommandEvents | src/CommandReplayArchive.cpp:704-715 | Succeeds exactly when the bytes from the offset on are a list of command events, and then returns that value and the offset behind it |
| ArchiveReader.ReadRuntimeEvents | src/CommandReplayArchive.cpp:717-736 | Succeeds exactly when the bytes from the offset on are a list of runtime events, and then returns that value and the offset behind it |
| ArchiveReader.ReadCombatEvents | src/CommandReplayArchive.cpp:738-750 | Succeeds exactly when the bytes from the offset on are a list of combat events, and then returns that value and the offset behind it |
| ArchiveReader.ReadKeyframes | src/CommandReplayArchive.cpp:752-774 | Succeeds exactly when the bytes from the offset on are a list of keyframes, and then returns that value and the offset behind it |
| ArchiveReader.ReadTracks | src/CommandReplayArchive.cpp:776-809 | Succeeds exactly when the bytes from the offset on are a list of client tracks, and then returns that value and the offset behind it |
| ArchiveReader.ReadHeader | src/CommandReplayArchive.cpp:547-579 | Accepts the two versions, reads the shot policy only for the current one and gives a legacy header the default policy |
| ArchiveReader.ReadBytes | src/CommandReplayArchive.cpp:685-818 | Returns a demo exactly when the buffer loads as one; the trailing-bytes error exactly when a demo ends before the buffer does |
| ArchiveLimits.DemoConforms | src/CommandReplayArchive.cpp:12-22 | The limits of the reader, written out field by field, are exactly those of the nested format: list counts, enumerations, string lengths, 32-bit waypoint indices, version |
| ArchiveLimits.WorldConforms | src/CommandReplayArchive.cpp:332-423 | The same for a world state |
| ReplayArchive.DemoInjective | src/CommandReplayArchive.cpp:608-683 | Two demos of one version with the same layout are the same demo |
| ArchiveTable.ImageIsTable | src/CommandReplayArchive.cpp:608-683 | The bytes a demo of either version is saved as, as one flat table: the letters NCMD, then every field in its order and width with the policy fields in the current version only, lists with their count in front, numbers lowest byte first, booleans 0 or 1, strings behind their length |
| ArchiveTable.EmitIsWritten | src/Codec.cpp:9-50 | Whatever the nesting, a chain of writer calls appends the fields of the value one after the other |
| ArchiveTable.DigitsAreLE | src/Codec.cpp:17-32 | Byte i of a written number is its digit for 256 to the power of i |
| ReplayArchive.LanguageOfArchive | src/CommandReplayArchive.cpp:608-818 | For both versions: a buffer loads as a demo exactly when the demo is within the limits and the buffer is its image, up to the spelling of true |
| ReplayArchive.RoundTrip | src/CommandReplayArchive.cpp:608-818 | The image of a demo loads as that demo if and only if the demo is within the limits |
| ReplayArchive.LoadsOne | src/CommandReplayArchive.cpp:685-818 | A buffer loads as one demo at most, whichever the version |
| ReplayArchive.SelfDelimiting | src/CommandReplayArchive.cpp:811-814 | If a buffer loads, no proper extension of it loads as anything, so no proper prefix of a loading buffer loads either |
| ReplayArchive.LoadingNormalises | src/CommandReplayArchive.cpp:608-818 | What a current buffer loaded as can be saved again: same length, same bytes outside the booleans, booleans 0 or 1, and the saved buffer loads as the same demo |
| WireLaws.WrittenReadsAs | src/Codec.cpp:9-147 | What is written of a value that fits its widths reads, under any limits, as that value or not at all |
| ArchiveOutcome.CutSameImage | src/CommandReplayArchive.cpp:283-330 | A demo and the demo with its waypoint indices modulo 2^32 are saved as the same bytes |
| ArchiveOutcome.CutWithinLimits | src/CommandReplayArchive.cpp:12-22 | A demo is within the limits exactly when its cut is and nothing was cut |
| ArchiveOutcome.SavedLoadsAs | src/CommandReplayArchive.cpp:608-818 | What a saved current demo loads as, its strings and counts fitting their prefixes: the demo with waypoint indices modulo 2^32 when that is within the limits, and nothing when it is not, so an over-large index silently loads as another demo and 65 client tracks do not load |
| ArchiveOutcome.SaveAndLoad | src/CommandReplayArchive.cpp:583-606 | Save and then load give back a current demo within the limits, a demo that comes back was within them, and any other one comes back cut or not at all |
| Timeline.SearchFinds | src/LagCompensation.cpp:165-175 | In an increasing history the search stops at the one pair of neighbours around a time, and at no earlier one |
| Timeline.EvictOverCap | src/LagCompensation.cpp:68-70 | The eviction loop leaves the newest samples, as many as the cap allows |
| Timeline.KeepAllAddsFirst | src/LagCompensation.cpp:100-108 | Of a batch recorded at one time a history takes the first value under its id, and only at a time newer than its last |
| Paths.PathLipschitz | src/LagCompensation.cpp:149-180 | A piecewise linear path is nowhere faster than its fastest segment, across samples and beyond both ends |
| Paths.PathNearChord | src/LagCompensation.cpp:22-38 | Between any two times such a path stays within half of speed times gap of the straight line between its points there |
| LagCompensation.PruneExpiredSamples | src/LagCompensation.cpp:54-71 | Both pruning loops together: first by age while the second sample is old enough, then by count |
| LagCompensation.LagCompensationService.Reset | src/LagCompensation.cpp:80-83 | Forgets every history and the order |
| LagCompensation.LagCompensationService.Reconfigure | src/LagCompensation.cpp:85-92 | Takes the new limits and prunes every history by them, dropping none |
| LagCompensation.LagCompensationService.RecordWorldState | src/LagCompensation.cpp:94-119 | Players, then enemies: the new order is theirs, and each history gains the target unless the time is not newer, and is pruned; what the targets are is in Shots.RewoundAlive, Shots.ShotTestsExactly and PlayerRewind.PlayerRewound |
| LagCompensation.ClampRewindTime | src/LagCompensation.cpp:121-132 | A time within the rewind window is kept, any other moved to the nearer end of the window |
| LagCompensation.LagCompensationService.RewindTargets | src/LagCompensation.cpp:134-183 | The rewound targets of the newest order at the clamped time, entities without history left out |
| RewindLaws.RewindAtSample | src/LagCompensation.cpp:149-180 | At the time of a kept sample the rewind answers that very sample |
| RewindLaws.RewindIsPath | src/LagCompensation.cpp:22-38 | Each coordinate of the rewound centre is the piecewise linear path through the samples |
| RewindLaws.RewindRadiusIsPath | src/LagCompensation.cpp:34-35 | The rewound radius is the piecewise linear path through the radii of the samples |
| RewindLaws.RewindFlags | src/LagCompensation.cpp:22-38 | Whether a rewound target is alive, and whose it is, is that of the first sample not before the time, or of the newest when there is none |
| RewindLaws.AnswersInOrder | src/LagCompensation.cpp:134-183 | In every run with room for a sample a request is answered with one target for each entity recorded last, in their order |
| PlayerRewind.PlayerRewound | src/LagCompensation.cpp:40-42 | Over whole runs of worlds, the rewound target of a player whose id no enemy has: centre, radius and alive, from the states of the worlds alone |
| RewindLaws.RewindLipschitz | src/LagCompensation.cpp:22-180 | If neighbouring samples move at most v per microsecond on an axis, so do the rewound centres at any two times |
| RewindLaws.PruningInvisible | src/LagCompensation.cpp:54-71 | A non-empty suffix of a full history answers like the full history at the later of the time and the suffix's first sample |
| RewindLaws.PrunedExactly | src/LagCompensation.cpp:54-71 | Pruning an increasing history keeps all of it, or as much as the cap holds, or an end that begins at or before the start of the window; and it leaves no second sample at or before that start and no more than the cap |
| RewindLaws.ReconfiguredExactly | src/LagCompensation.cpp:85-92 | New limits prune every history in just that way |
| RewindLaws.RunPrunesRightly | src/LagCompensation.cpp:54-118 | In every run that keeps its limits each history is its whole log, or as long as the cap allows, or reaches back to the start of the window at its newest sample, and holds at most one sample at or before that start |
| RewindLaws.RunPruningInvisible | src/LagCompensation.cpp:80-183 | In every run of records, reconfigurations and resets with positive caps: kept histories are ends of the never-pruned ones, within the cap, and answer like them from their first sample on |
| RewindLaws.RunWithinCap | src/LagCompensation.cpp:68-70 | In every run, whatever the caps, no history exceeds the current cap |
| RewindLaws.ZeroCapForgets | src/LagCompensation.cpp:54-71 | With a cap of zero, raised later, the service takes a second record of one time that a never-pruning one turns down |
| RecordPace.WideExactly | src/LagCompensation.cpp:54-71 | The cap never fires, in any run that records at the pace or slower and keeps its limits, if and only if it is at least one more than the rewind limit over the pace |
| RecordPace.PacedRunUnpruned | src/LagCompensation.cpp:121-183 | A run whose records come at one a pace, give or take some extra, under a cap wide for that, answers every rewind request as a service that never prunes |
| RecordPace.ServerLimits | src/ServerRuntime.cpp:160-169 | The limits the server chooses: the rewind limit in microseconds, and a cap of the ticks in it, rounded up, plus two |
| RecordPace.ServerLimitsWide | src/ServerRuntime.cpp:160-169 | The server's own limits are wide for records a tick apart, as long as the rounding of the tick adds up to no more than one tick over the window, and for ticks that are late and catch up when the tick is not rounded down |
| HostClock.Host.Advance | src/SessionFlowController.cpp:609-627 | One network step of the hosting process makes as many ticks as whole tick intervals have passed, all at the new clock |
| HostClock.HostTicksBursty | src/SessionFlowController.cpp:461-475 | The tick times of a hosting process come at one a tick, give or take one, whatever the tick |
| HostClock.HostRunSteady | src/SessionFlowController.cpp:461-475 | In a hosting process the cap of the server's limits never fires: at 60 ticks a second or more whatever is recorded, joins and edits included, and at any rate whose tick is not rounded down as long as only ticks record |
| RewindLaws.RewindAllOnly | src/LagCompensation.cpp:134-183 | Nothing is rewound but the entities of the newest order that have a history |
| RewindLaws.RunOwnTargets | src/LagCompensation.cpp:80-118 | In every run each history holds targets of its own entity only |
| RewindLaws.SteadyRunUnpruned | src/LagCompensation.cpp:121-183 | With fixed limits, a cap that never fires and no record after the current time, every rewind request is answered exactly as by a service that never prunes |
| InterpolationBuffer.InterpolationBuffer.Reset | src/InterpolationBuffer.cpp:55-58 | Forgets every history and the order |
| InterpolationBuffer.InterpolationBuffer.PushSnapshot | src/InterpolationBuffer.cpp:60-84 | The new order, and each history with the state appended, cut first where the entity teleported, capped after; older snapshots are ignored per entity |
| InterpolationBuffer.InterpolationBuffer.SampleEntities | src/InterpolationBuffer.cpp:86-126 | The states shown of the newest order, entities without history left out |
| InterpolationLaws.RunContinuous | src/InterpolationBuffer.cpp:60-84 | In every run every history is strictly increasing in time, within the cap and without a teleport between neighbours |
| InterpolationLaws.RunCutsRightly | src/InterpolationBuffer.cpp:60-84 | In every run with a positive cap, a history shorter than its log is as long as the cap, or what the log has just before it is more than the teleport distance away from its first state |
| InterpolationLaws.ShownInOrder | src/InterpolationBuffer.cpp:86-126 | In every run with a positive cap exactly the entities of the newest snapshot are shown, in its order, each as its own history has it |
| InterpolationLaws.RunSamples | src/InterpolationBuffer.cpp:86-126 | In every run sampling gives the interpolation of the two samples around the time strictly inside the window and the newest state everywhere else; the fall-through and the time-order guard are never reached |
| InterpolationLaws.SampleIsPath | src/InterpolationBuffer.cpp:28-48 | Inside the window each coordinate shown is on the piecewise linear path through the samples |
| InterpolationLaws.SampleFieldsArePaths | src/InterpolationBuffer.cpp:28-48 | Inside the window every field shown, of position, velocity, angles, health and radius, is on the path of that very field, and alive and id are those of the first sample not before the time |
| InterpolationLaws.RunStandsForLog | src/InterpolationBuffer.cpp:60-84 | In every run with a positive cap each history is a non-empty end of the log of accepted states |
| ShootWhatYouSaw.SameLogSameTarget | src/LagCompensation.cpp:134-183 | If both sides' histories are ends of one log, the rewound target is the enemy shown, centre lifted and radius equal, exactly when the state shown is where the log has the enemy; from the server's first sample on that is always after the client's first sample, and up to it exactly when the newest state is there |
| ShootWhatYouSaw.SameWorldsSameLog | src/LagCompensation.cpp:110-118 | Recording the same worlds, server and client accept the same states of an enemy whose id no player has |
| ShootWhatYouSaw.YouHitWhatYouSee | src/InterpolationBuffer.cpp:60-126 | The same over whole runs, sampling and rewinding at one time, any worlds, limits, teleports and evictions: at times not before either oldest sample the two agree if and only if the time is after the client's oldest sample or its newest state is where that one is; and what holds before each of them |
| ShootWhatYouSaw.FirstSampleDiffers | src/InterpolationBuffer.cpp:102-106 | An instance where the two differ, on any run of two worlds in which an enemy moves without a teleport: at the first time the client shows where it went and the server rewinds to where it was |
| ShootWhatYouSaw.YouHitNearWhatYouSee | src/InterpolationBuffer.cpp:60-126 | With snapshots lost, repeated or overtaken, each the first world of its time, and one time for both: an enemy no faster than v per axis is rewound to within v times half the gap between the client's two samples around the time, and outside their window to within v times the time to its newest sample |
| ShootWhatYouSaw.SecondOfItsTimeLost | src/LagCompensation.cpp:86-108 | Of two worlds of one time the server keeps the first; a client sent the second sees what is tested exactly when the enemy is in the same place in both |
| Shots.DelayMs | include/client/ClientSyncRuntime.hpp:327-335 | The delay of the interpolation: none when off, else two snapshot intervals in whole milliseconds, but at least 100 |
| Shots.AskedBehindShown | src/ServerRuntime.cpp:320-327 | The time a command asks for is the delay before the newest snapshot, or zero, and it is behind the time shown, by the time since that snapshot arrived, less where the clock is still below the delay |
| Shots.PresentedHas | include/client/ClientSyncRuntime.hpp:337-346 | An interpolated enemy of the newest snapshot is on the screen as the state its history gives |
| Shots.RewoundListed | src/ServerRuntime.cpp:395-408 | An enemy of the server's newest world is evaluated where it is rewound to, and nowhere else |
| Shots.FallsBack | src/ServerRuntime.cpp:395-408 | The current targets are tested exactly as long as no entity of the newest order has a history; otherwise nothing but rewound ones |
| Shots.RewoundAlive | src/LagCompensation.cpp:44-52 | Over whole runs of worlds, a rewound enemy whose id no player has is alive exactly when one state is alive and has health above zero: the first one recorded not before the time, or the newest when there is none |
| Shots.ShotTestsExactly | src/ServerRuntime.cpp:395-408 | The exact law of a shot, for whatever is shown: the state shown is among the targets under its id, alive and with a radius above zero so that it can be hit, if and only if the worlds have the enemy there, alive and with that radius, at the time asked for, clamped to the rewind window, or at the server's oldest sample when that is later; with a cap that never fires the last exception falls away |
| Shots.ShotTestsWhatYouSee | include/client/ClientSyncRuntime.hpp:139-146 | End to end, with the two times and a server that has gone on: where both fall between two samples of the client with no state lost between them, the enemy as shown is tested, and can be hit, if and only if the two times are one or the enemy has not moved between the samples, and it was alive and has an extent |
| Shots.AllReceivedNeighbours | src/InterpolationBuffer.cpp:60-84 | With every world received so far, no state is lost between any two samples of the client |
| Shots.NothingLostBetween | src/InterpolationBuffer.cpp:60-84 | With snapshots lost, two samples follow each other in the log as soon as no state of the enemy lies between them |
| Shots.ShotOnArrivalHits | include/client/ClientSyncRuntime.hpp:202-203 | A shot made as the newest snapshot arrives, all worlds so far received, hits what it sees between the client's oldest and newest sample exactly when the enemy was alive and has an extent |
| Shots.ElapsedMisses | include/client/ClientSyncRuntime.hpp:139-146 | An instance where it misses, on any run of two worlds in which an enemy moves without a teleport: a command made some time after the second snapshot arrived |
| Shots.ShotNearWhatYouSee | src/ServerRuntime.cpp:395-408 | With snapshots lost, repeated or overtaken: the target of an enemy no faster than v on an axis is off the state shown by no more than the bound of the rewind at one time, and v times the time between the time shown and the time asked for |
| Shots.ShotOffByElapsed | src/ServerRuntime.cpp:320-327 | While no state of the enemy is lost around the time shown, a shot is off by no more than v times the time since the newest snapshot arrived |
| Shots.UninterpolatedShotHits | include/client/ClientSyncRuntime.hpp:327-346 | With interpolation switched off the enemy is always tested as shown, alive or not, however long ago the snapshot arrived, within the rewind limit |
| Shots.PacedWorldsSteady | src/ServerRuntime.cpp:160-169 | Worlds at a pace for which the cap is wide never make it fire |
| Shots.HostedShotTestsExactly | src/SessionFlowController.cpp:461-475 | The exact law in a hosting process of 60 ticks a second or more, with no condition on cap, pace or history |
| Prediction.PredictionBuffer.Reset | src/PredictionBuffer.cpp:60-65 | State and display become the given state, nothing is pending, no correction runs |
| Prediction.PredictionBuffer.RecordCommand | src/PredictionBuffer.cpp:67-74 | The command is pending, applied to the prediction, shown, and ends a running correction |
| Prediction.PredictionBuffer.EraseAcked | src/PredictionBuffer.cpp:82-88 | Keeps exactly the commands numbered above the acknowledgement, in order |
| Prediction.PredictionBuffer.ReplayPending | src/PredictionBuffer.cpp:90-93 | The loop computes the fold of the simulator over the pending commands |
| Prediction.PredictionBuffer.Reconcile | src/PredictionBuffer.cpp:76-124 | The whole new state and result: pending commands, replay, and none, smooth or snap by the distance moved |
| Prediction.PredictionBuffer.AdvanceDisplay | src/PredictionBuffer.cpp:126-141 | The display moves along the correction by the elapsed share, and ends on its target |
| PredictionLaws.PendingIsUnacked | src/PredictionBuffer.cpp:82-88 | In every disciplined run the pending commands are exactly those recorded since the last reset and numbered above the last acknowledgement |
| PredictionLaws.PredictedIsReplay | src/PredictionBuffer.cpp:60-99 | In every disciplined run the predicted state is the replay of exactly those commands from the last base state |
| PredictionLaws.FaithfulServerNeverCorrects | src/PredictionBuffer.cpp:76-124 | If every authoritative state is the replay of the commands it acknowledges, then through the whole run the prediction is the replay of all commands, it is what is shown, and every reconciliation reports no correction |
| PredictionLaws.AgreeingServerKeepsPrediction | src/PredictionBuffer.cpp:90-106 | One reconciliation whose state agrees with the acknowledged pending commands leaves the prediction alone, and reports none exactly when the display is within 0.0001 of it |
| PredictionLaws.RunShows | src/PredictionBuffer.cpp:101-141 | In every run: no correction and display equal to prediction, or a correction whose target is the prediction, whose display lies on its segment and whose length is within 0.35 |
| PredictionLaws.ReconcileDecides | src/PredictionBuffer.cpp:76-124 | Of every reconciliation, by the squared distance D from the position shown to the replay: none exactly up to 0.0001, smooth exactly under the smooth strategy with D beyond 0.0001 and not beyond 0.35, snap exactly for the others; without smoothing the replay is shown and no correction runs, with it one runs from what was shown to the replay for at least a millisecond |
| PredictionLaws.CorrectionRuns | src/PredictionBuffer.cpp:126-141 | A running correction, in any run: after more time the display is as far on its way as the time spent is of the whole, and at the end of it there |
| PredictionLaws.DisplayNearPrediction | src/PredictionBuffer.cpp:11-11 | In every run the shown position is within 0.35 of the predicted one |
| PredictionLaws.SmoothReconcileHoldsStill | src/PredictionBuffer.cpp:108-120 | A smooth reconciliation moves neither shown position and velocity nor the shown angles |
| PredictionLaws.FrameRateInvisible | src/PredictionBuffer.cpp:126-141 | Advancing the display frame by frame shows the same as one frame of the total length, from every reachable state |
| PredictionLaws.SameStaysSame | src/PredictionBuffer.cpp:76-141 | States that look alike stay alike and report the same corrections whatever happens next |
| PredictionMap.PredictionBufferMap.Clear | src/PredictionBuffer.cpp:155-157 | Forgets every participant |
| PredictionMap.PredictionBufferMap.Find | src/PredictionBuffer.cpp:233-241 | The first participant with the id, or the end |
| PredictionMap.PredictionBufferMap.Ensure | src/PredictionBuffer.cpp:243-252 | Finds the participant or appends a new one |
| PredictionMap.PredictionBufferMap.ResetParticipant | src/PredictionBuffer.cpp:159-165 | Resets that participant's buffer, acknowledgement and corrections, and no other's |
| PredictionMap.PredictionBufferMap.RecordCommand | src/PredictionBuffer.cpp:167-172 | Records in that participant's buffer, and no other's |
| PredictionMap.PredictionBufferMap.Reconcile | src/PredictionBuffer.cpp:174-192 | Reconciles that participant's buffer, notes the acknowledgement and appends the result |
| PredictionMap.PredictionBufferMap.Look | src/PredictionBuffer.cpp:194-226 | The getters: the participant's values, or those of a fresh one when it is unknown |
| PredictionMap.ParticipantsIndependent | src/PredictionBuffer.cpp:155-252 | In every interleaved run ids are unique, a participant exists exactly when it was used since the last clear, and its buffer, acknowledgement and corrections are those of a buffer driven by its own operations only |
| ClientGate.ClientSync.HandleWorldSnapshot | src/ClientRuntime.cpp:2910-2922 | Another peer's or an older snapshot changes nothing; a newer one is applied as a whole |
| ClientGate.ClientSync.ApplySnapshot | include/client/ClientSyncRuntime.hpp:82-129 | Takes over acknowledgement and state, reconciles, and shows display or snapshot as prediction is on or off |
| ClientGate.ClientSync.ApplySettings | src/ClientRuntime.cpp:2611-2669 | Notes the announced settings, takes them over unless a change of the client's own is pending, and switches what is shown when prediction was toggled; nothing happens without a snapshot, a peer id or a human roster entry |
| ClientGate.ClientSync.UpdateLocalDeathState | src/ClientRuntime.cpp:3137-3158 | At death and respawn the prediction restarts from the authoritative state |
| ClientGate.ClientSync.ApplyInput | src/ClientRuntime.cpp:1645-1649 | Numbers the command and predicts it, or shows the newest snapshot when prediction is off |
| ClientGate.ClientSync.MaybeSendIdleKeepalive | src/ClientRuntime.cpp:4443-4455 | An idle command takes the next number, and is neither predicted nor kept |
| ClientGate.ClientSync.AdvanceFrame | src/ClientRuntime.cpp:1182-1185 | Advances the correction once there is a snapshot and prediction is on |
| ClientGate.ClientSync.PreviewSetting | src/ClientRuntime.cpp:2671-2732 | One setting changed in the overlay, ignored without a peer id; with prediction toggled, what is shown changes over once there is a snapshot |
| ClientGateLaws.NewerMeansLater | src/Protocol.cpp:1466-1469 | On 32-bit numbers the comparison agrees with the true counts whenever these are less than half the range apart |
| ClientGateLaws.AcceptedIsLater | src/ClientRuntime.cpp:2915-2919 | A snapshot for this peer is accepted exactly when it is numbered later than the newest accepted one, and then acknowledges no less |
| ClientGateLaws.SessionDisciplined | src/ClientRuntime.cpp:2910-2922 | However snapshots are lost, repeated or overtaken, the buffer is used with increasing command numbers and nondecreasing acknowledgements |
| ClientGateLaws.SessionPredicts | src/ClientRuntime.cpp:2910-2922 | Over whole client sessions the prediction is the replay, from the last state taken over, of exactly the commands not yet acknowledged |
| ClientGateLaws.SessionShows | include/client/ClientSyncRuntime.hpp:125-127 | What is shown is always the buffer's display while predicting and the newest snapshot otherwise |
| ClientGateLaws.SessionHoldsNewest | src/ClientRuntime.cpp:2910-2922 | In every session state, acknowledgement and number held are those of the newest accepted snapshot, the peer id is the last one given, and the command number counts the commands made |
| ClientGateLaws.FirstAccepted | src/ClientRuntime.cpp:2911-2917 | Before the first snapshot one is accepted exactly when it is for this peer or the client has no peer id yet, whatever its number |
| ClientGateLaws.ShownNearPrediction | src/ClientRuntime.cpp:1182-1185 | While predicting, the player is shown within 0.35 of the prediction |
| ClientGateLaws.OverrideHolds | src/ClientRuntime.cpp:2636-2663 | Through a whole session a setting the client changed holds, whatever is announced meanwhile, until a snapshot announces that very change |
| ClientGateLaws.SettingTakes | src/ClientRuntime.cpp:2671-2732 | A setting changed in the overlay of a client with a peer id is in force at once, a smoothing window clamped to 1000 ms, and no other setting changes |
| ClientGateLaws.AnnouncedInForce | src/ClientRuntime.cpp:2636-2663 | With nothing changed by the client, the settings in force are those of the last accepted announcement |
| ClientGateLaws.DeathTakesOver | src/ClientRuntime.cpp:3137-3158 | A snapshot at death or respawn leaves the authoritative state shown and predicted, with nothing pending |
| Proxy.ProxyRuntime.EnsureLinkState | src/ProxyRuntime.cpp:127-142 | The link, made with the direction's default configuration when missing |
| Proxy.Decide | src/ProxyRuntime.cpp:186-223 | One datagram is dropped or queued once or twice, with consecutive order numbers, never due before now, and its counters add up |
| ProxyOrder.MicrosNearest | src/ProxyRuntime.cpp:37-46 | A delay in milliseconds becomes the nearest whole number of microseconds, none when negative and the largest 64-bit number beyond that |
| ProxyOrder.DelayWithinJitter | src/ProxyRuntime.cpp:193-199 | A jitter drawn within its magnitude delays by the base plus or minus that magnitude, to the nearest microsecond, clamped to 0 and to 64 bits |
| ProxyOrder.DiceDecide | src/ProxyRuntime.cpp:186-223 | Lost exactly on the loss roll, due at once exactly when the reorder roll finds a queue to overtake, duplicated a microsecond later exactly on the duplicate roll |
| ProxyOrder.SortedSorts | src/ProxyRuntime.cpp:342-349 | With distinct order numbers sorting gives the strictly increasing arrangement of the same relays |
| Proxy.ProxyRuntime.Admit | src/ProxyRuntime.cpp:186-223 | Rolls the dice in the order of the source and queues the outcome at the end |
| Proxy.ProxyRuntime.ScheduleRelay | src/ProxyRuntime.cpp:173-226 | The whole new state: link, counters of link and direction, queue, order numbers, queue lengths |
| Proxy.ProxyRuntime.UpdateQueuedStats | src/ProxyRuntime.cpp:151-171 | Every queue length becomes the number of queued relays of its link or direction |
| Proxy.ProxyRuntime.RelayClientPackets | src/ProxyRuntime.cpp:239-285 | Learns routes, schedules every parsed datagram upstream and forks exactly the command bundles, in order |
| Proxy.ProxyRuntime.RelayServerPackets | src/ProxyRuntime.cpp:287-337 | Schedules downstream what has a route; a welcome of a known session makes the peer's route |
| Proxy.ProxyRuntime.SendDue | src/ProxyRuntime.cpp:351-370 | The erase-in-loop forwards exactly the due relays whose send succeeds, in queue order, counts them and keeps the rest in order |
| Proxy.ProxyRuntime.Advance | src/ProxyRuntime.cpp:234-373 | A tick: arrivals, sorting, sending, queue lengths; returns what it forwarded and forked |
| Proxy.ProxyRuntime.SetDefaultLinkConfig | src/ProxyRuntime.cpp:375-381 | Changes one direction's default and nothing else |
| Proxy.ProxyRuntime.SetPeerLinkConfig | src/ProxyRuntime.cpp:383-393 | Replaces the link, counters and all |
| Proxy.ProxyRuntime.PeerLinkConfig | src/ProxyRuntime.cpp:399-407 | The link's configuration, or the default |
| ProxyLaws.SortedSame | src/ProxyRuntime.cpp:342-349 | Sorting loses and makes no relay |
| ProxyLaws.Conservation | src/ProxyRuntime.cpp:127-226 | In every run, after every tick, in each direction: received and duplicated equal dropped, forwarded and queued; on each link with the relays in flight at its last reconfiguration added on the left |
| ProxyRoutes.RunAgrees | src/ProxyRuntime.cpp:239-335 | In every run the routes and the configurations are those of the log of events: a peer's endpoint is the sender of its newest parsed datagram, or the endpoint of the session whose welcome named it, whichever is later, and a link is under the settings last given to it or else those its direction had when it came into being |
| ProxyRoutes.TickRoutes | src/ProxyRuntime.cpp:239-337 | What every tick of every run does with each arrival, in order: a parsed client datagram goes to the server, a server datagram to the endpoint of its peer, or of the welcomed session, when the log has one; each counts as received on its link and is lost exactly on the loss roll of that link's settings, and else queued once or twice under its link, destination and payload with the next order numbers |
| ProxyRoutes.FirstCopiesAreSent | src/ProxyRuntime.cpp:173-226 | The first copies ever queued on a link are, in order, the datagrams of the log with a route that were not lost: link, destination and payload |
| ProxyRoutes.BundleForked | src/ProxyRuntime.cpp:262-276 | Every parsed command bundle is forked |
| ProxyRoutes.OnlyBundlesForked | src/ProxyRuntime.cpp:262-276 | Nothing but a parsed command bundle is forked |
| ProxyLaws.LinkBalancesIffNoCarry | src/ProxyRuntime.cpp:383-393 | Without that carry the books of a link balance if and only if nothing was in flight at its last reconfiguration |
| ProxyLaws.RunAllLinked | src/ProxyRuntime.cpp:365-369 | In every run every queued relay has an entry for its link |
| ProxyOrder.EveryTickSorted | src/ProxyRuntime.cpp:342-370 | In every run each tick forwards only due relays, in strictly increasing order of due time and arrival |
| ProxyOrder.TickSplits | src/ProxyRuntime.cpp:342-370 | A tick forwards exactly the due relays whose send succeeds and keeps exactly the others |
| ProxyOrder.StreamSorted | src/ProxyRuntime.cpp:342-370 | With a forward clock and successful sends the whole stream over all ticks and links is strictly increasing in due time and arrival, nothing leaves early and nothing due stays |
| ProxyOrder.ConstantLinkFifo | src/ProxyRuntime.cpp:173-226 | On a link with constant delay, no jitter and no reordering the first copies of its packets have been forwarded exactly when due, in order of arrival, over all ticks |
| WindowPolicy.Rounded | src/DisplayManager.cpp:189-196 | Rounding to the nearest whole number, halves up, in exact arithmetic |
| WindowPolicy.LockIsOnRatio | src/DisplayManager.cpp:176-213 | For any sizes: at least the minimum, the deciding dimension kept, the other within half a pixel of 16 to 9 |
| WindowPolicy.LockKeepsDragged | src/DisplayManager.cpp:198-212 | On clamped sizes: the dimension that changed more is kept as requested, and on a tie the one whose derived change of the other is no larger, the width when these are equal |
| WindowPolicy.PolicyKeepsDragged | src/DisplayManager.cpp:511-530 | One pass measures the change against the remembered size; with none remembered it keeps the dimension whose derived change of the other is no larger |
| WindowPolicy.LockIdempotent | src/DisplayManager.cpp:182-213 | Locking a locked size, against itself, changes nothing |
| WindowPolicy.PolicySettles | src/DisplayManager.cpp:511-530 | After one pass of the policy further passes leave the window as it is |
| WindowPolicy.Display.CacheWindowSize | src/DisplayManager.cpp:215-217 | Remembers the size, clamped |
| WindowPolicy.Display.LockAspectRatio | src/DisplayManager.cpp:182-213 | The branches of the source compute the locked size |
| WindowPolicy.Display.UpdateWindowPolicy | src/DisplayManager.cpp:511-530 | One pass: a window that is ready and not minimised becomes the locked size, is remembered, and is resized only when it differs; any other is left alone |
| StudyLog.EscapeJsonString | src/StudyEventLog.cpp:16-58 | The loop escapes every byte of the string in order |
| StudyLog.EscapeDecodes | src/StudyEventLog.cpp:16-58 | A decoder after section 7 of RFC 8259 gives back every byte string and stops right behind its closing quote |
| StudyLog.EscapedPrintable | src/StudyEventLog.cpp:42-47 | No control byte survives escaping |
| StudyLog.AppendJsonValue | src/StudyEventLog.cpp:60-79 | Appends the text of the value: quoted and escaped, decimal, null or true and false |
| StudyLog.SerializeRecord | src/StudyEventLog.cpp:218-231 | The loop writes all fields in order, separated by commas, in braces |
| StudyLog.RecordReads | src/StudyEventLog.cpp:218-231 | A reader of the line gets the same keys in order, the same strings byte for byte and the meanings of the other values |
| StudyLog.SerializedPrintable | src/StudyEventLog.cpp:218-231 | A serialised record has no newline or other control byte in it |
| StudyLog.DecimalReturns | src/StudyEventLog.cpp:75-75 | A printed whole number reads back as itself |
| StudyLog.ScalarMeans | src/StudyEventLog.cpp:60-79 | A reader takes the printed scalars for what they are: true and false as truth values, null as null, whole numbers as that number, any other as its text |
| StudyLog.FileReads | src/StudyEventLog.cpp:173-180 | A file of written lines splits at its newlines into as many records, each read back as written |
| StudyLog.AppendedFileSplits | src/StudyEventLog.cpp:155-163 | Appending to a file of complete lines keeps them and adds one line a record |
| StudyLog.EventRecord.Add | src/StudyEventLog.cpp:104-147 | Appends the field, keeping the others |
| StudyLog.TornFileSplits | src/StudyEventLog.cpp:173-180 | A line cut short by a failed write comes last and disturbs no other line |
| StudyLog.JsonlWriter.Write | src/StudyEventLog.cpp:173-180 | Adds one line for the record, or nothing when the file is not open or has failed before; a write that fails leaves a part of its line and never succeeds again |
| LevelText.SaveLevelDefinition | src/LevelData.cpp:119-200 | The loops print exactly the lines of the level, commas between objects and none behind the last |
| LevelText.GatherColor | src/LevelData.cpp:235-269 | Takes further lines until the colour array is closed, and reads its numbers |
| LevelText.LoadLevelDefinition | src/LevelData.cpp:211-379 | The loop over the lines computes the level for any file, and ends on any file |
| LevelTextLaws.OnlyKey | src/LevelData.cpp:278-311 | A printed line with one quoted key is found under that key and no other |
| LevelTextLaws.ColorReads | src/LevelData.cpp:243-265 | A printed colour is read back whatever non-numeric text stands around it |
| LevelTextLaws.RestRuns | src/LevelData.cpp:271-372 | The printed lists of any lengths load as themselves |
| LevelTextLaws.LoadClean | src/LevelData.cpp:305-310 | On any lines at all the loaded name has no quote and no line end |
| LevelTextLaws.SavedLoadsIff | src/LevelData.cpp:119-379 | For levels whose numbers survive printing: the saved file loads as the level if and only if the name has no quote and no line end and is none of areas, obstacles, enemies, floorPatches |
| LevelTextLaws.SaveAndLoad | src/LevelData.cpp:119-379 | Save and then load give the level back exactly then |
| LevelLoadLaws.PatchesIgnored | src/LevelData.cpp:286-293 | In any file the floor patches are skipped as a whole, from the line that names them to the first with a closing bracket |
| LevelLoadLaws.BareObject | src/LevelData.cpp:313-372 | An object without fields becomes the default one of its section |
| LevelLoadLaws.ColorTaken | src/LevelData.cpp:235-269 | A colour of four numbers or more is its first four, each modulo 256, a shorter one the next of the palette, in turn; no other colour changes |
| TextLines.JoinedSplits | src/LevelData.cpp:271-271 | Lines without a line end inside come back as they were written |

## Left out

- Sockets, `deserializePacket`, files and directories: replaced by sequences of arrivals, bytes and lines.
- Random generators: the draws are inputs, so seeding and the reproducibility of a seed are not modelled.
- Movement physics, the hitscan test and the server's simulation: `applyPlayerCommand` is any function of state, command and arena; in `SteadyRunUnpruned`, `ShootWhatYouSaw` and `Shots` the recorded worlds are arbitrary.
- Floating-point rounding and `sqrt`: interpolation uses real numbers, and distances are compared squared, a bound being squared with them; the magnitude of a correction is kept squared.
- Wrap-around of command numbers, order numbers, packet counters and of the current time plus a delay: these are unbounded, as the source compares and adds them plainly. The wrap-around of snapshot sequence numbers is modelled.
- ArchiveReader.ReadBytes: error messages are told apart as header, events and trailing bytes, not list by list; what the output holds after a failure is not described.
- ArchiveReader.ReadHeader: enumerations are kept as their raw bytes, with the reader's range checks.
- ArchiveWriter.WriteBytes: a missing output argument and the text of the errors are left out.
- PredictionMap.PredictionBufferMap.Reconcile: the map holds its buffers as values, not as objects, so the reference that the source returns into its vector is not modelled.
- PredictionLaws.PredictedIsReplay: the last base state and the commands since must belong to one arena; arenas may change before.
- RewindLaws.RunPruningInvisible: stated for positive caps; `RewindLaws.ZeroCapForgets` shows why.
- Shots.ShotTestsExactly: the enemy is in the newest world the server has recorded, and its limits stay; shots evaluated against control positions instead of the seen ones are left out; what the server rewinds of the players is in `PlayerRewind.PlayerRewound`, what the client shows of them is not modelled.
- HostClock.HostRunSteady: a tick rate that changes during the run reconfigures the service and is not covered; below 60 ticks a second joins and edits between ticks can make the cap fire, which `Shots.ShotTestsExactly` covers.
- ArchiveOutcome.SavedLoadsAs: no list has 2^32 elements or more.
- RecordPace.ServerLimits: the rewind seconds times the rate are rounded up exactly, where the source rounds a floating-point product.
- ClientGate.ClientSync.ApplySnapshot: rosters, scores, metadata and the remote players of a snapshot are left out; the interpolation buffers they feed are modelled on their own.
- ClientGate.ClientSync.ApplySettings: a pending change is also written back into the client's copy of the roster, which is left out.
- ClientGate.ClientSync.ApplyInput: the rest of the frame, such as menus and spectating, is left out.
- ClientGate.ClientSync.MaybeSendIdleKeepalive: whether the keep-alive interval is over is an input.
- Proxy.ProxyRuntime.Advance: binding and stopping the sockets, the last error and the contents of a forked control packet are left out; a tick before the start does nothing in the source.
- Proxy.ProxyRuntime.SendDue: whether a send succeeds is asked once for each relay and tick, by its order number.
- WindowPolicy.Display.UpdateWindowPolicy: the window takes the size it is given; the refresh of input transforms and metrics is left out.
- StudyLog.JsonlWriter.Write: how many bytes the stream still takes is an input.
- StudyLog.AppendJsonValue: the digits of a printed double are an input, any non-empty text of digits, signs, points and exponents.
- LevelTextLaws.SavedLoadsIff: printing and `strtof` are inputs; the numbers of the level are those that come back, printed without quotes, brackets, braces or line ends.
- The level's schema fingerprint, level slots, and drawing, menus, editor, cameras and key bindings: easy beside the above, or user interface.
- `LagCompensationHistory`: it only passes its calls on to the service.
