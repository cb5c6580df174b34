# Audio manager and bounding boxes, modelled in Dafny

This project models two parts of a small OpenGL/OpenCV game demo.

**The bank-based `AudioManager`** (`src/lib/audio/audio_manager.cpp`,
`src/lib/audio/audio_manager.hpp`) keeps four containers:

- `sound_bank` and `bgm_bank`: name-keyed registries of sound templates;
- `active_sounds`: the ordered list of playing one-shot instances;
- `current_bgm`: one optional background-music slot.

It updates them one call at a time. The model is a Dafny class,
`Audio.AudioManager`, with these fields:

- `soundBank` and `bgmBank` are `map<string, Sound>`;
- `activeSounds` is `seq<Sound>`;
- `currentBgm` is `Option<Sound>`.

Two more fields model the heap behind `ManagedSound`, a `unique_ptr` with
`MaSoundDeleter`. `live` is the set of `ma_sound` allocations made and not yet
freed. `nextId` gives each new allocation an identity that was never used
before. The invariant `Valid()` says three things:

- every live allocation is owned by exactly one slot;
- every owned allocation is live;
- no slot shares an allocation with another.

Every method keeps `Valid()`. The model therefore shows that no call leaks a
sound or frees one twice. It also shows that replacing a bank entry frees the
old entry.

`Sound` (module `Sounds`) is a record of what miniaudio reports about one
sound:

- the allocation's identity and the clip it plays;
- stream or decode mode;
- playing, at end, volume, spatialization, position;
- minimum and maximum distance, looping, read frame.

Engine calls are record updates, such as `ma_sound_start` setting `playing`.
Engine outcomes are method parameters. `fileExists` stands for
`std::filesystem::exists`. `decodeOk` stands for `ma_sound_init_from_file`
returning `MA_SUCCESS`. `copyOk` stands for `ma_sound_init_copy` returning
`MA_SUCCESS`.

A freshly initialised sound gets miniaudio's defaults:

- stopped at frame 0;
- volume 1 and spatialization on;
- minimum distance 1 and maximum distance `MA_FLOAT_MAX`.

`ma_sound_init_copy` shares the template's data but starts from these same
defaults. This is why `play` copies the template's volume by hand (line 158).
As written, `play_3D` instances keep the default volume and fall-off distances,
not the template's.

Two behaviours of the code are modelled as written:

- `play_BGM` never assigns `current_bgm`. It stops the slot's sound if the slot
  is filled, but it only reconfigures and starts the bank entry.
  - Nothing in the class ever fills the slot, so `stop_BGM` and `change_volume`
    act only on a slot filled some other way.
  - Two `play_BGM` calls leave both tracks playing.
  - `Audio.BgmSlotStaysEmpty` shows this on a fresh manager.
- `play` is defined in the .cpp but not declared in the header. It is modelled
  as defined.

Starting a BGM therefore does not stop the previous one, and more than one BGM
can play at a time. The model has no "single live BGM" invariant.

**The axis-aligned bounding box** (`src/lib/physics.hpp`) is the datatype
`Physics.AABB` over real triples. `Intersects` and `Contains` are the source's
inclusive comparisons. The lemmas relate them per axis and show that
`Intersects` is symmetric. They show that touching counts as intersecting,
that a box holds its corners exactly when it is well formed, and that two
well-formed boxes intersect exactly when they share a point. The last one
holds in both directions. The well-formedness condition cannot be dropped, and
a lemma gives a counterexample.

## Model

| member | source | states |
|---|---|---|
| Physics.IntersectsPerAxis | src/lib/physics.hpp:10-14 | intersects holds iff, on every axis, min <= other.max and other.min <= max |
| Physics.ContainsPerAxis | src/lib/physics.hpp:16-20 | contains(p) holds iff every coordinate of p lies in [min, max] inclusive; a box that contains a point has min <= max on every axis |
| Physics.IntersectsSymmetric | src/lib/physics.hpp:10-14 | a.intersects(b) == b.intersects(a) |
| Physics.TouchingBoxesIntersect | src/lib/physics.hpp:11-13 | well-formed boxes meeting only at a face (a.max.x == b.min.x, overlapping on y and z) intersect |
| Physics.SelfIntersection | src/lib/physics.hpp:10-20 | a box intersects itself iff min <= max on every axis, iff it contains its min corner, iff it contains its max corner |
| Physics.CommonPointIntersects | src/lib/physics.hpp:10-20 | two boxes that both contain a point intersect |
| Physics.IntersectionWitness | src/lib/physics.hpp:10-20 | two well-formed intersecting boxes both contain the corner made of the larger minimum on each axis |
| Physics.IntersectsIffCommonPoint | src/lib/physics.hpp:10-20 | for well-formed boxes, intersects holds iff some point lies in both |
| Physics.InvertedBoxIntersectsWithoutCommonPoint | src/lib/physics.hpp:10-20 | a box inverted on x passes intersects against the unit box although it contains no point |
| Sounds.InitFromFile | src/lib/audio/audio_manager.cpp:41-42 | a freshly initialised sound (also at 68-69) holds its own allocation and clip in the requested mode, is stopped at frame 0 and not looping, so the sweep would erase it, and has miniaudio's defaults: volume 1, spatialized at the origin, distances 1 and MA_FLOAT_MAX |
| Sounds.InitCopy | src/lib/audio/audio_manager.cpp:109 | a copy (also at 152) shares the template's clip and mode in a new allocation, but is stopped and has the default volume, position and distances, not the template's |
| Sounds.InitCopyIgnoresAttributes | src/lib/audio/audio_manager.cpp:152 | two templates with the same clip and mode give the same copy, whatever volume or distances they were loaded with |
| Sounds.StillAudible | src/lib/audio/audio_manager.cpp:194 | an instance is kept exactly when the erase predicate (not playing, or at end) is false |
| Sounds.Survivors | src/lib/audio/audio_manager.cpp:190-196 | what the update sweep keeps is no longer than its input, and every kept instance is playing, not at end, and came from the input |
| Sounds.Reaped | src/lib/audio/audio_manager.cpp:190-196 | every instance the sweep erases is stopped or at end and came from the input |
| Sounds.SurvivorsAppend | src/lib/audio/audio_manager.cpp:190-196 | sweeping a + b gives the sweep of a followed by the sweep of b, so kept and erased instances stay in their original order |
| Sounds.SurvivorsCount | src/lib/audio/audio_manager.cpp:190-196 | each audible instance is kept as many times as it occurs, and no other instance is kept |
| Sounds.ReapedCount | src/lib/audio/audio_manager.cpp:190-196 | each stopped or finished instance is erased as many times as it occurs, and no audible instance is erased |
| Sounds.SweepPartition | src/lib/audio/audio_manager.cpp:190-196 | every instance is either kept or erased, never both and never neither (multiset equation) |
| Sounds.SurvivorsMembership | src/lib/audio/audio_manager.cpp:194 | an instance survives iff it was in the list, is playing and is not at end |
| Sounds.SurvivorsIdempotent | src/lib/audio/audio_manager.cpp:188-197 | a second sweep right after the first keeps everything and erases nothing |
| Sounds.SurvivorsOfAudible | src/lib/audio/audio_manager.cpp:188-197 | a list of instances that are all playing and not at end is left unchanged |
| Ownership.MapIdsPutFresh | src/lib/audio/audio_manager.cpp:56 | storing a new allocation under a name keeps one allocation per name; the bank owns the new one and no longer owns the replaced one |
| Ownership.MapIdsPutSame | src/lib/audio/audio_manager.cpp:132-140 | reconfiguring a bank entry in place changes no ownership |
| Ownership.SeqIdsSnoc | src/lib/audio/audio_manager.cpp:117 | pushing a new allocation onto the list keeps allocations distinct and adds exactly that one |
| Ownership.DistinctIdsSurvivors | src/lib/audio/audio_manager.cpp:190-196 | if no two active instances share an allocation, none of the instances the sweep keeps share one either |
| Ownership.SweepIds | src/lib/audio/audio_manager.cpp:190-196 | the sweep splits the list's allocations into kept and erased, disjointly, and the kept list has distinct allocations |
| Ownership.SweepKeepsOwnership | src/lib/audio/audio_manager.hpp:19 | after the sweep every allocation still has one owner, and the owned set has lost exactly the erased instances |
| Audio.Clamp | src/lib/audio/audio_manager.cpp:178 | std::clamp: the result lies in [lo, hi]; it is v exactly when v is in range, lo at or below lo, hi at or above hi |
| Audio.SteppedVolume | src/lib/audio/audio_manager.cpp:177-179 | the new BGM volume lies in [0, 1]; it is old + 0.05 * change when that is in range, 0 or 1 when past a bound, and never below (above) an in-range old volume for a non-negative (non-positive) change |
| Audio.SteppedVolumeRepeated | src/lib/audio/audio_manager.cpp:173-180 | after one or more change_volume steps the volume lies in [0, 1], whatever the start and the changes |
| Audio.SteppedVolumeUndo | src/lib/audio/audio_manager.cpp:178 | over real arithmetic only: a step followed by the opposite step restores an in-range volume when the first step does not clamp (the float code does not round-trip; see "Left out") |
| Audio.LoadedTemplate | src/lib/audio/audio_manager.cpp:41-54 | the template load stores: decoded (not streamed) from the file, stopped at frame 0, with the requested distances and volume and otherwise the defaults |
| Audio.LoadedBgm | src/lib/audio/audio_manager.cpp:68-96 | the template load_BGM stores: streamed from the file, stopped at frame 0, with the requested volume and otherwise the defaults |
| Audio.RestartedBgm | src/lib/audio/audio_manager.cpp:134-140 | play_BGM's bank entry keeps its allocation, clip, mode, position and distances, and becomes audible, looping, at frame 0, at the given volume and unspatialized |
| Audio.AudioManager.constructor | src/lib/audio/audio_manager.cpp:12-19 | a new manager has empty banks, no instances, no BGM and no live allocations |
| Audio.AudioManager.MakeManagedSound | src/lib/audio/audio_manager.cpp:7-10 | allocates one ma_sound whose identity was never live before |
| Audio.AudioManager.DeleteSound | src/lib/audio/audio_manager.hpp:10-17 | a null pointer changes nothing; otherwise the sound must be live and is freed, so it is freed once |
| Audio.AudioManager.Load | src/lib/audio/audio_manager.cpp:28-57 | a missing file or failed decode leaves all four containers and the live set unchanged; otherwise sound_bank[name] becomes a fresh decoded template with the given distances and volume, the replaced entry is freed (for a new name exactly one allocation is added to the live set), and nothing else changes |
| Audio.AudioManager.LoadBgm | src/lib/audio/audio_manager.cpp:58-99 | a failure changes nothing; otherwise only bgm_bank[name] changes, to a fresh streamed template at the given volume, and the replaced entry is freed (for a new name exactly one allocation is added to the live set); sound_bank is never touched |
| Audio.AudioManager.Play3D | src/lib/audio/audio_manager.cpp:101-119 | false with no change on a bank miss or a failed copy; otherwise true, and exactly one started copy of the template's clip at (x, y, z), in a fresh allocation, is appended; banks and BGM slot unchanged |
| Audio.AudioManager.PlayBgm | src/lib/audio/audio_manager.cpp:121-143 | false with no change on an unknown name; otherwise the bank entry itself is rewound, looping, at the given volume, unspatialized and started; a filled slot is stopped but never emptied or assigned |
| Audio.AudioManager.Play | src/lib/audio/audio_manager.cpp:145-163 | false with no change on a bank miss or a failed copy; otherwise true, and exactly one started, unspatialized copy carrying the template's volume is appended; banks and BGM slot unchanged |
| Audio.AudioManager.StopBgm | src/lib/audio/audio_manager.cpp:164-171 | the slot ends empty and its sound, if any, is freed; with an empty slot nothing changes, so a second call is a no-op |
| Audio.AudioManager.ChangeVolume | src/lib/audio/audio_manager.cpp:173-180 | nothing changes without a current BGM; otherwise only its volume changes, to the clamped step, which lies in [0, 1] |
| Audio.AudioManager.EngineStopsInstance | src/lib/audio/audio_manager.cpp:194 | the engine stopping active instance i (at its end or not) changes only that instance's playing and at-end flags, keeps its allocation and every ownership invariant, and makes it one the sweep erases |
| Audio.AudioManager.Update | src/lib/audio/audio_manager.cpp:188-197 | active_sounds becomes exactly the sweep's survivors in order, the erased instances are freed, and banks and BGM slot are untouched |
| Audio.AudioManager.RemoveFinished | src/lib/audio/audio_manager.cpp:190-196 | the remove_if/erase pass returns the survivors and frees exactly the erased allocations |
| Audio.BgmSlotStaysEmpty | src/lib/audio/audio_manager.cpp:121-180 | after play_BGM(a), play_BGM(b), change_volume and two stop_BGM calls, both tracks still play, b keeps the volume play_BGM gave it, and the slot is empty |
| Audio.FinishedInstanceIsReaped | src/lib/audio/audio_manager.cpp:188-197 | after load, play_3D and the engine finishing that instance, update leaves no active instance, its allocation is freed, and the template is still loaded and live |
| Audio.OverlappingPlays | src/lib/audio/audio_manager.cpp:101-119 | two play_3D calls on one template give two active instances of its clip in distinct allocations |

## Left out

- The threaded `Audio` worker in `src/lib/audio.cpp` is not modelled. Its request queue, condition variable, dead-instance queue and end-of-sound callback exist for concurrency. src/lib/audio.cpp is not part of this model.
- `set_listener_position` (audio_manager.cpp:182-186) is not modelled. It only forwards to the engine's listener, which the model does not represent.
- Mixing, decoding and distance attenuation are not modelled. The engine may change `playing` and `atEnd` between calls. `Audio.AudioManager.EngineStopsInstance` models this for an active instance, and every method is verified for any values of those flags.
- Engine start-up failure is not modelled. The constructor throws in that case and no manager exists, so the model's constructor is the success path only.
- The destructor is not modelled. It calls `ma_engine_uninit`, and then the members release their sounds.
- Copy and move of the manager are not modelled. The copy operations are deleted, and the model offers no copy either. Move construction and move assignment are not modelled.
- Logging to `std::cerr` and `std::cout` is not modelled, including the hints for result codes -2, -10 and -20. These lines do not affect state.
- Audio.AudioManager.DeleteSound: it only removes the allocation from `live`. What `ma_sound_uninit` does to the engine is not modelled.
- `std::remove_if` frees erased sounds in a different order than `RemoveFinished`. It frees some during move-assignment and the rest at `erase`. The model frees them in list order. Either way, each erased allocation is freed once.
- Audio.SteppedVolumeUndo: exact undo is a property of real arithmetic only. In `float`, a step of 0.05f does not round-trip: from 0.1f, a change of 1 and then -1 ends near 0.10000000894f, not at 0.1f.
- Floats are modelled as reals. `0.05f` is modelled as exactly 0.05. Rounding, NaN and infinities are not modelled, in the volume clamp or in the box comparisons.
