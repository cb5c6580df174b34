/** The bank-based audio manager: two name-keyed template banks, the list of
    playing instances and the current-BGM slot, updated one call at a time.
    What miniaudio reports (does the file exist, did decoding or copying succeed)
    is passed in as a parameter; what it does to a sound is a field update on the
    Sound record. */
module Audio {
  import opened Geometry
  import opened Sounds
  import opened Ownership

  /** The scale change_volume applies to its argument (0.05f). */
  const VolumeStep: real := 0.05

  /** std::clamp(v, lo, hi): lo if v < lo, else hi if hi < v, else v. */
  function Clamp(v: real, lo: real, hi: real): (r: real)
    requires lo <= hi
    ensures lo <= r <= hi
    ensures lo <= v <= hi <==> r == v
    ensures v <= lo ==> r == lo
    ensures hi <= v ==> r == hi
  {
    if v < lo then lo else if hi < v then hi else v
  }

  /** The volume change_volume leaves behind: the old volume moved by
      `change * 0.05` and then clamped to [0, 1]. */
  function SteppedVolume(volume: real, change: real): (r: real)
    ensures 0.0 <= r <= 1.0
    ensures 0.0 <= volume + change * VolumeStep <= 1.0 ==> r == volume + change * VolumeStep
    ensures volume + change * VolumeStep <= 0.0 ==> r == 0.0
    ensures 1.0 <= volume + change * VolumeStep ==> r == 1.0
    ensures 0.0 <= volume <= 1.0 && 0.0 <= change ==> volume <= r
    ensures 0.0 <= volume <= 1.0 && change <= 0.0 ==> r <= volume
  {
    Clamp(volume + change * VolumeStep, 0.0, 1.0)
  }

  /** After at least one step the volume lies in [0, 1], whatever the changes and
      whatever the starting volume. */
  lemma {:induction false} SteppedVolumeRepeated(volume: real, changes: seq<real>)
    requires changes != []
    ensures 0.0 <= StepAll(volume, changes) <= 1.0
    decreases |changes|
  {
    if |changes| > 1 {
      SteppedVolumeRepeated(SteppedVolume(volume, changes[0]), changes[1..]);
    }
  }

  /** The volume after calling change_volume once per element of `changes`. */
  function StepAll(volume: real, changes: seq<real>): real
    decreases |changes|
  {
    if changes == [] then volume else StepAll(SteppedVolume(volume, changes[0]), changes[1..])
  }

  /** A step up followed by the same step down restores the volume when the first
      step stays inside [0, 1]. */
  lemma SteppedVolumeUndo(volume: real, change: real)
    requires 0.0 <= volume + change * VolumeStep <= 1.0
    requires 0.0 <= volume <= 1.0
    ensures SteppedVolume(SteppedVolume(volume, change), -change) == volume
  {
  }

  /** A template as load leaves it in sound_bank: decoded, stopped, with the
      requested fall-off distances and volume. */
  function LoadedTemplate(id: nat, filename: string, minDistance: real, maxDistance: real, volume: real): (r: Sound)
    ensures r.id == id && r.clip == filename && !r.streamed
    ensures !StillAudible(r) && r.frame == 0 && !r.looping
    ensures r.minDistance == minDistance && r.maxDistance == maxDistance && r.volume == volume
    ensures r.spatialized && r.position == Origin
  {
    InitFromFile(id, filename, false).(minDistance := minDistance, maxDistance := maxDistance, volume := volume)
  }

  /** A template as load_BGM leaves it in bgm_bank: streamed, stopped, with the requested volume. */
  function LoadedBgm(id: nat, filename: string, volume: real): (r: Sound)
    ensures r.id == id && r.clip == filename && r.streamed
    ensures !StillAudible(r) && r.frame == 0 && !r.looping
    ensures r.volume == volume
    ensures r.spatialized && r.position == Origin && r.minDistance == 1.0 && r.maxDistance == FloatMax
  {
    InitFromFile(id, filename, true).(volume := volume)
  }

  /** What play_BGM does to the bank entry itself: rewind, loop, volume, no spatialization, start. */
  function RestartedBgm(entry: Sound, volume: real): (r: Sound)
    ensures r.id == entry.id && r.clip == entry.clip && r.streamed == entry.streamed
    ensures StillAudible(r) && r.frame == 0 && r.looping
    ensures r.volume == volume && !r.spatialized
    ensures r.position == entry.position
    ensures r.minDistance == entry.minDistance && r.maxDistance == entry.maxDistance
  {
    entry.(frame := 0, atEnd := false, looping := true, volume := volume, spatialized := false, playing := true)
  }

  class AudioManager {
    var soundBank: map<string, Sound>
    var bgmBank: map<string, Sound>
    var activeSounds: seq<Sound>
    var currentBgm: Option<Sound>
    /** The ma_sound allocations made and not yet released by MaSoundDeleter. */
    var live: set<nat>
    /** Identity the next `new ma_sound()` receives; identities are never reused. */
    var nextId: nat

    /** Every allocation is owned by exactly one slot, every owned allocation is
        live and every live allocation is owned: nothing leaks, nothing is shared. */
    ghost predicate Valid()
      reads this
    {
      && SoleOwnership(soundBank, bgmBank, activeSounds, currentBgm)
      && live == OwnedIds(soundBank, bgmBank, activeSounds, currentBgm)
      && forall id :: id in live ==> id < nextId
    }

    /** A manager starts with empty banks, no instances and no BGM. Engine start-up
        failure, which throws, is not modelled. */
    constructor ()
      ensures Valid()
      ensures soundBank == map[] && bgmBank == map[] && activeSounds == [] && currentBgm == None
      ensures live == {}
    {
      soundBank, bgmBank, activeSounds, currentBgm := map[], map[], [], None;
      live, nextId := {}, 0;
    }

    /** make_managed_sound: a fresh heap allocation for one ma_sound. */
    method MakeManagedSound() returns (id: nat)
      requires forall i :: i in live ==> i < nextId
      modifies this`live, this`nextId
      ensures id == old(nextId) && id !in old(live)
      ensures live == old(live) + {id} && nextId == id + 1
      ensures forall i :: i in live ==> i < nextId
    {
      id := nextId;
      live := live + {id};
      nextId := nextId + 1;
    }

    /** MaSoundDeleter: a null pointer is ignored; otherwise the sound is uninitialised
        and freed, which needs it to be live and leaves it dead. */
    method DeleteSound(p: Option<nat>)
      requires p.Some? ==> p.value in live
      modifies this`live
      ensures p.Some? ==> p.value !in live && live == old(live) - {p.value}
      ensures p.None? ==> live == old(live)
    {
      if p.Some? {
        live := live - {p.value};
      }
    }

    /** load: a missing file or a failed decode changes nothing but the allocation
        count; otherwise `name` maps to the new template, and the template it replaces,
        if any, is released. */
    method Load(name: string, filename: string, minDistance: real, maxDistance: real, volume: real,
                fileExists: bool, decodeOk: bool)
      requires Valid()
      modifies this
      ensures Valid()
      ensures bgmBank == old(bgmBank) && activeSounds == old(activeSounds) && currentBgm == old(currentBgm)
      ensures nextId == if fileExists then old(nextId) + 1 else old(nextId)
      ensures !(fileExists && decodeOk) ==> soundBank == old(soundBank) && live == old(live)
      ensures fileExists && decodeOk ==>
                soundBank == old(soundBank)[name := LoadedTemplate(old(nextId), filename, minDistance, maxDistance, volume)]
      ensures fileExists && decodeOk ==> old(nextId) !in old(live) && old(nextId) in live
      ensures fileExists && decodeOk && name in old(soundBank) ==>
                live == old(live) - {old(soundBank)[name].id} + {old(nextId)}
      ensures fileExists && decodeOk && name !in old(soundBank) ==> live == old(live) + {old(nextId)}
    {
      if !fileExists {
        return;
      }
      var id := MakeManagedSound();
      if !decodeOk {
        DeleteSound(Some(id));
        return;
      }
      var sound := InitFromFile(id, filename, false);
      sound := sound.(minDistance := minDistance);
      sound := sound.(maxDistance := maxDistance);
      sound := sound.(volume := volume);
      assert id !in OwnedIds(soundBank, bgmBank, activeSounds, currentBgm);
      MapIdsPutFresh(soundBank, name, sound);
      if name in soundBank {
        DeleteSound(Some(soundBank[name].id));
      }
      soundBank := soundBank[name := sound];
    }

    /** load_BGM: like load, but into bgm_bank, in streaming mode, with only the volume set. */
    method LoadBgm(name: string, filename: string, volume: real, fileExists: bool, decodeOk: bool)
      requires Valid()
      modifies this
      ensures Valid()
      ensures soundBank == old(soundBank) && activeSounds == old(activeSounds) && currentBgm == old(currentBgm)
      ensures nextId == if fileExists then old(nextId) + 1 else old(nextId)
      ensures !(fileExists && decodeOk) ==> bgmBank == old(bgmBank) && live == old(live)
      ensures fileExists && decodeOk ==> bgmBank == old(bgmBank)[name := LoadedBgm(old(nextId), filename, volume)]
      ensures fileExists && decodeOk ==> old(nextId) !in old(live) && old(nextId) in live
      ensures fileExists && decodeOk && name in old(bgmBank) ==>
                live == old(live) - {old(bgmBank)[name].id} + {old(nextId)}
      ensures fileExists && decodeOk && name !in old(bgmBank) ==> live == old(live) + {old(nextId)}
    {
      if !fileExists {
        return;
      }
      var id := MakeManagedSound();
      if !decodeOk {
        DeleteSound(Some(id));
        return;
      }
      var sound := InitFromFile(id, filename, true);
      sound := sound.(volume := volume);
      assert id !in OwnedIds(soundBank, bgmBank, activeSounds, currentBgm);
      MapIdsPutFresh(bgmBank, name, sound);
      if name in bgmBank {
        DeleteSound(Some(bgmBank[name].id));
      }
      bgmBank := bgmBank[name := sound];
    }

    /** play_3D: on a bank miss or a failed copy, false and no new instance; otherwise
        true and exactly one new, started instance of the template's clip at (x, y, z)
        appended to the active list. The template itself is left alone. */
    method Play3D(name: string, x: real, y: real, z: real, copyOk: bool) returns (ok: bool)
      requires Valid()
      modifies this
      ensures Valid()
      ensures ok <==> name in old(soundBank) && copyOk
      ensures soundBank == old(soundBank) && bgmBank == old(bgmBank) && currentBgm == old(currentBgm)
      ensures nextId == if name in old(soundBank) then old(nextId) + 1 else old(nextId)
      ensures !ok ==> activeSounds == old(activeSounds) && live == old(live)
      ensures ok ==> |activeSounds| == |old(activeSounds)| + 1 && activeSounds[..|old(activeSounds)|] == old(activeSounds)
      ensures ok ==> activeSounds[|old(activeSounds)|] ==
                       InitCopy(old(nextId), soundBank[name]).(position := Vec3(x, y, z), playing := true)
      ensures ok ==> old(nextId) !in old(live) && live == old(live) + {old(nextId)}
    {
      if name !in soundBank {
        return false;
      }
      var id := MakeManagedSound();
      if !copyOk {
        DeleteSound(Some(id));
        return false;
      }
      var instance := InitCopy(id, soundBank[name]);
      instance := instance.(position := Vec3(x, y, z));
      instance := instance.(playing := true);
      assert id !in OwnedIds(soundBank, bgmBank, activeSounds, currentBgm);
      SeqIdsSnoc(activeSounds, instance);
      activeSounds := activeSounds + [instance];
      ok := true;
    }

    /** play_BGM: false and no change on an unknown name. Otherwise the current-BGM slot,
        if filled, is stopped (but not emptied or replaced), and the bank entry itself is
        rewound, set looping at the given volume without spatialization, and started. */
    method PlayBgm(name: string, volume: real) returns (ok: bool)
      requires Valid()
      modifies this
      ensures Valid()
      ensures ok <==> name in old(bgmBank)
      ensures soundBank == old(soundBank) && activeSounds == old(activeSounds)
      ensures live == old(live) && nextId == old(nextId)
      ensures currentBgm.Some? <==> old(currentBgm).Some?
      ensures !ok ==> bgmBank == old(bgmBank) && currentBgm == old(currentBgm)
      ensures ok && old(currentBgm).Some? ==> currentBgm == Some(old(currentBgm).value.(playing := false))
      ensures ok ==> bgmBank == old(bgmBank)[name := RestartedBgm(old(bgmBank)[name], volume)]
    {
      if name !in bgmBank {
        return false;
      }
      if currentBgm.Some? {
        currentBgm := Some(currentBgm.value.(playing := false));
      }
      var raw := bgmBank[name];
      raw := raw.(frame := 0, atEnd := false);
      raw := raw.(looping := true);
      raw := raw.(volume := volume);
      raw := raw.(spatialized := false);
      raw := raw.(playing := true);
      MapIdsPutSame(bgmBank, name, raw);
      bgmBank := bgmBank[name := raw];
      ok := true;
    }

    /** play: like play_3D, but the instance is not spatialized and takes the template's
        volume instead of a position. */
    method Play(name: string, copyOk: bool) returns (ok: bool)
      requires Valid()
      modifies this
      ensures Valid()
      ensures ok <==> name in old(soundBank) && copyOk
      ensures soundBank == old(soundBank) && bgmBank == old(bgmBank) && currentBgm == old(currentBgm)
      ensures nextId == if name in old(soundBank) then old(nextId) + 1 else old(nextId)
      ensures !ok ==> activeSounds == old(activeSounds) && live == old(live)
      ensures ok ==> |activeSounds| == |old(activeSounds)| + 1 && activeSounds[..|old(activeSounds)|] == old(activeSounds)
      ensures ok ==> activeSounds[|old(activeSounds)|] ==
                       InitCopy(old(nextId), soundBank[name]).(spatialized := false, volume := soundBank[name].volume, playing := true)
      ensures ok ==> old(nextId) !in old(live) && live == old(live) + {old(nextId)}
    {
      if name !in soundBank {
        return false;
      }
      var id := MakeManagedSound();
      if !copyOk {
        DeleteSound(Some(id));
        return false;
      }
      var instance := InitCopy(id, soundBank[name]);
      instance := instance.(spatialized := false);
      instance := instance.(volume := soundBank[name].volume);
      instance := instance.(playing := true);
      assert id !in OwnedIds(soundBank, bgmBank, activeSounds, currentBgm);
      SeqIdsSnoc(activeSounds, instance);
      activeSounds := activeSounds + [instance];
      ok := true;
    }

    /** stop_BGM: the slot ends up empty and the sound it held, if any, is released. */
    method StopBgm()
      requires Valid()
      modifies this
      ensures Valid()
      ensures currentBgm == None
      ensures live == old(live) - OptIds(old(currentBgm))
      ensures soundBank == old(soundBank) && bgmBank == old(bgmBank) && activeSounds == old(activeSounds)
      ensures nextId == old(nextId)
    {
      if currentBgm.Some? {
        currentBgm := Some(currentBgm.value.(playing := false));
        DeleteSound(Some(currentBgm.value.id));
        currentBgm := None;
      }
    }

    /** change_volume: nothing without a current BGM; otherwise its volume becomes the
        clamped step, which lies in [0, 1]. */
    method ChangeVolume(change: real)
      requires Valid()
      modifies this
      ensures Valid()
      ensures currentBgm.Some? <==> old(currentBgm).Some?
      ensures old(currentBgm).None? ==> currentBgm == None
      ensures old(currentBgm).Some? ==>
                currentBgm == Some(old(currentBgm).value.(volume := SteppedVolume(old(currentBgm).value.volume, change)))
      ensures currentBgm.Some? ==> 0.0 <= currentBgm.value.volume <= 1.0
      ensures soundBank == old(soundBank) && bgmBank == old(bgmBank) && activeSounds == old(activeSounds)
      ensures live == old(live) && nextId == old(nextId)
    {
      if currentBgm.None? {
        return;
      }
      var volume := currentBgm.value.volume;
      volume := Clamp(volume + change * VolumeStep, 0.0, 1.0);
      currentBgm := Some(currentBgm.value.(volume := volume));
    }

    /** What the engine does to a playing instance between calls when its clip runs
        out (or something stops it): instance i stops, and is at its end when
        `reachedEnd`. It keeps its allocation, and nothing else changes. */
    method EngineStopsInstance(i: nat, reachedEnd: bool)
      requires Valid()
      requires i < |activeSounds|
      modifies this`activeSounds
      ensures Valid()
      ensures activeSounds == old(activeSounds)[i := old(activeSounds)[i].(playing := false, atEnd := reachedEnd)]
      ensures !StillAudible(activeSounds[i])
    {
      var stopped := activeSounds[i].(playing := false, atEnd := reachedEnd);
      RetagKeepsIds(activeSounds, i, stopped);
      activeSounds := activeSounds[i := stopped];
    }

    /** update: erase every instance that has stopped or reached its end, keeping the
        others in their order, and release each erased one. */
    method Update()
      requires Valid()
      modifies this
      ensures Valid()
      ensures activeSounds == Survivors(old(activeSounds))
      ensures live == old(live) - SeqIds(Reaped(old(activeSounds)))
      ensures soundBank == old(soundBank) && bgmBank == old(bgmBank) && currentBgm == old(currentBgm)
      ensures nextId == old(nextId)
    {
      var all := activeSounds;
      var kept := RemoveFinished(all);
      SweepKeepsOwnership(soundBank, bgmBank, all, currentBgm);
      activeSounds := kept;
    }

    /** The erase-remove_if pass of update over `all`: one visit per element, in
        order; a finished element is released, the others are kept. */
    method RemoveFinished(all: seq<Sound>) returns (kept: seq<Sound>)
      requires SeqIds(all) <= live && DistinctIds(all)
      modifies this`live
      ensures kept == Survivors(all)
      ensures live == old(live) - SeqIds(Reaped(all))
    {
      kept := [];
      var i := 0;
      while i < |all|
        invariant 0 <= i <= |all|
        invariant kept == Survivors(all[..i])
        invariant live == old(live) - SeqIds(Reaped(all[..i]))
      {
        assert all[..i + 1] == all[..i] + [all[i]];
        SurvivorsSnoc(all[..i], all[i]);
        if StillAudible(all[i]) {
          kept := kept + [all[i]];
        } else {
          ReapedIdsBefore(all, i);
          DeleteSound(Some(all[i].id));
        }
        i := i + 1;
      }
      assert all[..|all|] == all;
    }
  }

  /** Two play_BGM calls do not stop each other, and neither stop_BGM (called twice)
      nor change_volume reaches either track, because play_BGM never fills the
      current-BGM slot. */
  method BgmSlotStaysEmpty(a: string, b: string, fileA: string, fileB: string)
    returns (aPlaying: bool, bPlaying: bool, bVolume: real, slotEmpty: bool)
    requires a != b
    ensures aPlaying && bPlaying && slotEmpty
    ensures bVolume == 0.5
  {
    var m := new AudioManager();
    m.LoadBgm(a, fileA, 1.0, true, true);
    m.LoadBgm(b, fileB, 1.0, true, true);
    var okA := m.PlayBgm(a, 0.5);
    var okB := m.PlayBgm(b, 0.5);
    m.ChangeVolume(-4.0);
    m.StopBgm();
    m.StopBgm();
    aPlaying := m.bgmBank[a].playing;
    bPlaying := m.bgmBank[b].playing;
    bVolume := m.bgmBank[b].volume;
    slotEmpty := m.currentBgm.None?;
  }

  /** A one-shot instance the engine has finished is erased by the next update and
      its allocation released; the template that spawned it stays. */
  method FinishedInstanceIsReaped(name: string, file: string, x: real, y: real, z: real)
    returns (before: nat, after: nat, released: bool, templateKept: bool)
    ensures before == 1 && after == 0 && released && templateKept
  {
    var m := new AudioManager();
    m.Load(name, file, 1.0, 10.0, 0.5, true, true);
    var ok := m.Play3D(name, x, y, z, true);
    before := |m.activeSounds|;
    var instance := m.activeSounds[0].id;
    m.EngineStopsInstance(0, true);
    m.Update();
    after := |m.activeSounds|;
    released := instance !in m.live;
    templateKept := name in m.soundBank && m.soundBank[name].id in m.live;
  }

  /** Playing one template twice gives two simultaneous instances of its clip, each in
      its own allocation. */
  method OverlappingPlays(name: string, file: string, x: real, y: real, z: real)
    returns (count: nat, sameClip: bool, distinct: bool)
    ensures count == 2 && sameClip && distinct
  {
    var m := new AudioManager();
    m.Load(name, file, 1.0, 10.0, 0.04, true, true);
    var ok1 := m.Play3D(name, x, y, z, true);
    var ok2 := m.Play3D(name, x, y, z, true);
    count := |m.activeSounds|;
    sameClip := m.activeSounds[0].clip == file && m.activeSounds[1].clip == file;
    distinct := m.activeSounds[0].id != m.activeSounds[1].id;
  }
}
