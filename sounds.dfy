/** The engine-visible state of one miniaudio sound, and the per-frame sweep that
    decides which playing instances survive. */
module Sounds {
  import opened Geometry

  datatype Option<T> = None | Some(value: T)

  /** MA_FLOAT_MAX, miniaudio's default maximum attenuation distance. */
  const FloatMax: real := 340282346638528859811704183484516925440.0

  /** One ma_sound as the engine reports it. `id` is the identity of the heap
      allocation that holds it (the pointer a ManagedSound owns); the other fields
      are the attributes the manager sets or queries through miniaudio. */
  datatype Sound = Sound(
    id: nat,
    clip: string,        // file the data is decoded or streamed from
    streamed: bool,      // MA_SOUND_FLAG_STREAM rather than MA_SOUND_FLAG_DECODE
    playing: bool,       // ma_sound_is_playing
    atEnd: bool,         // ma_sound_at_end
    volume: real,
    spatialized: bool,
    position: Vec3,
    minDistance: real,
    maxDistance: real,
    looping: bool,
    frame: nat)          // read cursor, in PCM frames

  /** The sound ma_sound_init_from_file leaves in a fresh allocation: stopped at the
      first frame, with miniaudio's defaults for every attribute. */
  function InitFromFile(id: nat, path: string, streamed: bool): (r: Sound)
    ensures r.id == id && r.clip == path && r.streamed == streamed
    ensures !r.playing && !r.atEnd && r.frame == 0 && !r.looping
    ensures !StillAudible(r)
    ensures r.volume == 1.0 && r.spatialized && r.position == Origin
    ensures r.minDistance == 1.0 && r.maxDistance == FloatMax
  {
    Sound(id, path, streamed, false, false, 1.0, true, Origin, 1.0, FloatMax, false, 0)
  }

  /** The sound ma_sound_init_copy leaves in a fresh allocation: it shares the
      template's data, and every attribute starts at miniaudio's default rather
      than at the template's setting. */
  function InitCopy(id: nat, template: Sound): (r: Sound)
    ensures r.id == id && r.clip == template.clip && r.streamed == template.streamed
    ensures !StillAudible(r) && r.frame == 0 && !r.looping
    ensures r.volume == 1.0 && r.spatialized && r.position == Origin
    ensures r.minDistance == 1.0 && r.maxDistance == FloatMax
  {
    InitFromFile(id, template.clip, template.streamed)
  }

  /** The sweep keeps an instance unless `!ma_sound_is_playing || ma_sound_at_end`. */
  predicate StillAudible(s: Sound): (b: bool)
    ensures b <==> !(!s.playing || s.atEnd)
  {
    s.playing && !s.atEnd
  }

  /** The instances the sweep keeps, in their original order. */
  function Survivors(sounds: seq<Sound>): (r: seq<Sound>)
    ensures |r| <= |sounds|
    ensures forall i :: 0 <= i < |r| ==> StillAudible(r[i]) && r[i] in sounds
  {
    if sounds == [] then []
    else if StillAudible(sounds[0]) then [sounds[0]] + Survivors(sounds[1..])
    else Survivors(sounds[1..])
  }

  /** The instances the sweep erases, in their original order. */
  function Reaped(sounds: seq<Sound>): (r: seq<Sound>)
    ensures |r| <= |sounds|
    ensures forall i :: 0 <= i < |r| ==> !StillAudible(r[i]) && r[i] in sounds
  {
    if sounds == [] then []
    else if StillAudible(sounds[0]) then Reaped(sounds[1..])
    else [sounds[0]] + Reaped(sounds[1..])
  }

  /** The sweep is compositional: sweeping a concatenation sweeps each part and keeps
      the parts in order. This is what "order-preserving" means for the filter. */
  lemma {:induction false} SurvivorsAppend(a: seq<Sound>, b: seq<Sound>)
    ensures Survivors(a + b) == Survivors(a) + Survivors(b)
    ensures Reaped(a + b) == Reaped(a) + Reaped(b)
  {
    if a == [] {
      assert a + b == b;
    } else {
      assert (a + b)[1..] == a[1..] + b;
      SurvivorsAppend(a[1..], b);
    }
  }

  /** The sweep keeps each audible instance as often as it occurred, and no other. */
  lemma {:induction false} SurvivorsCount(sounds: seq<Sound>, x: Sound)
    ensures multiset(Survivors(sounds))[x] == if StillAudible(x) then multiset(sounds)[x] else 0
  {
    if sounds != [] {
      var h, t := sounds[0], sounds[1..];
      SurvivorsCount(t, x);
      assert sounds == [h] + t;
      if StillAudible(h) {
        assert Survivors(sounds) == [h] + Survivors(t);
      }
    }
  }

  /** The sweep erases each instance that is stopped or at its end as often as it
      occurred, and no other. */
  lemma {:induction false} ReapedCount(sounds: seq<Sound>, x: Sound)
    ensures multiset(Reaped(sounds))[x] == if StillAudible(x) then 0 else multiset(sounds)[x]
  {
    if sounds != [] {
      var h, t := sounds[0], sounds[1..];
      ReapedCount(t, x);
      assert sounds == [h] + t;
      if !StillAudible(h) {
        assert Reaped(sounds) == [h] + Reaped(t);
      }
    }
  }

  /** Every instance goes to exactly one side of the sweep: kept or erased. */
  lemma SweepPartition(sounds: seq<Sound>)
    ensures multiset(Survivors(sounds)) + multiset(Reaped(sounds)) == multiset(sounds)
  {
    forall x ensures (multiset(Survivors(sounds)) + multiset(Reaped(sounds)))[x] == multiset(sounds)[x] {
      SurvivorsCount(sounds, x);
      ReapedCount(sounds, x);
    }
  }

  /** Membership form of the above: an instance survives iff it was there and is audible. */
  lemma SurvivorsMembership(sounds: seq<Sound>, x: Sound)
    ensures x in Survivors(sounds) <==> x in sounds && StillAudible(x)
  {
  }

  /** A second sweep right after the first erases nothing. */
  lemma {:induction false} SurvivorsIdempotent(sounds: seq<Sound>)
    ensures Survivors(Survivors(sounds)) == Survivors(sounds)
    ensures Reaped(Survivors(sounds)) == []
  {
    if sounds != [] {
      SurvivorsIdempotent(sounds[1..]);
      if StillAudible(sounds[0]) {
        assert ([sounds[0]] + Survivors(sounds[1..]))[1..] == Survivors(sounds[1..]);
      }
    }
  }

  /** Two templates with the same clip and mode give the same copy, whatever their
      volume, position, distances, looping or play state. */
  lemma InitCopyIgnoresAttributes(id: nat, t1: Sound, t2: Sound)
    requires t1.clip == t2.clip && t1.streamed == t2.streamed
    ensures InitCopy(id, t1) == InitCopy(id, t2)
  {
  }

  /** A list in which every instance is audible comes through the sweep unchanged. */
  lemma {:induction false} SurvivorsOfAudible(sounds: seq<Sound>)
    requires forall i :: 0 <= i < |sounds| ==> StillAudible(sounds[i])
    ensures Survivors(sounds) == sounds
  {
    if sounds != [] {
      SurvivorsOfAudible(sounds[1..]);
    }
  }

  /** Unfolding the sweep one element at the end, as the manager's loop visits it. */
  lemma SurvivorsSnoc(sounds: seq<Sound>, x: Sound)
    ensures Survivors(sounds + [x]) == Survivors(sounds) + (if StillAudible(x) then [x] else [])
    ensures Reaped(sounds + [x]) == Reaped(sounds) + (if StillAudible(x) then [] else [x])
  {
    SurvivorsAppend(sounds, [x]);
    assert [x][1..] == [];
  }
}
