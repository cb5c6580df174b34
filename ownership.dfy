/** Who owns which engine object. A ManagedSound is a unique_ptr with MaSoundDeleter,
    so every allocated ma_sound is held by exactly one slot: a sound-bank entry, a
    BGM-bank entry, an element of the active list, or the current-BGM slot. Here an
    allocation is named by the `id` of the Sound it holds. */
module Ownership {
  import opened Sounds

  ghost function SeqIds(s: seq<Sound>): set<nat>
  {
    set x | x in s :: x.id
  }

  /** No two elements of the list hold the same allocation. */
  ghost predicate DistinctIds(s: seq<Sound>)
  {
    forall i, j :: 0 <= i < j < |s| ==> s[i].id != s[j].id
  }

  ghost function MapIds(m: map<string, Sound>): set<nat>
  {
    set k | k in m :: m[k].id
  }

  /** No two names of the bank hold the same allocation. */
  ghost predicate UniqueIds(m: map<string, Sound>)
  {
    forall k1, k2 :: k1 in m && k2 in m && k1 != k2 ==> m[k1].id != m[k2].id
  }

  ghost function OptIds(o: Option<Sound>): set<nat>
  {
    if o.Some? then {o.value.id} else {}
  }

  /** The allocations held by the four containers together. */
  ghost function OwnedIds(soundBank: map<string, Sound>, bgmBank: map<string, Sound>,
                          active: seq<Sound>, current: Option<Sound>): set<nat>
  {
    MapIds(soundBank) + MapIds(bgmBank) + SeqIds(active) + OptIds(current)
  }

  /** Each allocation has one owning slot: unique within each container, and no
      allocation shared between two containers. */
  ghost predicate SoleOwnership(soundBank: map<string, Sound>, bgmBank: map<string, Sound>,
                                active: seq<Sound>, current: Option<Sound>)
  {
    && UniqueIds(soundBank) && UniqueIds(bgmBank) && DistinctIds(active)
    && MapIds(soundBank) !! MapIds(bgmBank)
    && MapIds(soundBank) !! SeqIds(active)
    && MapIds(soundBank) !! OptIds(current)
    && MapIds(bgmBank) !! SeqIds(active)
    && MapIds(bgmBank) !! OptIds(current)
    && SeqIds(active) !! OptIds(current)
  }

  /** Storing a fresh allocation under a name: the bank now owns it, and the entry
      it replaces (if any) is no longer owned by the bank. */
  lemma MapIdsPutFresh(m: map<string, Sound>, k: string, v: Sound)
    requires UniqueIds(m)
    requires v.id !in MapIds(m)
    ensures UniqueIds(m[k := v])
    ensures MapIds(m[k := v]) == (if k in m then MapIds(m) - {m[k].id} else MapIds(m)) + {v.id}
  {
    var m' := m[k := v];
    forall k' | k' in m ensures m[k'].id in MapIds(m) {
    }
    forall id | id in MapIds(m') ensures id in (if k in m then MapIds(m) - {m[k].id} else MapIds(m)) + {v.id} {
      var k' :| k' in m' && m'[k'].id == id;
      if k' != k {
        assert m[k'].id == id;
      }
    }
    forall id | id in MapIds(m) && (k in m ==> id != m[k].id) ensures id in MapIds(m') {
      var k' :| k' in m && m[k'].id == id;
      assert k' != k && m'[k'].id == id;
    }
    assert m'[k].id == v.id;
  }

  /** Reconfiguring an entry in place keeps the allocation it holds. */
  lemma MapIdsPutSame(m: map<string, Sound>, k: string, v: Sound)
    requires UniqueIds(m)
    requires k in m && v.id == m[k].id
    ensures UniqueIds(m[k := v])
    ensures MapIds(m[k := v]) == MapIds(m)
  {
    var m' := m[k := v];
    forall id | id in MapIds(m) ensures id in MapIds(m') {
      var k' :| k' in m && m[k'].id == id;
      assert m'[k'].id == id;
    }
  }

  /** Appending an allocation that the list does not hold yet. */
  lemma SeqIdsSnoc(s: seq<Sound>, x: Sound)
    requires DistinctIds(s)
    requires x.id !in SeqIds(s)
    ensures DistinctIds(s + [x])
    ensures SeqIds(s + [x]) == SeqIds(s) + {x.id}
  {
  }

  /** Changing an element's attributes without changing its allocation keeps the
      list's allocations. */
  lemma RetagKeepsIds(s: seq<Sound>, i: nat, x: Sound)
    requires i < |s| && x.id == s[i].id
    ensures DistinctIds(s[i := x]) <==> DistinctIds(s)
    ensures SeqIds(s[i := x]) == SeqIds(s)
  {
    var t := s[i := x];
    assert forall k :: 0 <= k < |s| ==> t[k].id == s[k].id;
    forall id | id in SeqIds(s) ensures id in SeqIds(t) {
      var y :| y in s && y.id == id;
      var k :| 0 <= k < |s| && s[k] == y;
      assert t[k].id == id;
    }
    forall id | id in SeqIds(t) ensures id in SeqIds(s) {
      var y :| y in t && y.id == id;
      var k :| 0 <= k < |t| && t[k] == y;
      assert s[k].id == id;
    }
  }

  lemma {:induction false} DistinctIdsSurvivors(s: seq<Sound>)
    requires DistinctIds(s)
    ensures DistinctIds(Survivors(s))
  {
    if s != [] {
      var h, t := s[0], s[1..];
      assert DistinctIds(t) by {
        forall i, j | 0 <= i < j < |t| ensures t[i].id != t[j].id {
          assert t[i] == s[i + 1] && t[j] == s[j + 1];
        }
      }
      DistinctIdsSurvivors(t);
      if StillAudible(h) {
        var r := Survivors(t);
        forall i, j | 0 <= i < j < |[h] + r| ensures ([h] + r)[i].id != ([h] + r)[j].id {
          if i == 0 {
            var y := r[j - 1];
            assert y in t;
            var k :| 0 <= k < |t| && t[k] == y;
            assert s[k + 1] == y;
          }
        }
      }
    }
  }

  /** The sweep splits the list's allocations into those it keeps and those it frees,
      with none on both sides. */
  lemma SweepIds(s: seq<Sound>)
    requires DistinctIds(s)
    ensures DistinctIds(Survivors(s))
    ensures SeqIds(Survivors(s)) + SeqIds(Reaped(s)) == SeqIds(s)
    ensures SeqIds(Survivors(s)) !! SeqIds(Reaped(s))
  {
  }

  /** When the sweep reaches position i, the element there is still owned by the
      list and has not been released by an earlier step. */
  lemma ReapedIdsBefore(s: seq<Sound>, i: nat)
    requires DistinctIds(s)
    requires i < |s|
    ensures s[i].id in SeqIds(s)
    ensures s[i].id !in SeqIds(Reaped(s[..i]))
  {
  }

  /** Sweeping the active list keeps sole ownership, and the owned allocations lose
      exactly those of the erased instances. */
  lemma SweepKeepsOwnership(soundBank: map<string, Sound>, bgmBank: map<string, Sound>,
                            active: seq<Sound>, current: Option<Sound>)
    requires SoleOwnership(soundBank, bgmBank, active, current)
    ensures SoleOwnership(soundBank, bgmBank, Survivors(active), current)
    ensures OwnedIds(soundBank, bgmBank, Survivors(active), current)
            == OwnedIds(soundBank, bgmBank, active, current) - SeqIds(Reaped(active))
  {
    SweepIds(active);
  }
}
