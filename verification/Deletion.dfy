/**
 Every deletion keeps the project sound. `Sound` is referential integrity together with two facts
 the checker leaves to the rest of the code: entities are stored under their own identifiers, and
 the designated master is the track without output.
 */
module Deletion {
  import opened Options
  import opened Entities
  import opened Cascades
  import opened Routing
  import opened Integrity

  /** Every entity is stored under its own, set, identifier. */
  ghost predicate Keyed(t: Tables) {
    && (forall i | i in t.instruments :: t.instruments[i].id == i && i != UNSET)
    && (forall p | p in t.patterns :: t.patterns[p].id == p && p != UNSET)
    && (forall l | l in t.lanes :: t.lanes[l].id == l && l != UNSET)
    && (forall c | c in t.clips :: t.clips[c].id == c && c != UNSET)
    && (forall k | k in t.tracks :: t.tracks[k].id == k && k != UNSET)
  }

  ghost predicate MasterIsRoot(t: Tables) {
    t.master in t.tracks && t.tracks[t.master].output.None?
  }

  ghost predicate Sound(t: Tables) {
    Consistent(t) && Keyed(t) && MasterIsRoot(t)
  }

  /** With the master a root, "one root" says that every other track has an output. */
  lemma {:induction false} OneRoot(t: Tables)
    requires MasterIsRoot(t)
    ensures |Roots(t.tracks)| == 1 <==> Roots(t.tracks) == {t.master}
  {
    if |Roots(t.tracks)| == 1 {
      var others := Roots(t.tracks) - {t.master};
      assert |others| == 0;
    }
  }

  /** Patterns stay consistent when they keep only sequences of instruments that remain. */
  lemma {:induction false} PatternsStay(t: Tables, r: Tables)
    requires PatternsConsistent(t)
    requires r.patterns.Keys <= t.patterns.Keys
    requires forall p, i | p in r.patterns && i in r.patterns[p].sequences ::
      && i in t.patterns[p].sequences
      && r.patterns[p].sequences[i] == t.patterns[p].sequences[i]
      && (i in t.instruments ==> i in r.instruments)
    ensures PatternsConsistent(r)
  {
    forall p | p in r.patterns ensures PatternConsistent(r, r.patterns[p]) {
      assert PatternConsistent(t, t.patterns[p]);
      forall i | i in r.patterns[p].sequences ensures SequenceConsistent(r, i, r.patterns[p].sequences[i]) {
        assert SequenceConsistent(t, i, t.patterns[p].sequences[i]);
      }
    }
  }

  lemma {:induction false} LanesStay(t: Tables, r: Tables)
    requires LanesConsistent(t)
    requires r.lanes.Keys <= t.lanes.Keys
    requires forall l | l in r.lanes :: r.lanes[l].order == t.lanes[l].order
    requires forall l | l in r.lanes && r.lanes[l].groupId.Some? ::
      r.lanes[l].groupId == t.lanes[l].groupId && r.lanes[l].groupId.value in r.lanes
    ensures LanesConsistent(r)
  {
    forall l | l in r.lanes ensures GroupConsistent(r, l) {
      assert GroupConsistent(t, l);
    }
  }

  /** Tables that differ from sound ones in none of the tracks, and hold subsets of the rest. */
  lemma {:induction false} SubsetSound(t: Tables, r: Tables)
    requires Sound(t)
    requires r.tracks == t.tracks && r.master == t.master
    requires r.instruments.Keys <= t.instruments.Keys
    requires forall i | i in r.instruments :: r.instruments[i] == t.instruments[i]
    requires r.patterns.Keys <= t.patterns.Keys && r.lanes.Keys <= t.lanes.Keys && r.clips.Keys <= t.clips.Keys
    requires forall p | p in r.patterns :: r.patterns[p].id == p
    requires forall l | l in r.lanes :: r.lanes[l].id == l
    requires forall c | c in r.clips :: r.clips[c] == t.clips[c]
    requires PatternsConsistent(r) && LanesConsistent(r) && ClipsConsistent(r)
    ensures Sound(r)
  {
    assert TracksConsistent(r) by { SameTracks(t, r); }
    assert InstrumentsConsistent(r) by {
      forall i | i in r.instruments ensures InstrumentConsistent(r, r.instruments[i]) {
        assert InstrumentConsistent(t, t.instruments[i]);
      }
    }
  }

  lemma {:induction false} SameTracks(t: Tables, r: Tables)
    requires TracksConsistent(t) && r.tracks == t.tracks && r.master == t.master
    ensures TracksConsistent(r)
  {
    forall k | k in r.tracks ensures OutputConsistent(r, k) {
      assert OutputConsistent(t, k);
    }
  }

  lemma {:induction false} WithoutInstrumentSound(t: Tables, id: InstrumentId)
    requires Sound(t)
    ensures Sound(WithoutInstrument(t, id))
  {
    var r := WithoutInstrument(t, id);
    assert LanesConsistent(r) by { LanesStay(t, r); }
    assert PatternsConsistent(r) by { PatternsStay(t, r); }
    WithoutInstrumentClips(t, id);
    SubsetSound(t, r);
  }

  lemma {:induction false} WithoutInstrumentClips(t: Tables, id: InstrumentId)
    requires ClipsConsistent(t)
    ensures ClipsConsistent(WithoutInstrument(t, id))
  {
    var r := WithoutInstrument(t, id);
    forall c | c in r.clips ensures ClipConsistent(r, r.clips[c]) {
      assert ClipConsistent(t, t.clips[c]);
    }
  }

  lemma {:induction false} WithoutPatternSound(t: Tables, id: PatternId)
    requires Sound(t)
    ensures Sound(WithoutPattern(t, id))
  {
    var r := WithoutPattern(t, id);
    assert LanesConsistent(r) by { LanesStay(t, r); }
    assert PatternsConsistent(r) by { PatternsStay(t, r); }
    WithoutPatternClips(t, id);
    SubsetSound(t, r);
  }

  lemma {:induction false} WithoutPatternClips(t: Tables, id: PatternId)
    requires ClipsConsistent(t)
    ensures ClipsConsistent(WithoutPattern(t, id))
  {
    var r := WithoutPattern(t, id);
    forall c | c in r.clips ensures ClipConsistent(r, r.clips[c]) {
      assert ClipConsistent(t, t.clips[c]);
    }
  }

  lemma {:induction false} WithoutLaneSound(t: Tables, id: LaneId)
    requires Sound(t)
    ensures Sound(WithoutLane(t, id))
  {
    var r := WithoutLane(t, id);
    assert LanesConsistent(r) by { ReleasedLanes(t, id); }
    assert PatternsConsistent(r) by { PatternsStay(t, r); }
    WithoutLaneClips(t, id);
    SubsetSound(t, r);
  }

  lemma {:induction false} WithoutLaneClips(t: Tables, id: LaneId)
    requires ClipsConsistent(t)
    ensures ClipsConsistent(WithoutLane(t, id))
  {
    var r := WithoutLane(t, id);
    forall c | c in r.clips ensures ClipConsistent(r, r.clips[c]) {
      assert ClipConsistent(t, t.clips[c]);
    }
  }

  lemma {:induction false} ReleasedLanes(t: Tables, id: LaneId)
    requires LanesConsistent(t)
    ensures LanesConsistent(WithoutLane(t, id))
  {
    var r := WithoutLane(t, id);
    forall l | l in r.lanes ensures GroupConsistent(r, l) {
      assert GroupConsistent(t, l);
    }
  }

  lemma {:induction false} WithoutClipSound(t: Tables, id: ClipId)
    requires Sound(t)
    ensures Sound(WithoutClip(t, id))
  {
    var r := WithoutClip(t, id);
    assert LanesConsistent(r) by { LanesStay(t, r); }
    assert PatternsConsistent(r) by { PatternsStay(t, r); }
    WithoutClipClips(t, id);
    SubsetSound(t, r);
  }

  lemma {:induction false} WithoutClipClips(t: Tables, id: ClipId)
    requires ClipsConsistent(t)
    ensures ClipsConsistent(WithoutClip(t, id))
  {
    var r := WithoutClip(t, id);
    forall c | c in r.clips ensures ClipConsistent(r, r.clips[c]) {
      assert ClipConsistent(t, t.clips[c]);
    }
  }

  /** Deleting a track keeps integrity exactly when the master's signal does not come to that track. */
  lemma {:induction false} WithoutTrackConsistentIff(t: Tables, id: TrackId)
    requires Consistent(t) && id != t.master
    ensures Consistent(WithoutTrack(t, id)) <==> !ComesTo(RoutingOf(t.tracks), t.master, id)
  {
    if ComesTo(RoutingOf(t.tracks), t.master, id) {
      MasterFeedsItself(t, id);
    } else {
      var r := WithoutTrack(t, id);
      assert PatternsConsistent(r) by { PatternsStay(t, r); }
      assert LanesConsistent(r) by { LanesStay(t, r); }
      WithoutTrackRouting(t, id);
      WithoutTrackInstruments(t, id);
      forall c | c in r.clips ensures ClipConsistent(r, r.clips[c]) {
        assert ClipConsistent(t, t.clips[c]);
        WithoutTrackClip(t, id, c);
      }
    }
  }

  /** A master without an output comes to no other track. */
  lemma {:induction false} WithoutTrackSound(t: Tables, id: TrackId)
    requires Sound(t) && id != t.master
    ensures Sound(WithoutTrack(t, id))
  {
    assert forall k: nat :: Walk(RoutingOf(t.tracks), t.master, k) == t.master;
    WithoutTrackConsistentIff(t, id);
    WithoutTrackKeyed(t, id);
  }

  lemma {:induction false} WithoutTrackKeyed(t: Tables, id: TrackId)
    requires Keyed(t) && MasterIsRoot(t) && id != t.master
    ensures Keyed(WithoutTrack(t, id)) && MasterIsRoot(WithoutTrack(t, id))
  {
  }

  lemma {:induction false} WithoutTrackInstruments(t: Tables, id: TrackId)
    requires InstrumentsConsistent(t) && t.master in t.tracks && id != t.master
    ensures InstrumentsConsistent(WithoutTrack(t, id))
  {
    var r := WithoutTrack(t, id);
    forall i | i in r.instruments ensures InstrumentConsistent(r, r.instruments[i]) {
      assert InstrumentConsistent(t, t.instruments[i]);
    }
  }

  lemma {:induction false} WithoutTrackClip(t: Tables, id: TrackId, c: ClipId)
    requires id != t.master && t.master in t.tracks
    requires c in WithoutTrack(t, id).clips && ClipConsistent(t, t.clips[c])
    ensures ClipConsistent(WithoutTrack(t, id), WithoutTrack(t, id).clips[c])
  {
    var r := WithoutTrack(t, id);
    assert r.clips[c] == RepointClip(t.clips[c], id, t.master) && !AutomatesTrack(t.clips[c], id);
    match t.clips[c].source
    case PatternSource(_) =>
    case AudioSource(_, _, _, _, _, _, _, _) =>
    case AutomationClip(a) => assert TargetResolves(r, a);
  }

  lemma {:induction false} WithoutTrackRouting(t: Tables, id: TrackId)
    requires TracksConsistent(t) && id != t.master && !ComesTo(RoutingOf(t.tracks), t.master, id)
    ensures TracksConsistent(WithoutTrack(t, id))
  {
    var r := WithoutTrack(t, id);
    RootComesFromMaster(t);
    assert Roots(r.tracks) == Roots(t.tracks);
    RepointedAcyclic(t, id);
    forall k | k in r.tracks ensures OutputConsistent(r, k) {
      assert OutputConsistent(t, k);
      if t.tracks[t.master].output == Some(id) {
        MasterFeeds(t, id);
        assert false;
      }
    }
    forall k | k in r.tracks ensures EffectsConsistent(r.tracks[k].effects) {
      assert r.tracks[k].effects == t.tracks[k].effects;
    }
  }

  /** The one track without an output is where the master's signal ends. */
  lemma {:induction false} RootComesFromMaster(t: Tables)
    requires TracksConsistent(t)
    ensures forall k | k in Roots(t.tracks) :: ComesTo(RoutingOf(t.tracks), t.master, k)
  {
    var g := RoutingOf(t.tracks);
    var n := AcyclicWalkEnds(g, t.master, {});
    var root := Walk(g, t.master, n);
    StaysAmongTracks(t, t.master, n);
    forall k | k in Roots(t.tracks) ensures ComesTo(g, t.master, k) {
      assert |Roots(t.tracks) - {root}| == 0;
      assert k !in Roots(t.tracks) - {root};
    }
  }

  lemma {:induction false} StaysAmongTracks(t: Tables, n: TrackId, k: nat)
    requires n in t.tracks && forall m | m in t.tracks :: OutputConsistent(t, m)
    ensures Walk(RoutingOf(t.tracks), n, k) in t.tracks
    decreases k
  {
    var g := RoutingOf(t.tracks);
    if 0 < k && n in g {
      assert OutputConsistent(t, n);
      StaysAmongTracks(t, g[n], k - 1);
    }
  }

  lemma MasterFeeds(t: Tables, id: TrackId)
    requires t.master in t.tracks && t.tracks[t.master].output == Some(id)
    ensures ComesTo(RoutingOf(t.tracks), t.master, id)
  {
    var g := RoutingOf(t.tracks);
    assert g[t.master] == id;
    assert Walk(g, t.master, 1) == Walk(g, id, 0) == id;
  }

  lemma {:induction false} RepointedAcyclic(t: Tables, id: TrackId)
    requires Acyclic(RoutingOf(t.tracks)) && !ComesTo(RoutingOf(t.tracks), t.master, id)
    ensures Acyclic(RoutingOf(WithoutTrack(t, id).tracks))
  {
    var g, h := RoutingOf(t.tracks), RoutingOf(WithoutTrack(t, id).tracks);
    var rank := AcyclicHasRank(g);
    var lifted: nat -> nat := (n: nat) => Lifted(g, rank, id, t.master, n);
    forall n | n in h ensures lifted(h[n]) < lifted(n) {
      assert n in g && n != id && h[n] == if g[n] == id then t.master else g[n];
      OneHop(g, n, id);
      assert Walk(g, id, 0) == id;
    }
    RankedIsAcyclic(h, lifted);
  }

  /** Where the master's signal came to the deleted track it comes back to the master. */
  lemma {:induction false} MasterFeedsItself(t: Tables, id: TrackId)
    requires id != t.master && ComesTo(RoutingOf(t.tracks), t.master, id)
    ensures !Consistent(WithoutTrack(t, id))
  {
    var g, h := RoutingOf(t.tracks), RoutingOf(WithoutTrack(t, id).tracks);
    var k: nat :| Walk(g, t.master, k) == id;
    var j := ComesRound(t, id, t.master, k);
    assert t.master in h;
  }

  lemma {:induction false} ComesRound(t: Tables, id: TrackId, n: TrackId, k: nat) returns (j: nat)
    requires n != id && Walk(RoutingOf(t.tracks), n, k) == id
    ensures n in RoutingOf(WithoutTrack(t, id).tracks)
    ensures 0 < j && Walk(RoutingOf(WithoutTrack(t, id).tracks), n, j) == t.master
    decreases k
  {
    var g, h := RoutingOf(t.tracks), RoutingOf(WithoutTrack(t, id).tracks);
    assert 0 < k && n in g && n in h && h[n] == if g[n] == id then t.master else g[n];
    if g[n] == id {
      j := 1;
      assert Walk(h, h[n], 0) == h[n];
    } else {
      j := ComesRound(t, id, g[n], k - 1);
      j := j + 1;
    }
  }

  /** Two tracks, the first feeding the second. */
  function TwoTracks(): map<TrackId, MixerTrack> {
    map[1 := MixerTrack(1, "", Some(2), 1.0, 0.0, false, false, []),
        2 := MixerTrack(2, "", None, 1.0, 0.0, false, false, [])]
  }

  lemma TwoTracksRouted()
    ensures Roots(TwoTracks()) == {2} && Acyclic(RoutingOf(TwoTracks()))
  {
    var tracks := TwoTracks();
    assert Roots(tracks) == {2};
    assert RoutingOf(tracks).Keys == {1} && RoutingOf(tracks)[1] == 2;
    var rank: nat -> nat := (n: nat) => if n == 1 then 1 else 0;
    RankedIsAcyclic(RoutingOf(tracks), rank);
  }

  /** Why the master must be the root: the integrity check alone accepts a master that feeds another track, and
      deleting that track then makes the master feed itself. */
  lemma MasterMustBeRoot(base: Tables)
    ensures var t := Tables(map[], map[], map[], map[], TwoTracks(), 1, base.transport, base.meta);
      Consistent(t) && Keyed(t) && !MasterIsRoot(t) && !Consistent(WithoutTrack(t, 2))
  {
    var t := Tables(map[], map[], map[], map[], TwoTracks(), 1, base.transport, base.meta);
    TwoTracksRouted();
    assert TracksConsistent(t) by {
      assert |Roots(t.tracks)| == 1;
    }
    FeedsItself(t);
  }

  lemma FeedsItself(t: Tables)
    requires t.tracks == TwoTracks() && t.master == 1
    ensures !TracksConsistent(WithoutTrack(t, 2))
  {
    var r := WithoutTrack(t, 2);
    assert 1 in r.tracks && r.tracks[1].output == Some(1);
    assert !OutputConsistent(r, 1);
  }
}
