/**
 Lanes grouped under lanes. The integrity check looks for a lane that groups under itself and for groups that are not
 there; longer cycles pass it. When setting a group closes a cycle, and that deleting a lane never does.
 */
module LaneGroups {
  import opened Options
  import opened Entities
  import opened Cascades
  import opened Routing
  import opened Integrity
  import opened Deletion

  function GroupOf(l: ArrangementLane): LaneId {
    match l.groupId case Some(g) => g case None => UNSET
  }

  function Ungrouped(lanes: map<LaneId, ArrangementLane>): set<LaneId> {
    set l | l in lanes && lanes[l].groupId.None?
  }

  /** Which lane groups under which. */
  function GroupsOf(lanes: map<LaneId, ArrangementLane>): (g: Graph)
    ensures forall l :: l in g <==> l in lanes && lanes[l].groupId.Some?
    ensures forall l | l in g :: Some(g[l]) == lanes[l].groupId
  {
    (map l | l in lanes :: GroupOf(lanes[l])) - Ungrouped(lanes)
  }

  /** Two lanes, each grouping under the other. */
  function TwoLanes(): map<LaneId, ArrangementLane> {
    map[1 := ArrangementLane(1, "", "", 0, false, false, Some(2)), 2 := ArrangementLane(2, "", "", 1, false, false, Some(1))]
  }

  /** The integrity check accepts them, in any consistent project without clips. */
  lemma GroupCycleAccepted(t: Tables)
    requires Consistent(t) && t.clips == map[]
    ensures Consistent(t.(lanes := TwoLanes())) && !Acyclic(GroupsOf(TwoLanes()))
  {
    var r := t.(lanes := TwoLanes());
    assert LanesConsistent(r);
    assert InstrumentsConsistent(r) by {
      forall i | i in r.instruments ensures InstrumentConsistent(r, r.instruments[i]) {
        assert InstrumentConsistent(t, t.instruments[i]);
      }
    }
    assert PatternsConsistent(r) by { PatternsStay(t, r); }
    assert TracksConsistent(r) by { SameTracks(t, r); }
    var g := GroupsOf(TwoLanes());
    assert g[1] == 2 && g[2] == 1;
    assert Walk(g, 1, 2) == Walk(g, 2, 1) == 1;
  }

  /** A project with these two lanes, a master track and nothing else is one such. */
  lemma GroupCycleInAProject(transport: TransportState, meta: ProjectMeta)
    ensures var master := MixerTrack(1, "", None, 1.0, 0.0, false, false, []);
      var t := Tables(map[], map[], TwoLanes(), map[], map[1 := master], 1, transport, meta);
      Consistent(t) && !Acyclic(GroupsOf(t.lanes))
  {
    var master := MixerTrack(1, "", None, 1.0, 0.0, false, false, []);
    var t := Tables(map[], map[], map[], map[], map[1 := master], 1, transport, meta);
    assert TracksConsistent(t) by { OneTrack(t.tracks); }
    GroupCycleAccepted(t);
    assert t.(lanes := TwoLanes()) == Tables(map[], map[], TwoLanes(), map[], map[1 := master], 1, transport, meta);
  }

  lemma OneTrack(tracks: map<TrackId, MixerTrack>)
    requires tracks.Keys == {1} && tracks[1].output.None?
    ensures Roots(tracks) == {1} && |Roots(tracks)| == 1 && Acyclic(RoutingOf(tracks))
  {
    assert Roots(tracks) == {1};
    assert RoutingOf(tracks) == map[];
  }

  function Grouped(lanes: map<LaneId, ArrangementLane>, l: LaneId, group: LaneId): map<LaneId, ArrangementLane>
    requires l in lanes
  {
    lanes[l := lanes[l].(groupId := Some(group))]
  }

  /** Setting a lane's group keeps the groups acyclic exactly when the walk from the new group does not come to the
      lane. */
  lemma {:induction false} GroupingKeepsAcyclicIff(lanes: map<LaneId, ArrangementLane>, l: LaneId, group: LaneId)
    requires l in lanes && Acyclic(GroupsOf(lanes))
    ensures Acyclic(GroupsOf(Grouped(lanes, l, group))) <==> !ComesTo(GroupsOf(lanes), group, l)
  {
    var g, h := GroupsOf(lanes), GroupsOf(Grouped(lanes, l, group));
    assert h == g[l := group];
    if ComesTo(g, group, l) {
      var k: nat :| Walk(g, group, k) == l;
      Redirected(g, h, l, group, k);
      var j: nat :| Walk(h, group, j) == l;
      assert Walk(h, l, j + 1) == Walk(h, group, j);
    } else {
      StillAcyclic(g, l, group);
    }
  }

  /** With `l` sent elsewhere, a walk that came to it still does. */
  lemma {:induction false} Redirected(g: Graph, h: Graph, l: nat, n: nat, k: nat)
    requires Walk(g, n, k) == l && l in h && h == g[l := h[l]]
    ensures ComesTo(h, n, l)
    decreases k
  {
    if n == l {
      assert Walk(h, n, 0) == l;
    } else if 0 < k && n in g {
      Redirected(g, h, l, g[n], k - 1);
      var j: nat :| Walk(h, g[n], j) == l;
      assert Walk(h, n, j + 1) == l;
    }
  }

  lemma {:induction false} StillAcyclic(g: Graph, l: nat, group: nat)
    requires Acyclic(g) && !ComesTo(g, group, l)
    ensures Acyclic(g[l := group])
  {
    var rank := AcyclicHasRank(g);
    var lifted: nat -> nat := (n: nat) => Lifted(g, rank, l, group, n);
    var h := g[l := group];
    forall n | n in h ensures lifted(h[n]) < lifted(n) {
      if n == l {
        assert Walk(g, l, 0) == l;
      } else {
        OneHop(g, n, l);
      }
    }
    RankedIsAcyclic(h, lifted);
  }

  /** Deleting a lane releases what it groups, and leaves acyclic groups acyclic. */
  lemma {:induction false} DeletingKeepsAcyclic(t: Tables, id: LaneId)
    requires Acyclic(GroupsOf(t.lanes))
    ensures Acyclic(GroupsOf(WithoutLane(t, id).lanes))
  {
    var rank := AcyclicHasRank(GroupsOf(t.lanes));
    RankedIsAcyclic(GroupsOf(WithoutLane(t, id).lanes), rank);
  }
}
