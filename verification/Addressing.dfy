/**
 The dense indices of a schedule: instruments by the order of their identifiers, then audio clips by theirs, and the
 inserts of every track by the order of tracks and of the chain. A project has one such numbering.
 */
module Addressing {
  import opened Entities

  /** Dense channel and insert indices. */
  datatype Addresses = Addresses(
    instruments: map<InstrumentId, nat>, audio: map<ClipId, nat>, effects: map<(TrackId, EffectId), nat>)

  function Once(b: bool): nat {
    if b then 1 else 0
  }

  /** How many members of `s` are below `x`. */
  function Below(s: set<nat>, x: nat): nat {
    if x == 0 then 0 else Below(s, x - 1) + Once(x - 1 in s)
  }

  function SlotsOf(tracks: map<TrackId, MixerTrack>, k: TrackId): nat {
    if k in tracks then |tracks[k].effects| else 0
  }

  /** How many inserts the tracks below `k` have. */
  function SlotsBelow(tracks: map<TrackId, MixerTrack>, k: TrackId): nat {
    if k == 0 then 0 else SlotsBelow(tracks, k - 1) + SlotsOf(tracks, k - 1)
  }

  function AudioClips(clips: map<ClipId, Clip>): set<ClipId> {
    set c | c in clips && clips[c].source.AudioSource?
  }

  ghost predicate Injective<K>(m: map<K, nat>) {
    forall a, b | a in m && b in m && a != b :: m[a] != m[b]
  }

  ghost predicate InstrumentsNumbered(instruments: set<InstrumentId>, m: map<InstrumentId, nat>) {
    m.Keys == instruments && forall i | i in m :: m[i] == Below(instruments, i)
  }

  ghost predicate AudioNumbered(clips: set<ClipId>, first: nat, m: map<ClipId, nat>) {
    m.Keys == clips && forall c | c in m :: m[c] == first + Below(clips, c)
  }

  /** An insert that comes twice in a chain has the index of its first place. */
  ghost predicate InsertsNumbered(tracks: map<TrackId, MixerTrack>, m: map<(TrackId, EffectId), nat>) {
    && (forall k, e: EffectId :: (k, e) in m <==> k in tracks && HasEffect(tracks[k], e))
    && (forall k, e: EffectId | (k, e) in m :: m[(k, e)] == SlotsBelow(tracks, k) + IndexOfEffect(tracks[k].effects, e))
  }

  ghost predicate Addressed(t: Tables, a: Addresses) {
    && InstrumentsNumbered(t.instruments.Keys, a.instruments)
    && AudioNumbered(AudioClips(t.clips), |t.instruments.Keys|, a.audio)
    && InsertsNumbered(t.tracks, a.effects)
  }

  /** A project has one numbering. */
  lemma OneNumbering(t: Tables, a: Addresses, b: Addresses)
    requires Addressed(t, a) && Addressed(t, b)
    ensures a == b
  {
    assert a.instruments == b.instruments;
    assert a.audio == b.audio;
    SameInserts(t.tracks, a.effects, b.effects);
  }

  lemma {:induction false} SameInserts(tracks: map<TrackId, MixerTrack>, m: map<(TrackId, EffectId), nat>,
                                       n: map<(TrackId, EffectId), nat>)
    requires InsertsNumbered(tracks, m) && InsertsNumbered(tracks, n)
    ensures m == n
  {
    forall p ensures p in m <==> p in n {
      assert p == (p.0, p.1);
    }
    forall p | p in m ensures m[p] == n[p] {
      assert p == (p.0, p.1);
    }
  }

  // ----- no two share an index -------------------------------------------------------------------

  lemma {:induction false} BelowAscends(s: set<nat>, x: nat, y: nat)
    requires x < y
    ensures Below(s, x) + Once(x in s) <= Below(s, y)
    decreases y
  {
    if x < y - 1 {
      BelowAscends(s, x, y - 1);
    }
  }

  lemma {:induction false} SlotsAscend(tracks: map<TrackId, MixerTrack>, k: TrackId, l: TrackId)
    requires k < l
    ensures SlotsBelow(tracks, k) + SlotsOf(tracks, k) <= SlotsBelow(tracks, l)
    decreases l
  {
    if k < l - 1 {
      SlotsAscend(tracks, k, l - 1);
    }
  }

  lemma {:induction false} BelowFits(s: set<nat>, x: nat)
    ensures Below(s, x) <= |s|
    decreases x
  {
    if 0 < x {
      if x - 1 in s {
        BelowFits(s - {x - 1}, x - 1);
        BelowSame(s, s - {x - 1}, x - 1);
      } else {
        BelowFits(s, x - 1);
      }
    }
  }

  lemma {:induction false} BelowSame(s: set<nat>, r: set<nat>, x: nat)
    requires forall y | y < x :: y in s <==> y in r
    ensures Below(s, x) == Below(r, x)
    decreases x
  {
    if 0 < x {
      BelowSame(s, r, x - 1);
    }
  }

  /** Every instrument and every audio clip has a channel of its own, every insert an index of its own. */
  lemma {:induction false} AddressesApart(t: Tables, a: Addresses)
    requires Addressed(t, a)
    ensures Injective(a.instruments) && Injective(a.audio) && Injective(a.effects)
    ensures forall i, c | i in a.instruments && c in a.audio :: a.instruments[i] < a.audio[c]
  {
    NumberedApart(t.instruments.Keys, 0, a.instruments);
    NumberedApart(AudioClips(t.clips), |t.instruments.Keys|, a.audio);
    InsertsApart(t.tracks, a.effects);
    forall i | i in a.instruments ensures a.instruments[i] < |t.instruments.Keys| {
      BelowFits(t.instruments.Keys, i + 1);
    }
  }

  /** The indices ascend with the identifiers, and they are the first so many numbers; the audio clips go on where the
      instruments end. */
  lemma {:induction false} AddressesAscend(t: Tables, a: Addresses)
    requires Addressed(t, a)
    ensures forall i, j | i in a.instruments && j in a.instruments && i < j :: a.instruments[i] < a.instruments[j]
    ensures forall c, d | c in a.audio && d in a.audio && c < d :: a.audio[c] < a.audio[d]
    ensures forall i | i in a.instruments :: a.instruments[i] < |t.instruments.Keys|
    ensures forall c | c in a.audio :: 0 <= a.audio[c] - |t.instruments.Keys| < |AudioClips(t.clips)|
  {
    Ascends(t.instruments.Keys, 0, a.instruments);
    Ascends(AudioClips(t.clips), |t.instruments.Keys|, a.audio);
  }

  lemma {:induction false} Ascends(s: set<nat>, first: nat, m: map<nat, nat>)
    requires AudioNumbered(s, first, m)
    ensures forall c, d | c in m && d in m && c < d :: m[c] < m[d]
    ensures forall c | c in m :: 0 <= m[c] - first < |s|
  {
    forall c, d | c in m && d in m && c < d ensures m[c] < m[d] {
      BelowAscends(s, c, d);
    }
    forall c | c in m ensures 0 <= m[c] - first < |s| {
      BelowFits(s, c + 1);
    }
  }

  /** The inserts of a track come before those of a later one, and within a chain in its order. */
  lemma {:induction false} InsertsAscend(t: Tables, a: Addresses, k: TrackId, e: EffectId, l: TrackId, f: EffectId)
    requires Addressed(t, a) && (k, e) in a.effects && (l, f) in a.effects
    ensures k < l ==> a.effects[(k, e)] < a.effects[(l, f)]
    ensures k == l ==>
      a.effects[(l, f)] + IndexOfEffect(t.tracks[k].effects, e) == a.effects[(k, e)] + IndexOfEffect(t.tracks[k].effects, f)
  {
    if k < l {
      SlotsAscend(t.tracks, k, l);
    }
  }

  lemma {:induction false} NumberedApart(s: set<nat>, first: nat, m: map<nat, nat>)
    requires AudioNumbered(s, first, m)
    ensures Injective(m)
  {
    forall c, d | c in m && d in m && c < d ensures m[c] < m[d] {
      BelowAscends(s, c, d);
    }
  }

  lemma {:induction false} InsertsApart(tracks: map<TrackId, MixerTrack>, m: map<(TrackId, EffectId), nat>)
    requires InsertsNumbered(tracks, m)
    ensures Injective(m)
  {
    forall p, q | p in m && q in m && p != q ensures m[p] != m[q] {
      assert p == (p.0, p.1) && q == (q.0, q.1);
      if p.0 < q.0 {
        SlotsAscend(tracks, p.0, q.0);
      } else if q.0 < p.0 {
        SlotsAscend(tracks, q.0, p.0);
      }
    }
  }

  // ----- assigning them --------------------------------------------------------------------------

  lemma {:induction false} HasLeast(s: set<nat>) returns (least: nat)
    requires s != {}
    ensures least in s && forall x | x in s :: least <= x
  {
    var x :| x in s;
    var rest := s - {x};
    if rest == {} {
      least := x;
      assert forall y | y in s :: y == x || y in rest;
    } else {
      var l := HasLeast(rest);
      least := if l < x then l else x;
      assert forall y | y in s :: y == x || y in rest;
    }
  }

  /** The members of a set in the order a sorted map gives them. */
  method Ascending(s: set<nat>) returns (ids: seq<nat>)
    ensures forall x :: x in ids <==> x in s
    ensures forall i, j | 0 <= i < j < |ids| :: ids[i] < ids[j]
  {
    ids := [];
    var todo := s;
    while todo != {}
      invariant todo <= s
      invariant forall x :: x in ids <==> x in s && x !in todo
      invariant forall x, i | x in todo && 0 <= i < |ids| :: ids[i] < x
      invariant forall i, j | 0 <= i < j < |ids| :: ids[i] < ids[j]
    {
      ghost var least := HasLeast(todo);
      var x :| x in todo && forall y | y in todo :: x <= y;
      todo := todo - {x};
      ids := ids + [x];
    }
  }

  /** Just past the first `k` of them. */
  ghost function Past(ids: seq<nat>, k: nat): nat
    requires k <= |ids|
  {
    if k == 0 then 0 else ids[k - 1] + 1
  }

  lemma {:induction false} NoneBetween(s: set<nat>, x: nat, y: nat)
    requires x <= y && forall z | x <= z < y :: z !in s
    ensures Below(s, y) == Below(s, x)
    decreases y
  {
    if x < y {
      NoneBetween(s, x, y - 1);
    }
  }

  lemma {:induction false} NoSlotsBetween(tracks: map<TrackId, MixerTrack>, x: nat, y: nat)
    requires x <= y && forall z | x <= z < y :: z !in tracks
    ensures SlotsBelow(tracks, y) == SlotsBelow(tracks, x)
    decreases y
  {
    if x < y {
      NoSlotsBetween(tracks, x, y - 1);
    }
  }

  /** Between the first `k` members and the next there is none. */
  lemma Gap(ids: seq<nat>, k: nat, z: nat)
    requires k < |ids| && (forall i, j | 0 <= i < j < |ids| :: ids[i] < ids[j]) && Past(ids, k) <= z < ids[k]
    ensures z !in ids
  {
  }

  lemma {:induction false} NextBelow(s: set<nat>, ids: seq<nat>, k: nat)
    requires k < |ids| && (forall i, j | 0 <= i < j < |ids| :: ids[i] < ids[j]) && forall x | x in s :: x in ids
    ensures Below(s, ids[k]) == Below(s, Past(ids, k))
    ensures Below(s, Past(ids, k + 1)) == Below(s, ids[k]) + Once(ids[k] in s)
  {
    forall z | Past(ids, k) <= z < ids[k] ensures z !in s {
      Gap(ids, k, z);
    }
    NoneBetween(s, Past(ids, k), ids[k]);
  }

  lemma {:induction false} AsMany(s: set<nat>, ids: seq<nat>)
    requires forall i, j | 0 <= i < j < |ids| :: ids[i] < ids[j]
    requires forall x :: x in s <==> x in ids
    ensures |s| == |ids|
  {
    if ids != [] {
      var n := |ids| - 1;
      forall x ensures x in s - {ids[n]} <==> x in ids[..n] {
        assert x in ids[..n] ==> x != ids[n];
      }
      AsMany(s - {ids[n]}, ids[..n]);
    } else {
      assert s == {};
    }
  }

  method AssignAddresses(t: Tables) returns (a: Addresses)
    ensures Addressed(t, a)
  {
    var instruments, next := AssignInstruments(t.instruments.Keys);
    var audio := AssignAudio(t.clips, next);
    var effects := AssignEffects(t.tracks);
    a := Addresses(instruments, audio, effects);
  }

  method AssignInstruments(instruments: set<InstrumentId>) returns (m: map<InstrumentId, nat>, next: nat)
    ensures InstrumentsNumbered(instruments, m) && next == |instruments|
  {
    var ids := Ascending(instruments);
    m, next := map[], 0;
    for k := 0 to |ids|
      invariant next == k == Below(instruments, Past(ids, k))
      invariant forall i :: i in m <==> i in ids[..k]
      invariant forall i | i in m :: m[i] == Below(instruments, i)
    {
      assert ids[..k + 1] == ids[..k] + [ids[k]];
      NextBelow(instruments, ids, k);
      m := m[ids[k] := next];
      next := next + 1;
    }
    assert ids[..|ids|] == ids;
    AsMany(instruments, ids);
  }

  /** The audio clips among all clips, from the first free channel on. */
  method AssignAudio(clips: map<ClipId, Clip>, first: nat) returns (audio: map<ClipId, nat>)
    ensures AudioNumbered(AudioClips(clips), first, audio)
  {
    var ids := Ascending(clips.Keys);
    var next := first;
    audio := map[];
    for k := 0 to |ids|
      invariant next == first + Below(AudioClips(clips), Past(ids, k))
      invariant forall c :: c in audio <==> c in ids[..k] && c in AudioClips(clips)
      invariant forall c | c in audio :: audio[c] == first + Below(AudioClips(clips), c)
    {
      assert ids[..k + 1] == ids[..k] + [ids[k]];
      NextBelow(AudioClips(clips), ids, k);
      if clips[ids[k]].source.AudioSource? {
        audio := audio[ids[k] := next];
        next := next + 1;
      }
    }
    assert ids[..|ids|] == ids;
  }

  /** Of the inserts of a track in `done`, its index; of others none. */
  ghost predicate InsertOf(tracks: map<TrackId, MixerTrack>, m: map<(TrackId, EffectId), nat>, done: seq<TrackId>,
                           k: TrackId, e: EffectId)
  {
    && ((k, e) in m <==> k in done && k in tracks && HasEffect(tracks[k], e))
    && ((k, e) in m ==> m[(k, e)] == SlotsBelow(tracks, k) + IndexOfEffect(tracks[k].effects, e))
  }

  method AssignEffects(tracks: map<TrackId, MixerTrack>) returns (m: map<(TrackId, EffectId), nat>)
    ensures InsertsNumbered(tracks, m)
  {
    var ids := Ascending(tracks.Keys);
    m := map[];
    var next := 0;
    for k := 0 to |ids|
      invariant next == SlotsBelow(tracks, Past(ids, k))
      invariant forall j, e: EffectId :: InsertOf(tracks, m, ids[..k], j, e)
    {
      forall z | Past(ids, k) <= z < ids[k] ensures z !in tracks {
        Gap(ids, k, z);
      }
      NoSlotsBetween(tracks, Past(ids, k), ids[k]);
      ghost var before, further := m, ids[..k + 1];
      assert further == ids[..k] + [ids[k]] && ids[k] !in ids[..k];
      forall e: EffectId ensures (ids[k], e) !in m {
        assert InsertOf(tracks, m, ids[..k], ids[k], e);
      }
      m, next := AssignChain(m, ids[k], tracks[ids[k]].effects, next);
      forall j, e: EffectId ensures InsertOf(tracks, m, further, j, e) {
        assert InsertOf(tracks, before, ids[..k], j, e);
        assert WithInsert(m, before, ids[k], tracks[ids[k]].effects, SlotsBelow(tracks, ids[k]), j, e);
      }
    }
    assert ids[..|ids|] == ids;
    forall j, e: EffectId ensures (j, e) in m <==> j in tracks && HasEffect(tracks[j], e) {
      assert InsertOf(tracks, m, ids, j, e);
    }
    forall j, e: EffectId | (j, e) in m ensures m[(j, e)] == SlotsBelow(tracks, j) + IndexOfEffect(tracks[j].effects, e) {
      assert InsertOf(tracks, m, ids, j, e);
    }
  }

  /** An insert of the track as far as the chain goes, or one there was before. */
  ghost predicate WithInsert(m: map<(TrackId, EffectId), nat>, before: map<(TrackId, EffectId), nat>, track: TrackId,
                             chain: seq<EffectSlot>, start: nat, k: TrackId, e: EffectId)
  {
    if k == track then
      ((k, e) in m <==> IndexOfEffect(chain, e) < |chain|) && ((k, e) in m ==> m[(k, e)] == start + IndexOfEffect(chain, e))
    else ((k, e) in m <==> (k, e) in before) && ((k, e) in m ==> m[(k, e)] == before[(k, e)])
  }

  method AssignChain(before: map<(TrackId, EffectId), nat>, track: TrackId, chain: seq<EffectSlot>, start: nat)
    returns (m: map<(TrackId, EffectId), nat>, next: nat)
    requires forall e :: (track, e) !in before
    ensures next == start + |chain|
    ensures forall k, e: EffectId :: WithInsert(m, before, track, chain, start, k, e)
  {
    m, next := before, start;
    for i := 0 to |chain|
      invariant next == start + i
      invariant forall k, e: EffectId :: WithInsert(m, before, track, chain[..i], start, k, e)
    {
      ghost var was, further := m, chain[..i + 1];
      var p := (track, chain[i].id);
      if p !in m {
        m := m[p := next];
      }
      next := next + 1;
      forall k, e: EffectId ensures WithInsert(m, before, track, further, start, k, e) {
        assert WithInsert(was, before, track, chain[..i], start, k, e);
        InsertGrows(was, before, track, chain, i, start, k, e);
      }
    }
    assert chain[..|chain|] == chain;
  }

  lemma {:induction false} InsertGrows(m: map<(TrackId, EffectId), nat>, before: map<(TrackId, EffectId), nat>,
                                       track: TrackId, chain: seq<EffectSlot>, i: nat, start: nat, k: TrackId, e: EffectId)
    requires i < |chain| && WithInsert(m, before, track, chain[..i], start, k, e)
    ensures var p := (track, chain[i].id);
      WithInsert(if p in m then m else m[p := start + i], before, track, chain[..i + 1], start, k, e)
  {
    IndexNext(chain, i, e);
  }

  /** The first place of an insert, when the chain goes one further. */
  lemma IndexNext(chain: seq<EffectSlot>, i: nat, e: EffectId)
    requires i < |chain|
    ensures IndexOfEffect(chain[..i + 1], e) ==
            if IndexOfEffect(chain[..i], e) < i then IndexOfEffect(chain[..i], e)
            else if chain[i].id == e then i
            else i + 1
  {
    var before, after := IndexOfEffect(chain[..i], e), IndexOfEffect(chain[..i + 1], e);
    assert before < i ==> chain[..i + 1][before].id == e;
    assert after < i ==> chain[..i][after].id == e;
  }
}
