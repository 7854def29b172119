/**
 * The DAW's project model: four tracks of clips placed on a 120-second
 * timeline, the drag-and-drop edits, the transport (rewind, fast-forward,
 * play, pause, stop) and the per-frame rule that decides which clips start.
 * Audio elements are represented by their scheduled entries; the DOM,
 * playhead pixels and the effect graph are not modelled.
 */
module Daw {
  import opened Wrappers
  import opened JsMath

  const MaxDuration: real := 120.0
  const TrackCount := 4

  /** A clip instance on a track. savedStart is the start_time copy written on save. */
  datatype Clip = Clip(instanceId: string, file: string, filename: string, startTime: real, duration: real,
                       savedStart: Option<real>)

  /** A track: its clips and its volume (0 to 100), which saved data may lack. */
  datatype Track = Track(clips: seq<Clip>, volume: Option<int>)

  function EmptyTracks(): seq<Track> {
    seq(TrackCount, _ => Track([], None))
  }

  /** The project's tracks on load: the saved ones only when there are exactly four. */
  function InitialTracks(saved: Option<seq<Track>>): (r: seq<Track>)
    ensures |r| == TrackCount
    ensures saved.Some? && |saved.value| == TrackCount ==> r == saved.value
    ensures !(saved.Some? && |saved.value| == TrackCount) ==> forall i :: 0 <= i < |r| ==> r[i].clips == []
  {
    if saved.Some? && |saved.value| == TrackCount then saved.value else EmptyTracks()
  }

  /** n empty tracks at full volume. */
  function FreshTracks(n: nat): seq<Track> {
    seq(n, _ => Track([], Some(100)))
  }

  /** renderTracks' padding: empty tracks at full volume are appended up to four. */
  function Padded(tracks: seq<Track>): seq<Track> {
    if |tracks| >= TrackCount then tracks else tracks + FreshTracks(TrackCount - |tracks|)
  }

  lemma PaddedShape(tracks: seq<Track>)
    ensures var r := Padded(tracks);
      |r| == if |tracks| >= TrackCount then |tracks| else TrackCount
    ensures Padded(tracks)[..|tracks|] == tracks
    ensures forall i :: |tracks| <= i < |Padded(tracks)| ==> Padded(tracks)[i] == Track([], Some(100))
  {
  }

  // ---------------------------------------------------------------- clip lists

  predicate HasId(clips: seq<Clip>, id: string) {
    exists i :: 0 <= i < |clips| && clips[i].instanceId == id
  }

  /** clips.filter(c => c.instanceId !== id). */
  function RemoveId(clips: seq<Clip>, id: string): (r: seq<Clip>)
    ensures forall c :: c in r <==> c in clips && c.instanceId != id
    ensures !HasId(r, id) && |r| <= |clips|
    ensures !HasId(clips, id) ==> r == clips
  {
    if clips == [] then []
    else if clips[0].instanceId == id then RemoveId(clips[1..], id)
    else
      assert !HasId(clips, id) ==> !HasId(clips[1..], id) by {
        if HasId(clips[1..], id) {
          var i :| 0 <= i < |clips[1..]| && clips[1..][i].instanceId == id;
          assert clips[i + 1].instanceId == id;
        }
      }
      [clips[0]] + RemoveId(clips[1..], id)
  }

  /** clips.filter(c => c.file !== url). */
  function RemoveFile(clips: seq<Clip>, url: string): (r: seq<Clip>)
    ensures forall c :: c in r <==> c in clips && c.file != url
    ensures |r| <= |clips|
  {
    if clips == [] then []
    else if clips[0].file == url then RemoveFile(clips[1..], url)
    else [clips[0]] + RemoveFile(clips[1..], url)
  }

  /** clips.find(c => c.instanceId === id): the index of the first match, |clips| when there is none. */
  function FindId(clips: seq<Clip>, id: string): (k: nat)
    ensures k <= |clips|
    ensures k < |clips| ==> clips[k].instanceId == id
    ensures forall j :: 0 <= j < k ==> clips[j].instanceId != id
    ensures k == |clips| <==> !HasId(clips, id)
  {
    if clips == [] then 0
    else if clips[0].instanceId == id then 0
    else 1 + FindId(clips[1..], id)
  }

  // ---------------------------------------------------------------- dropping

  /** Where a drag began: the clip library (or the uploads list), nowhere known, or a track. */
  datatype Source = Library | Unknown | FromTrack(index: int)

  /** What a drag carries: the clip's record, its origin and the instance id of the dragged clip. */
  datatype DragData = DragData(clip: Clip, from: Source, instanceId: string)

  /** A drop's start time: the drop position, not left of the timeline, on the 1-second grid. */
  function SnapStart(dropX: real, width: real): (t: real)
    requires width > 0.0
    ensures t >= 0.0 && t == t.Floor as real
    ensures var exact := Max(0.0, dropX) / width * MaxDuration; exact - 0.5 < t <= exact + 0.5
  {
    var exact := Max(0.0, dropX) / width * MaxDuration;
    assert exact >= 0.0;
    Round(exact) as real
  }

  /** clip.duration || 5: a missing (zero) duration is five seconds. */
  function DurationOr5(d: real): real {
    if d == 0.0 then 5.0 else d
  }

  /** The clip a drop inserts: snapped, with a duration, and a fresh id when it came from the library. */
  function DroppedClip(data: DragData, start: real, freshId: string): Clip {
    data.clip.(startTime := start, duration := DurationOr5(data.clip.duration),
               instanceId := if data.from == Library then freshId else data.clip.instanceId)
  }

  function WithClips(tracks: seq<Track>, i: nat, clips: seq<Clip>): seq<Track>
    requires i < |tracks|
  {
    tracks[i := tracks[i].(clips := clips)]
  }

  /** The timeline drop handler's effect on the tracks. */
  function Dropped(tracks: seq<Track>, target: nat, data: DragData, start: real, freshId: string): seq<Track>
    requires target < |tracks|
    requires data.from.FromTrack? ==> 0 <= data.from.index < |tracks|
  {
    var clips := tracks[target].clips;
    if data.from == FromTrack(target) then
      var k := FindId(clips, data.instanceId);
      if k < |clips| then WithClips(tracks, target, clips[k := clips[k].(startTime := start)]) else tracks
    else
      var lifted := if data.from.FromTrack? then
        WithClips(tracks, data.from.index, RemoveId(tracks[data.from.index].clips, data.instanceId)) else tracks;
      var c := DroppedClip(data, start, freshId);
      if HasId(lifted[target].clips, c.instanceId) then lifted
      else WithClips(lifted, target, lifted[target].clips + [c])
  }

  /**
   * A drop on the clip's own track moves only that instance in time; no track
   * gains or loses a clip. The first clip with the dragged id takes the new
   * start and every other clip is kept; with no such clip nothing changes.
   */
  lemma DropSameTrack(tracks: seq<Track>, target: nat, data: DragData, start: real, freshId: string)
    requires target < |tracks| && data.from == FromTrack(target)
    ensures var r := Dropped(tracks, target, data, start, freshId);
      |r| == |tracks| &&
      (forall i :: 0 <= i < |r| ==> |r[i].clips| == |tracks[i].clips| && r[i].volume == tracks[i].volume) &&
      (forall i :: 0 <= i < |r| && i != target ==> r[i] == tracks[i]) &&
      (forall j :: 0 <= j < |r[target].clips| ==>
        r[target].clips[j] == tracks[target].clips[j] ||
        (r[target].clips[j] == tracks[target].clips[j].(startTime := start) &&
         tracks[target].clips[j].instanceId == data.instanceId))
    ensures var r := Dropped(tracks, target, data, start, freshId);
      var clips := tracks[target].clips;
      (!HasId(clips, data.instanceId) ==> r == tracks) &&
      (HasId(clips, data.instanceId) ==>
        exists k :: 0 <= k < |clips| && clips[k].instanceId == data.instanceId &&
          (forall j :: 0 <= j < k ==> clips[j].instanceId != data.instanceId) &&
          r[target].clips == clips[k := clips[k].(startTime := start)])
  {
    var clips := tracks[target].clips;
    var k := FindId(clips, data.instanceId);
    if HasId(clips, data.instanceId) {
      assert k < |clips|;
    }
  }

  /**
   * A drop from elsewhere: the instance leaves the track it came from, lands
   * on the target unless an instance with its id is there already, and no
   * other track changes.
   */
  lemma DropAcross(tracks: seq<Track>, target: nat, data: DragData, start: real, freshId: string)
    requires target < |tracks| && data.from != FromTrack(target)
    requires data.from.FromTrack? ==> 0 <= data.from.index < |tracks|
    ensures var r := Dropped(tracks, target, data, start, freshId);
      var c := DroppedClip(data, start, freshId);
      |r| == |tracks| &&
      (forall i :: 0 <= i < |r| && i != target && data.from != FromTrack(i) ==> r[i] == tracks[i]) &&
      (data.from.FromTrack? ==> r[data.from.index].clips == RemoveId(tracks[data.from.index].clips, data.instanceId)) &&
      HasId(r[target].clips, c.instanceId) &&
      (!HasId(tracks[target].clips, c.instanceId) ==> r[target].clips == tracks[target].clips + [c]) &&
      (HasId(tracks[target].clips, c.instanceId) ==> r[target] == tracks[target])
  {
    var r := Dropped(tracks, target, data, start, freshId);
    var c := DroppedClip(data, start, freshId);
    var lifted := if data.from.FromTrack? then
      WithClips(tracks, data.from.index, RemoveId(tracks[data.from.index].clips, data.instanceId)) else tracks;
    assert lifted[target] == tracks[target];
    if !HasId(lifted[target].clips, c.instanceId) {
      var cs := lifted[target].clips + [c];
      assert cs[|cs| - 1] == c;
    }
  }

  // ---------------------------------------------------------------- all clips and the transport

  /** A clip with the index of its track, as getAllClips lists them. */
  datatype Placed = Placed(clip: Clip, track: nat)

  function TrackClips(clips: seq<Clip>, track: nat): seq<Placed> {
    seq(|clips|, j requires 0 <= j < |clips| => Placed(clips[j], track))
  }

  /** Track by track, each track's clips in order. */
  function AllClips(tracks: seq<Track>): seq<Placed> {
    if tracks == [] then [] else AllClips(tracks[..|tracks| - 1]) + TrackClips(tracks[|tracks| - 1].clips, |tracks| - 1)
  }

  /** Every clip of every track is listed with its track, and nothing else is. */
  lemma {:induction false} AllClipsMembers(tracks: seq<Track>, p: Placed)
    ensures p in AllClips(tracks) <==> p.track < |tracks| && p.clip in tracks[p.track].clips
  {
    if tracks != [] {
      var n := |tracks| - 1;
      AllClipsMembers(tracks[..n], p);
      var tc := TrackClips(tracks[n].clips, n);
      if p in tc {
        var j :| 0 <= j < |tc| && tc[j] == p;
        assert tracks[n].clips[j] == p.clip;
      }
      if p.track == n && p.clip in tracks[n].clips {
        var j :| 0 <= j < |tracks[n].clips| && tracks[n].clips[j] == p.clip;
        assert tc[j] == p;
      }
    }
  }

  /** Math.min over the clips' start times. */
  function MinStart(ps: seq<Placed>): (m: real)
    requires ps != []
    ensures forall p :: p in ps ==> m <= p.clip.startTime
    ensures exists p :: p in ps && m == p.clip.startTime
  {
    if |ps| == 1 then ps[0].clip.startTime
    else
      var rest := MinStart(ps[1..]);
      assert forall p :: p in ps[1..] ==> p in ps;
      Min(ps[0].clip.startTime, rest)
  }

  /** Math.max over the clips' end times. */
  function MaxEnd(ps: seq<Placed>): (m: real)
    requires ps != []
    ensures forall p :: p in ps ==> p.clip.startTime + p.clip.duration <= m
    ensures exists p :: p in ps && m == p.clip.startTime + p.clip.duration
  {
    if |ps| == 1 then ps[0].clip.startTime + ps[0].clip.duration
    else
      var rest := MaxEnd(ps[1..]);
      assert forall p :: p in ps[1..] ==> p in ps;
      Max(ps[0].clip.startTime + ps[0].clip.duration, rest)
  }

  /** Rewind: five seconds back, not before the earliest clip (0 without clips), on the grid. */
  function RewindTime(all: seq<Placed>, t: real): real {
    var lo := if all == [] then 0.0 else MinStart(all);
    Round(Max(lo, t - 5.0)) as real
  }

  /** Fast-forward: five seconds on, not past the latest clip end (120 without clips), on the grid. */
  function ForwardTime(all: seq<Placed>, t: real): real {
    var hi := if all == [] then MaxDuration else MaxEnd(all);
    Round(Min(hi, t + 5.0)) as real
  }

  /** Rewinding lands on a whole second no earlier than the earliest clip, rounded. */
  lemma RewindBounds(all: seq<Placed>, t: real)
    ensures var r := RewindTime(all, t); r == r.Floor as real
    ensures all != [] ==> RewindTime(all, t) >= Round(MinStart(all)) as real
    ensures all == [] ==> RewindTime(all, t) >= 0.0
    ensures var lo := if all == [] then 0.0 else MinStart(all);
      t - 5.0 >= lo ==> RewindTime(all, t) == Round(t - 5.0) as real
  {
    var lo := if all == [] then 0.0 else MinStart(all);
    RoundMonotone(lo, Max(lo, t - 5.0));
    RoundWhole(0);
  }

  /** Fast-forwarding lands on a whole second no later than the latest clip end, rounded. */
  lemma ForwardBounds(all: seq<Placed>, t: real)
    ensures var r := ForwardTime(all, t); r == r.Floor as real
    ensures all != [] ==> ForwardTime(all, t) <= Round(MaxEnd(all)) as real
    ensures all == [] ==> ForwardTime(all, t) <= MaxDuration
    ensures var hi := if all == [] then MaxDuration else MaxEnd(all);
      t + 5.0 <= hi ==> ForwardTime(all, t) == Round(t + 5.0) as real
  {
    var hi := if all == [] then MaxDuration else MaxEnd(all);
    RoundMonotone(Min(hi, t + 5.0), hi);
    RoundWhole(120);
  }

  // ---------------------------------------------------------------- scheduling

  /** A started clip: the fields playClip records, plus where it started playing and at what gain. */
  datatype Scheduled = Scheduled(instanceId: string, startTime: real, duration: real, track: nat,
                                 offset: real, gain: real)

  predicate Playing(scheduled: seq<Scheduled>, id: string) {
    exists i :: 0 <= i < |scheduled| && scheduled[i].instanceId == id
  }

  /** A clip sounds at time t when t is in [start, start + duration). */
  predicate Active(c: Clip, t: real) {
    c.startTime <= t < c.startTime + c.duration
  }

  /** (track.volume ?? 100) / 100. */
  function TrackGain(tracks: seq<Track>, track: nat): real {
    if track < |tracks| && tracks[track].volume.Some? then tracks[track].volume.value as real / 100.0 else 1.0
  }

  function Entry(p: Placed, t: real, tracks: seq<Track>): Scheduled {
    Scheduled(p.clip.instanceId, p.clip.startTime, p.clip.duration, p.track, t - p.clip.startTime, TrackGain(tracks, p.track))
  }

  /** One frame's scheduling pass over the clips, in order: a clip starts when active and its id is not already playing. */
  function Schedule(scheduled: seq<Scheduled>, ps: seq<Placed>, t: real, tracks: seq<Track>): seq<Scheduled> {
    if ps == [] then scheduled
    else
      var before := Schedule(scheduled, ps[..|ps| - 1], t, tracks);
      var p := ps[|ps| - 1];
      if !Playing(before, p.clip.instanceId) && Active(p.clip, t) then before + [Entry(p, t, tracks)] else before
  }

  predicate UniqueIds(scheduled: seq<Scheduled>) {
    forall i, j :: 0 <= i < j < |scheduled| ==> scheduled[i].instanceId != scheduled[j].instanceId
  }

  /** A frame only appends to the started clips, and never starts an id twice. */
  lemma {:induction false} SchedulePrefix(scheduled: seq<Scheduled>, ps: seq<Placed>, t: real, tracks: seq<Track>)
    requires UniqueIds(scheduled)
    ensures var r := Schedule(scheduled, ps, t, tracks);
      |r| >= |scheduled| && r[..|scheduled|] == scheduled && UniqueIds(r)
  {
    if ps != [] {
      SchedulePrefix(scheduled, ps[..|ps| - 1], t, tracks);
    }
  }

  /** Every clip a frame starts is a listed clip active at t, started t - start into it, on an id that was not playing. */
  lemma {:induction false} ScheduleNew(scheduled: seq<Scheduled>, ps: seq<Placed>, t: real, tracks: seq<Track>)
    requires UniqueIds(scheduled)
    ensures var r := Schedule(scheduled, ps, t, tracks);
      forall k :: |scheduled| <= k < |r| ==>
        !Playing(scheduled, r[k].instanceId) &&
        exists p :: p in ps && Active(p.clip, t) && r[k] == Entry(p, t, tracks)
  {
    if ps != [] {
      var n := |ps| - 1;
      ScheduleNew(scheduled, ps[..n], t, tracks);
      SchedulePrefix(scheduled, ps[..n], t, tracks);
      var before := Schedule(scheduled, ps[..n], t, tracks);
      var r := Schedule(scheduled, ps, t, tracks);
      assert forall q :: q in ps[..n] ==> q in ps;
      forall k | |scheduled| <= k < |r|
        ensures !Playing(scheduled, r[k].instanceId) &&
          exists p :: p in ps && Active(p.clip, t) && r[k] == Entry(p, t, tracks)
      {
        if k < |before| {
          assert r[k] == before[k];
        } else {
          assert forall i :: 0 <= i < |scheduled| ==> before[i] == scheduled[i];
          assert r[k] == Entry(ps[n], t, tracks);
        }
      }
    }
  }

  /** After a frame, every listed clip active at t is playing. */
  lemma {:induction false} ScheduleComplete(scheduled: seq<Scheduled>, ps: seq<Placed>, t: real, tracks: seq<Track>)
    ensures forall p :: p in ps && Active(p.clip, t) ==> Playing(Schedule(scheduled, ps, t, tracks), p.clip.instanceId)
  {
    if ps != [] {
      var n := |ps| - 1;
      ScheduleComplete(scheduled, ps[..n], t, tracks);
      var before := Schedule(scheduled, ps[..n], t, tracks);
      var r := Schedule(scheduled, ps, t, tracks);
      forall q | q in ps && Active(q.clip, t) ensures Playing(r, q.clip.instanceId) {
        if q in ps[..n] {
          var i :| 0 <= i < |before| && before[i].instanceId == q.clip.instanceId;
          assert r[i] == before[i];
        } else {
          assert q == ps[n];
          if r != before {
            assert r[|before|].instanceId == q.clip.instanceId;
          }
        }
      }
    }
  }

  // ---------------------------------------------------------------- the editor

  class Project {
    var tracks: seq<Track>
    var scheduled: seq<Scheduled>
    var currentTime: real
    var isPlaying: bool
    var lastUpdateTime: real

    /** Four tracks, and no clip id is playing twice. */
    ghost predicate Valid()
      reads this
    {
      |tracks| == TrackCount && UniqueIds(scheduled)
    }

    constructor (saved: Option<seq<Track>>)
      ensures Valid() && tracks == InitialTracks(saved)
      ensures scheduled == [] && currentTime == 0.0 && !isPlaying
    {
      tracks := InitialTracks(saved);
      scheduled := [];
      currentTime := 0.0;
      isPlaying := false;
      lastUpdateTime := 0.0;
    }

    /** renderTracks' loop: push empty full-volume tracks while there are fewer than four. */
    method RenderTracks()
      modifies this`tracks
      ensures tracks == Padded(old(tracks))
    {
      while |tracks| < TrackCount
        invariant |old(tracks)| < TrackCount ==> |old(tracks)| <= |tracks| <= TrackCount
        invariant |old(tracks)| >= TrackCount ==> tracks == old(tracks)
        invariant |old(tracks)| <= |tracks| && tracks == old(tracks) + FreshTracks(|tracks| - |old(tracks)|)
        decreases TrackCount - |tracks|
      {
        assert FreshTracks(|tracks| - |old(tracks)| + 1) == FreshTracks(|tracks| - |old(tracks)|) + [Track([], Some(100))];
        tracks := tracks + [Track([], Some(100))];
      }
    }

    /** The timeline drop handler; a drag without a clip record changes nothing. */
    method Drop(target: nat, data: Option<DragData>, dropX: real, width: real, freshId: string)
      requires Valid() && target < |tracks| && width > 0.0
      requires data.Some? && data.value.from.FromTrack? ==> 0 <= data.value.from.index < |tracks|
      modifies this`tracks
      ensures Valid()
      ensures data.None? ==> tracks == old(tracks)
      ensures data.Some? ==> tracks == Dropped(old(tracks), target, data.value, SnapStart(dropX, width), freshId)
    {
      if data.None? {
        return;
      }
      var d := data.value;
      var start := SnapStart(dropX, width);
      var clips := tracks[target].clips;
      if d.from == FromTrack(target) {
        var k := FindId(clips, d.instanceId);
        if k < |clips| {
          tracks := WithClips(tracks, target, clips[k := clips[k].(startTime := start)]);
        }
      } else {
        if d.from.FromTrack? {
          var i := d.from.index;
          tracks := WithClips(tracks, i, RemoveId(tracks[i].clips, d.instanceId));
        }
        var c := DroppedClip(d, start, freshId);
        if !HasId(tracks[target].clips, c.instanceId) {
          tracks := WithClips(tracks, target, tracks[target].clips + [c]);
        }
      }
    }

    /** Dragging a clip off the timeline, confirmed: the clips with that id leave that track. */
    method DeleteClip(track: nat, id: string, confirmed: bool)
      requires Valid() && track < |tracks|
      modifies this`tracks
      ensures Valid()
      ensures tracks == if confirmed then WithClips(old(tracks), track, RemoveId(old(tracks)[track].clips, id)) else old(tracks)
      ensures !HasId(tracks[track].clips, id) || !confirmed
    {
      if confirmed {
        tracks := WithClips(tracks, track, RemoveId(tracks[track].clips, id));
      }
    }

    /** Replacing an upload, confirmed: every clip of that file leaves every track. */
    method ReplaceUpload(url: string, confirmed: bool)
      requires Valid()
      modifies this`tracks
      ensures Valid() && |tracks| == |old(tracks)|
      ensures !confirmed ==> tracks == old(tracks)
      ensures confirmed ==> forall i :: 0 <= i < |tracks| ==>
        tracks[i] == old(tracks)[i].(clips := RemoveFile(old(tracks)[i].clips, url))
      ensures confirmed ==> forall i, c :: 0 <= i < |tracks| && c in tracks[i].clips ==> c.file != url
    {
      if !confirmed {
        return;
      }
      for i := 0 to |tracks|
        invariant |tracks| == |old(tracks)|
        invariant forall j :: 0 <= j < i ==> tracks[j] == old(tracks)[j].(clips := RemoveFile(old(tracks)[j].clips, url))
        invariant forall j :: i <= j < |tracks| ==> tracks[j] == old(tracks)[j]
      {
        tracks := WithClips(tracks, i, RemoveFile(tracks[i].clips, url));
      }
    }

    /** touchend: the dragged clip's start becomes its new position on the 1-second grid. */
    method TouchEnd(track: nat, index: nat, left: real, width: real)
      requires Valid() && track < |tracks| && index < |tracks[track].clips| && width > 0.0
      modifies this`tracks
      ensures Valid()
      ensures tracks == WithClips(old(tracks), track,
        old(tracks)[track].clips[index := old(tracks)[track].clips[index].(startTime := Round(left / width * MaxDuration) as real)])
    {
      var clip := tracks[track].clips[index];
      tracks := WithClips(tracks, track, tracks[track].clips[index := clip.(startTime := Round(left / width * MaxDuration) as real)]);
    }

    /** getAllClips: the clips of every track, in track order. */
    method GetAllClips() returns (result: seq<Placed>)
      ensures result == AllClips(tracks)
    {
      result := [];
      for i := 0 to |tracks|
        invariant result == AllClips(tracks[..i])
      {
        assert tracks[..i + 1][..i] == tracks[..i];
        var clips := tracks[i].clips;
        ghost var before := result;
        for j := 0 to |clips|
          invariant result == before + TrackClips(clips[..j], i)
        {
          result := result + [Placed(clips[j], i)];
        }
        assert clips[..|clips|] == clips;
      }
      assert tracks[..|tracks|] == tracks;
    }

    /** The rewind button: five seconds back within the clips, on the grid; all clip audio stops. */
    method Rewind()
      requires Valid()
      modifies this`currentTime, this`scheduled
      ensures Valid() && scheduled == []
      ensures currentTime == RewindTime(AllClips(tracks), old(currentTime))
    {
      var all := GetAllClips();
      currentTime := RewindTime(all, currentTime);
      scheduled := [];
    }

    /** The fast-forward button: five seconds on within the clips, on the grid; all clip audio stops. */
    method FastForward()
      requires Valid()
      modifies this`currentTime, this`scheduled
      ensures Valid() && scheduled == []
      ensures currentTime == ForwardTime(AllClips(tracks), old(currentTime))
    {
      var all := GetAllClips();
      currentTime := ForwardTime(all, currentTime);
      scheduled := [];
    }

    method StartPlayback()
      requires Valid()
      modifies this`isPlaying, this`lastUpdateTime, this`scheduled
      ensures Valid() && isPlaying
      ensures old(isPlaying) ==> scheduled == old(scheduled) && lastUpdateTime == old(lastUpdateTime)
      ensures !old(isPlaying) ==> scheduled == [] && lastUpdateTime == 0.0
    {
      if isPlaying {
        return;
      }
      isPlaying := true;
      lastUpdateTime := 0.0;
      scheduled := [];
    }

    /** Pausing keeps the position and the started clips (their audio is paused). */
    method PausePlayback()
      requires Valid()
      modifies this`isPlaying
      ensures Valid() && !isPlaying
    {
      isPlaying := false;
    }

    method StopPlayback()
      requires Valid()
      modifies this`isPlaying, this`scheduled, this`currentTime
      ensures Valid() && !isPlaying && scheduled == [] && currentTime == 0.0
    {
      isPlaying := false;
      scheduled := [];
      currentTime := 0.0;
    }

    /**
     * One animation frame at the given timestamp (milliseconds): time moves
     * on by the frame's delta; at 120 seconds playback stops and rewinds to
     * 0; otherwise the clips active now whose id is not playing are started.
     */
    method PlayLoop(timestamp: real)
      requires Valid()
      modifies this`currentTime, this`lastUpdateTime, this`scheduled, this`isPlaying
      ensures Valid()
      ensures !old(isPlaying) ==> currentTime == old(currentTime) && scheduled == old(scheduled) && !isPlaying
      ensures old(isPlaying) ==> lastUpdateTime == timestamp
      ensures old(isPlaying) ==>
        var last := if old(lastUpdateTime) == 0.0 then timestamp else old(lastUpdateTime);
        var t := old(currentTime) + (timestamp - last) / 1000.0;
        if t >= MaxDuration then !isPlaying && currentTime == 0.0 && scheduled == []
        else isPlaying && currentTime == t && scheduled == Schedule(old(scheduled), AllClips(tracks), t, tracks)
    {
      if !isPlaying {
        return;
      }
      if lastUpdateTime == 0.0 {
        lastUpdateTime := timestamp;
      }
      var delta := (timestamp - lastUpdateTime) / 1000.0;
      lastUpdateTime := timestamp;
      currentTime := currentTime + delta;
      if currentTime >= MaxDuration {
        StopPlayback();
        return;
      }
      var all := GetAllClips();
      ScheduleClips(all);
    }

    /** The scheduling loop of playLoop. */
    method ScheduleClips(all: seq<Placed>)
      requires Valid()
      modifies this`scheduled
      ensures Valid()
      ensures scheduled == Schedule(old(scheduled), all, currentTime, tracks)
    {
      ghost var start := scheduled;
      for i := 0 to |all|
        invariant scheduled == Schedule(start, all[..i], currentTime, tracks)
      {
        assert all[..i + 1][..i] == all[..i];
        var p := all[i];
        var alreadyPlaying := exists k :: 0 <= k < |scheduled| && scheduled[k].instanceId == p.clip.instanceId;
        if !alreadyPlaying && currentTime >= p.clip.startTime && currentTime < p.clip.startTime + p.clip.duration {
          scheduled := scheduled + [Entry(p, currentTime, tracks)];
        }
      }
      assert all[..|all|] == all;
      SchedulePrefix(start, all, currentTime, tracks);
    }

    /** A volume slider: the track's volume, and the gain of that track's playing clips, nothing else. */
    method SetVolume(track: nat, volume: int)
      requires Valid() && track < |tracks|
      modifies this`tracks, this`scheduled
      ensures Valid()
      ensures tracks == old(tracks)[track := old(tracks)[track].(volume := Some(volume))]
      ensures |scheduled| == |old(scheduled)|
      ensures forall k :: 0 <= k < |scheduled| ==>
        scheduled[k] == if old(scheduled)[k].track == track then old(scheduled)[k].(gain := volume as real / 100.0)
                        else old(scheduled)[k]
    {
      tracks := tracks[track := tracks[track].(volume := Some(volume))];
      for k := 0 to |scheduled|
        invariant tracks == old(tracks)[track := old(tracks)[track].(volume := Some(volume))]
        invariant |scheduled| == |old(scheduled)|
        invariant forall j :: 0 <= j < |scheduled| ==> scheduled[j].instanceId == old(scheduled)[j].instanceId
        invariant forall j :: 0 <= j < k ==>
          scheduled[j] == if old(scheduled)[j].track == track then old(scheduled)[j].(gain := volume as real / 100.0)
                          else old(scheduled)[j]
        invariant forall j :: k <= j < |scheduled| ==> scheduled[j] == old(scheduled)[j]
      {
        if scheduled[k].track == track {
          scheduled := scheduled[k := scheduled[k].(gain := volume as real / 100.0)];
        }
      }
    }

    /** Saving: every clip's start_time becomes its startTime; the saved record is the tracks. */
    method Save() returns (payload: seq<Track>)
      requires Valid()
      modifies this`tracks
      ensures Valid() && payload == tracks && |tracks| == |old(tracks)|
      ensures forall i :: 0 <= i < |tracks| ==>
        tracks[i].volume == old(tracks)[i].volume && |tracks[i].clips| == |old(tracks)[i].clips| &&
        forall j :: 0 <= j < |tracks[i].clips| ==>
          tracks[i].clips[j] == old(tracks)[i].clips[j].(savedStart := Some(old(tracks)[i].clips[j].startTime))
    {
      for i := 0 to |tracks|
        invariant |tracks| == |old(tracks)|
        invariant forall m :: 0 <= m < i ==> tracks[m] == Stamped(old(tracks)[m])
        invariant forall m :: i <= m < |tracks| ==> tracks[m] == old(tracks)[m]
      {
        var stamped := StampClips(tracks[i].clips);
        tracks := WithClips(tracks, i, stamped);
      }
      payload := tracks;
    }
  }

  /** A track as saved: each clip carries its start time in start_time too. */
  function Stamped(t: Track): Track {
    t.(clips := seq(|t.clips|, j requires 0 <= j < |t.clips| => t.clips[j].(savedStart := Some(t.clips[j].startTime))))
  }

  /** The inner loop of saving, over one track's clips. */
  method StampClips(clips: seq<Clip>) returns (r: seq<Clip>)
    ensures |r| == |clips|
    ensures forall j :: 0 <= j < |r| ==> r[j] == clips[j].(savedStart := Some(clips[j].startTime))
  {
    r := clips;
    for j := 0 to |clips|
      invariant |r| == |clips|
      invariant forall m :: 0 <= m < j ==> r[m] == clips[m].(savedStart := Some(clips[m].startTime))
      invariant forall m :: j <= m < |r| ==> r[m] == clips[m]
    {
      r := r[j := r[j].(savedStart := Some(r[j].startTime))];
    }
  }
}
