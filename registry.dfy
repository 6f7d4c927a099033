/** The monitor window's player registry: one player widget per player
    number, laid out on a two-column grid, fetch requests issued when a
    player's track changes, and replies routed to the player they are for. */
module Registry {
  import opened Raster
  import opened Detail
  import Waveform
  import Preview
  import BeatBar

  /** A cell of the window's grid layout. */
  datatype Cell = Cell(row: int, col: int)

  /** Player n sits at `((n-1)//2, (n-1)%2)`: two players per row. Dafny's
      `/` and `%` agree with Python's floor operators for the divisor 2. */
  function GridCell(n: int): (c: Cell)
    ensures 0 <= c.col < 2 && 2 * c.row + c.col == n - 1
  {
    Cell((n - 1) / 2, (n - 1) % 2)
  }

  /** The cell determines the player number: the layout of distinct players never collides. */
  lemma GridCellInjective(n: int, m: int)
    requires GridCell(n) == GridCell(m)
    ensures n == m
  {
  }

  /** Players 1..4 fill the 2 x 2 grid. */
  lemma GridCellOfFour(n: int)
    requires 1 <= n <= 4
    ensures 0 <= GridCell(n).row < 2
    ensures GridCell(n) == [Cell(0, 0), Cell(0, 1), Cell(1, 0), Cell(1, 1)][n - 1]
  {
  }

  /** Keepalives are accepted only for `n in range(1, 5)`. */
  predicate IsKeepaliveNumber(n: int) {
    1 <= n <= 4
  }

  /** The fields of a client-list entry that the registry uses. */
  datatype ClientInfo = ClientInfo(playerNumber: int, playerSlot: int, trackId: int, beat: int)

  datatype RequestKind = MetadataKind | PreviewWaveformKind | BeatgridKind | WaveformKind

  /** A request to the data service for one item of a track. */
  datatype Request = Request(kind: RequestKind, player: int, slot: int, trackId: int)

  /** The four fetches issued on a track change, in the order issued:
      metadata, preview, beat grid, waveform. */
  function FetchRequests(c: ClientInfo): (r: seq<Request>)
    ensures |r| == 4
    ensures forall i :: 0 <= i < |r| ==>
      r[i].player == c.playerNumber && r[i].slot == c.playerSlot && r[i].trackId == c.trackId
    ensures forall i, j :: 0 <= i < j < |r| ==> r[i].kind != r[j].kind
    ensures Requested(r, c.trackId)
  {
    var r := [Request(MetadataKind, c.playerNumber, c.playerSlot, c.trackId),
              Request(PreviewWaveformKind, c.playerNumber, c.playerSlot, c.trackId),
              Request(BeatgridKind, c.playerNumber, c.playerSlot, c.trackId),
              Request(WaveformKind, c.playerNumber, c.playerSlot, c.trackId)];
    assert r[3].kind == WaveformKind && r[3].trackId == c.trackId;
    r
  }

  /** A new track to fetch: the id differs from the recorded one and is not 0. */
  predicate TrackChanged(recorded: Option<int>, trackId: int) {
    recorded != Some(trackId) && trackId != 0
  }

  /** Fetches are issued at most once per track: once the id is recorded a
      repeated report of it issues nothing, and id 0 never issues anything. */
  lemma TrackChangeOnce(recorded: Option<int>, trackId: int)
    ensures !TrackChanged(if TrackChanged(recorded, trackId) then Some(trackId) else recorded, trackId)
    ensures TrackChanged(recorded, trackId) <==> trackId != 0 && recorded != Some(trackId)
  {
  }

  /** The waveform of track t is among the issued requests. */
  ghost predicate Requested(requests: seq<Request>, t: int) {
    exists i :: 0 <= i < |requests| && requests[i].kind == WaveformKind && requests[i].trackId == t
  }

  /** Issuing more requests keeps every earlier one issued. */
  lemma RequestedExtends(requests: seq<Request>, more: seq<Request>, t: int)
    requires Requested(requests, t)
    ensures Requested(requests + more, t)
  {
    var i :| 0 <= i < |requests| && requests[i].kind == WaveformKind && requests[i].trackId == t;
    assert (requests + more)[i] == requests[i];
  }

  /** Requests issued later are themselves issued in the longer list. */
  lemma RequestedAppended(requests: seq<Request>, more: seq<Request>, t: int)
    requires Requested(more, t)
    ensures Requested(requests + more, t)
  {
    var j :| 0 <= j < |more| && more[j].kind == WaveformKind && more[j].trackId == t;
    assert (requests + more)[|requests| + j] == more[j];
  }

  /** A reply of the data service, tagged by what was requested. */
  datatype Reply =
    | MetadataReply(title: string, artist: string, album: string, artworkId: Option<int>)
    | ArtworkReply(image: seq<byte>)
    | WaveformReply(waveform: seq<byte>)
    | PreviewWaveformReply(preview: seq<byte>)
    | BeatgridReply(beatgrid: seq<byte>)
    | OtherReply(request: string)

  /** One player's widget: its three core widgets and the track id whose
      data was last requested. */
  class PlayerWidget {
    /** The number shown in the widget's title, `"Player {n}"`. */
    const playerNumber: int
    const waveform: Waveform.WaveformWidget
    const previewWaveform: Preview.PreviewWaveformWidget
    const beatBar: BeatBar.BeatBarWidget
    /** Track id of the requested data; None until the first request. */
    var trackId: Option<int>

    /** The state of a newly built player widget: no track id, and child
        widgets with no data, default view state and no redraws. */
    ghost predicate Initial()
      reads this, waveform, previewWaveform, beatBar
    {
      && trackId == None
      && waveform.waveformData == None && waveform.beatgridData == None && waveform.pixmap == null
      && waveform.offset == 0 && waveform.updates == 0
      && waveform.positionMarker == Waveform.Fraction(1, 2) && waveform.frames == PxPerSecond * 10
      && waveform.positionMarkerOffset == 750
      && previewWaveform.data == None && previewWaveform.position == 0 && previewWaveform.updates == 0
      && beatBar.beat == 0 && beatBar.updates == 0
    }

    constructor (n: int)
      ensures playerNumber == n && Initial()
      ensures fresh(waveform) && fresh(previewWaveform) && fresh(beatBar)
      ensures waveform.Valid() && waveform.Cached()
    {
      playerNumber := n;
      waveform := new Waveform.WaveformWidget();
      previewWaveform := new Preview.PreviewWaveformWidget();
      beatBar := new BeatBar.BeatBarWidget();
      trackId := None;
    }
  }

  class Gui {
    /** The players shown, by player number. */
    var players: map<int, PlayerWidget>
    /** The grid cell each player's widget was added at. */
    var layout: map<int, Cell>
    /** Every request issued to the data service, in order. */
    var requests: seq<Request>

    /** The registry invariant: see the three parts below. */
    ghost predicate Valid()
      reads this, players.Values, set p | p in players.Values :: p.waveform
    {
      LayoutValid() && Distinct() && WidgetsValid()
    }

    /** The layout has a cell for every player, its own grid cell, and each
        widget carries its own player number (so distinct numbers have
        distinct widgets). */
    ghost predicate LayoutValid()
      reads this
    {
      && players.Keys == layout.Keys
      && (forall n :: n in layout ==> layout[n] == GridCell(n))
      && (forall n :: n in players ==> players[n].playerNumber == n)
    }

    /** Players never share a child widget. */
    ghost predicate Distinct()
      reads this
    {
      forall n, m :: n in players && m in players && n != m ==>
        && players[n].waveform != players[m].waveform
        && players[n].previewWaveform != players[m].previewWaveform
        && players[n].beatBar != players[m].beatBar
    }

    /** Every waveform keeps its view-state invariant, and a recorded track
        id is never 0 and has had its waveform requested. */
    ghost predicate WidgetsValid()
      reads this, players.Values, set p | p in players.Values :: p.waveform
    {
      forall n :: n in players ==>
        && players[n].waveform.Valid()
        && players[n].trackId != Some(0)
        && (players[n].trackId.Some? ==> Requested(requests, players[n].trackId.value))
    }

    constructor ()
      ensures Valid()
      ensures players.Keys == {1} && layout == map[1 := Cell(0, 0)] && requests == []
      ensures fresh(players[1]) && players[1].Initial()
      ensures fresh(players[1].waveform) && fresh(players[1].previewWaveform) && fresh(players[1].beatBar)
    {
      players, layout, requests := map[], map[], [];
      new;
      CreatePlayer(1);
    }

    /** Add player n at its grid cell; no effect if it is already there. */
    method CreatePlayer(n: int)
      requires Valid()
      modifies this`players, this`layout
      ensures Valid()
      ensures players.Keys == old(players.Keys) + {n}
      ensures n in old(players) ==> players == old(players) && layout == old(layout)
      ensures n !in old(players) ==>
        && fresh(players[n]) && players[n].playerNumber == n && players[n].Initial()
        && fresh(players[n].waveform) && fresh(players[n].previewWaveform) && fresh(players[n].beatBar)
        && players == old(players)[n := players[n]]
        && layout == old(layout)[n := GridCell(n)]
    {
      if n in players {
        return;
      }
      var p := new PlayerWidget(n);
      players := players[n := p];
      layout := layout[n := GridCell(n)];
      forall m | m in players && players[m].trackId.Some?
        ensures Requested(requests, players[m].trackId.value)
      {
        assert m != n && players[m] == old(players)[m];
      }
    }

    /** Drop player n and its grid cell; no effect if it is absent. */
    method RemovePlayer(n: int)
      requires Valid()
      modifies this`players, this`layout
      ensures Valid()
      ensures players == old(players) - {n} && layout == old(layout) - {n}
    {
      if n !in players {
        return;
      }
      layout := layout - {n};
      players := players - {n};
    }

    /** A keepalive for player n creates its widget if missing; numbers
        outside 1..4 are ignored. */
    method KeepaliveSlot(n: int)
      requires Valid()
      modifies this`players, this`layout
      ensures Valid()
      ensures !IsKeepaliveNumber(n) ==> players == old(players) && layout == old(layout)
      ensures IsKeepaliveNumber(n) ==> players.Keys == old(players.Keys) + {n}
      ensures IsKeepaliveNumber(n) && n in old(players) ==> players == old(players) && layout == old(layout)
      ensures IsKeepaliveNumber(n) && n !in old(players) ==>
        && fresh(players[n]) && players[n].playerNumber == n && players[n].Initial()
        && fresh(players[n].waveform) && fresh(players[n].previewWaveform) && fresh(players[n].beatBar)
        && players == old(players)[n := players[n]]
        && layout == old(layout)[n := GridCell(n)]
    {
      if !IsKeepaliveNumber(n) {
        return;
      }
      if n !in players {
        CreatePlayer(n);
      }
    }

    /** A client-list change for player n: pass the beat on to the beat bar
        and, when the track id changed to a non-zero value, record it and
        issue the four fetches. Ignored when player n is absent. */
    method ChangeCallback(n: int, c: ClientInfo)
      requires Valid()
      modifies this`requests, (if n in players then {players[n] as object, players[n].beatBar} else {})
      ensures Valid()
      ensures players == old(players) && layout == old(layout)
      ensures n !in players ==> requests == old(requests)
      ensures forall m :: m in players && m != n ==> unchanged(players[m])
      ensures forall m :: m in players && m != n ==> unchanged(players[m].beatBar)
      ensures n in players ==>
        && players[n].beatBar.beat == c.beat
        && players[n].beatBar.updates ==
             old(players[n].beatBar.updates) + (if c.beat != old(players[n].beatBar.beat) then 1 else 0)
        && players[n].trackId ==
             (if TrackChanged(old(players[n].trackId), c.trackId) then Some(c.trackId) else old(players[n].trackId))
        && requests == old(requests) +
             (if TrackChanged(old(players[n].trackId), c.trackId) then FetchRequests(c) else [])
    {
      if n !in players {
        return;
      }
      var p := players[n];
      p.beatBar.SetBeat(c.beat);
      if TrackChanged(p.trackId, c.trackId) {
        p.trackId := Some(c.trackId);
        var fetches := FetchRequests(c);
        RequestedAppended(requests, fetches, c.trackId);
        forall m | m in players && players[m].trackId.Some? && m != n
          ensures Requested(requests + fetches, players[m].trackId.value)
        {
          RequestedExtends(requests, fetches, players[m].trackId.value);
        }
        requests := requests + fetches;
      }
    }

    /** Route a data-service reply to player n's widgets. Replies for a
        player that is no longer present are dropped. */
    method DbserverCallback(n: int, reply: Reply, parse: seq<byte> -> Option<seq<Beat>>)
      requires Valid()
      modifies (if n in players then {players[n].waveform as object, players[n].previewWaveform} else {})
      ensures Valid()
      ensures forall m :: m in players && m != n ==> unchanged(players[m].waveform)
      ensures forall m :: m in players && m != n ==> unchanged(players[m].previewWaveform)
      ensures n in players ==>
        var w := players[n].waveform;
        && w.offset == old(w.offset) && w.frames == old(w.frames) && w.updates == old(w.updates)
        && w.positionMarker == old(w.positionMarker) && w.positionMarkerOffset == old(w.positionMarkerOffset)
      ensures n in players ==> match reply
        case WaveformReply(d) =>
          && players[n].waveform.waveformData == Some(StripHeader(d))
          && players[n].waveform.Cached()
          && fresh(players[n].waveform.pixmap)
          && players[n].waveform.pixmap.Length0 == players[n].waveform.positionMarkerOffset + |StripHeader(d)|
          && players[n].waveform.pixmap.Length1 == WaveformHeight
          && players[n].waveform.beatgridData == old(players[n].waveform.beatgridData)
          && unchanged(players[n].previewWaveform)
        case PreviewWaveformReply(d) =>
          && players[n].previewWaveform.data == Some(d)
          && players[n].previewWaveform.position == old(players[n].previewWaveform.position)
          && players[n].previewWaveform.updates == old(players[n].previewWaveform.updates) + 1
          && unchanged(players[n].waveform)
        case BeatgridReply(d) =>
          && players[n].waveform.beatgridData == parse(d)
          && players[n].waveform.waveformData == old(players[n].waveform.waveformData)
          && (if players[n].waveform.waveformData.Some? && |players[n].waveform.waveformData.value| > 0
              then && fresh(players[n].waveform.pixmap) && players[n].waveform.Cached()
                   && players[n].waveform.pixmap.Length0 ==
                        players[n].waveform.positionMarkerOffset + |players[n].waveform.waveformData.value|
              else players[n].waveform.pixmap == old(players[n].waveform.pixmap))
          && (old(players[n].waveform.Cached()) ==> players[n].waveform.Cached())
          && unchanged(players[n].previewWaveform)
        case _ =>
          unchanged(players[n].waveform) && unchanged(players[n].previewWaveform)
    {
      if n !in players {
        return;
      }
      var p := players[n];
      match reply
      case WaveformReply(d) =>
        p.waveform.SetData(d);
      case PreviewWaveformReply(d) =>
        p.previewWaveform.SetData(d);
      case BeatgridReply(d) =>
        p.waveform.SetBeatgridData(d, parse);
      case MetadataReply(_, _, _, _) =>
      case ArtworkReply(_) =>
      case OtherReply(_) =>
    }
  }
}
