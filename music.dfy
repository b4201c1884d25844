/**
 * The music handlers of go/music.go: a player whose state is the two
 * package-level variables `trackPlaying` and `activeTrack`, over the track
 * catalogue `tracks`, which no modelled code changes (its definition is not
 * part of this model, so the constructor takes it and the initial state).
 */
module Music {
  datatype Track = Track(id: int, name: string)

  /** `MusicPlayerStatus`: what the summary reports. */
  datatype PlayerStatus = PlayerStatus(state: bool, track: Track)

  /** The body of a play request: unreadable, not a JSON track, or a decoded track. */
  datatype TrackRequest = ReadFailed | Undecodable(detail: string) | Decoded(track: Track)

  datatype MusicReply =
    | StateUpdated(state: string)
    | UnknownState(state: string)
    | Playing(track: Track)
    | UnmarshalFailed(detail: string)
    | NoReply
    | IndexPanic

  class Player {
    var trackPlaying: bool
    var activeTrack: Track
    const tracks: seq<Track>

    constructor (tracks: seq<Track>, trackPlaying: bool, activeTrack: Track)
      ensures this.tracks == tracks && this.trackPlaying == trackPlaying && this.activeTrack == activeTrack
    {
      this.tracks := tracks;
      this.trackPlaying := trackPlaying;
      this.activeTrack := activeTrack;
    }

    /** `MusicSummary`: exactly the current playing flag and track. */
    function Summary(): (s: PlayerStatus)
      reads this
      ensures s.state == trackPlaying && s.track == activeTrack
    {
      PlayerStatus(trackPlaying, activeTrack)
    }

    /**
     * `SetMusicState`: "on" starts and "off" stops playback; the match is
     * case-sensitive, so anything else ("ON" included) is refused and
     * nothing changes. The active track is never touched.
     */
    method SetMusicState(state: string) returns (reply: MusicReply)
      modifies this
      ensures activeTrack == old(activeTrack)
      ensures state == "on" ==> trackPlaying && reply == StateUpdated(state)
      ensures state == "off" ==> !trackPlaying && reply == StateUpdated(state)
      ensures state != "on" && state != "off" ==> trackPlaying == old(trackPlaying) && reply == UnknownState(state)
      ensures Summary() == PlayerStatus(if state == "on" then true else if state == "off" then false else old(trackPlaying), old(activeTrack))
    {
      if state == "on" {
        trackPlaying := true;
      } else if state == "off" {
        trackPlaying := false;
      } else {
        return UnknownState(state);
      }
      reply := StateUpdated(state);
    }

    /**
     * `PlayTrack`: an unreadable body returns without a reply, an undecodable
     * one is refused, and both change nothing. A decoded track sets playing
     * first and then selects `tracks[ID-1]`; an ID outside 1..len(tracks)
     * panics at that index, after playing was already set.
     */
    method PlayTrack(req: TrackRequest) returns (reply: MusicReply)
      modifies this
      ensures !req.Decoded? ==> trackPlaying == old(trackPlaying) && activeTrack == old(activeTrack)
      ensures req.ReadFailed? ==> reply == NoReply
      ensures req.Undecodable? ==> reply == UnmarshalFailed(req.detail)
      ensures req.Decoded? ==> trackPlaying
      ensures req.Decoded? && 1 <= req.track.id <= |tracks| ==>
        activeTrack == tracks[req.track.id - 1] && reply == Playing(activeTrack)
      ensures req.Decoded? && !(1 <= req.track.id <= |tracks|) ==>
        activeTrack == old(activeTrack) && reply == IndexPanic
    {
      match req
      case ReadFailed =>
        return NoReply;
      case Undecodable(detail) =>
        return UnmarshalFailed(detail);
      case Decoded(t) =>
        trackPlaying := true;
        if !(1 <= t.id <= |tracks|) {
          return IndexPanic;
        }
        activeTrack := tracks[t.id - 1];
        reply := Playing(activeTrack);
    }
  }
}
