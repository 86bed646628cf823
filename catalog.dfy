/** The fixed catalogue of tracks the player offers. It is built once and
    never grows, shrinks or changes during a session. */
module Catalog {

  /** One track: a stable id, display metadata and the media reference
      that is loaded into the playback handle. */
  datatype Song = Song(id: int, title: string, artist: string, cover: string, audio: string)

  const Songs: seq<Song> := [
    Song(1, "Summer Vibes", "Beach Wave",
         "https://images.unsplash.com/photo-1459749411175-04bf5292ceea?w=500&h=500&fit=crop",
         "/music/song1.mp3"),
    Song(2, "Mountain Echo", "Nature Sound",
         "https://images.unsplash.com/photo-1519681393784-d120267933ba?w=500&h=500&fit=crop",
         "/music/song2.mp3"),
    Song(3, "Urban Night", "City Lights",
         "https://images.unsplash.com/photo-1542291026-7eec264c27ff?w=500&h=500&fit=crop",
         "/music/song3.mp3"),
    Song(4, "Sunset Dreams", "Ocean Waves",
         "https://images.unsplash.com/photo-1507525428034-b723cf961d3e?w=500&h=500&fit=crop",
         "/music/song4.mp3"),
    Song(5, "Forest Rain", "Green Nature",
         "https://images.unsplash.com/photo-1441974231531-c6227db76b6e?w=500&h=500&fit=crop",
         "/music/song5.mp3")
  ]

  /** The catalogue has five tracks, numbered 1 to 5 in order, and no two
      tracks share an id or a media reference, so the loaded source
      identifies the track. */
  lemma CatalogueShape()
    ensures |Songs| == 5
    ensures forall k :: 0 <= k < |Songs| ==> Songs[k].id == k + 1
    ensures forall j, k :: 0 <= j < k < |Songs| ==> Songs[j].audio != Songs[k].audio
  {
  }
}
