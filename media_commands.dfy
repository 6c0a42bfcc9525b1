/** Media commands: music, then video, then a named streaming service, then
    general media; each stage is a substring classifier over the lower-cased
    command followed by query extraction and a platform choice. */
module MediaCommands {
  import opened PyStr
  import opened Wrappers
  import opened Triggers
  import opened OrderedDict
  import opened Helpers
  import opened Outcomes

  const AppleMusicUrl := "https://music.apple.com"

  /** The streaming services and their home pages, in table order. */
  const MediaServices: Dict<string, string> := [
    ("youtube", "https://www.youtube.com"),
    ("spotify", "https://open.spotify.com"),
    ("netflix", "https://www.netflix.com"),
    ("apple_music", AppleMusicUrl),
    ("soundcloud", "https://soundcloud.com"),
    ("deezer", "https://www.deezer.com")
  ]

  const MusicTriggers: seq<string> := [
    "เล่นเพลง", "play music", "ฟังเพลง", "listen to music",
    "เปิดเพลง", "open music", "เพลง", "music"
  ]
  const MusicQueryTriggers: seq<string> := [
    "เล่นเพลง", "play music", "ฟังเพลง", "listen to music", "เล่น", "play", "ฟัง", "listen"
  ]
  const VideoTriggers: seq<string> := [
    "ดูวิดีโอ", "watch video", "ดูคลิป", "watch clip",
    "ดูหนัง", "watch movie", "ดูซีรีส์", "watch series",
    "เปิดวิดีโอ", "open video"
  ]
  const VideoQueryTriggers: seq<string> := ["ดู", "watch", "ดูวิดีโอ", "watch video", "ดูคลิป", "watch clip"]
  const StreamingTriggers: seq<string> := [
    "netflix", "spotify", "youtube", "apple music", "soundcloud", "deezer"
  ]
  const GeneralMediaTriggers: seq<string> := ["media", "entertainment", "ความบันเทิง", "สื่อ"]

  const YouTubeResults: string := "https://www.youtube.com/results?search_query="
  const SpotifySearch: string := "https://open.spotify.com/search/"
  const NetflixSearch: string := "https://www.netflix.com/search?q="

  const NotUnderstood: string := "ไม่เข้าใจคำสั่งสื่อค่ะ กรุณาลองใหม่อีกครั้ง"
  const AskForSong: string := "กรุณาระบุเพลงหรือศิลปินที่ต้องการฟังค่ะ"
  const AskForVideo: string := "กรุณาระบุวิดีโอที่ต้องการดูค่ะ"
  const UnknownService: string := "ไม่เข้าใจคำสั่งบริการสตรีมมิ่งค่ะ"

  /** The platforms the music and video choosers name. */
  datatype Platform = YouTube | Spotify | AppleMusic | SoundCloud | Deezer | Netflix

  // ---------------------------------------------------------------------
  // Players

  /** `_play_on_youtube`: play through pywhatkit; when that fails, open a
      YouTube search for the query instead. */
  function PlayOnYouTubeReply(world: World, query: string): (r: Reply)
    ensures |r.effects| == 1
    ensures world.youTubePlays ==> r.effects[0] == PlayOnYouTube(query)
    ensures !world.youTubePlays ==> r.effects[0] == OpenQuoted(YouTubeResults, query, "")
  {
    if world.youTubePlays then Reply("เล่น " + query + " บน YouTube แล้วค่ะ", [PlayOnYouTube(query)])
    else Reply("ค้นหา " + query + " บน YouTube แล้วค่ะ", [OpenQuoted(YouTubeResults, query, "")])
  }

  /** `_play_on_spotify`: a Spotify search for the query. */
  function PlayOnSpotifyReply(query: string): (r: Reply)
    ensures r.effects == [OpenQuoted(SpotifySearch, query, "")]
  {
    Reply("ค้นหา " + query + " บน Spotify แล้วค่ะ", [OpenQuoted(SpotifySearch, query, "")])
  }

  /** `_search_on_netflix`: a Netflix search for the query. */
  function SearchOnNetflixReply(query: string): (r: Reply)
    ensures r.effects == [OpenQuoted(NetflixSearch, query, "")]
  {
    Reply("ค้นหา " + query + " บน Netflix แล้วค่ะ", [OpenQuoted(NetflixSearch, query, "")])
  }

  /** The query a reply plays or searches for, if any. */
  function Played(r: Reply): Option<string> {
    if |r.effects| == 1 && r.effects[0].PlayOnYouTube? then Some(r.effects[0].query)
    else if |r.effects| == 1 && r.effects[0].OpenQuoted? then Some(r.effects[0].query)
    else None
  }

  // ---------------------------------------------------------------------
  // Music

  /** `_is_music_command`. */
  predicate IsMusicCommand(command: string) {
    AnyIn(command, MusicTriggers)
  }

  /** `_determine_music_platform`, by mention in the lower-cased command. */
  function MusicPlatformFor(command: string): (p: Platform)
    ensures p != Netflix
    ensures p == Spotify <==> Contains(Lower(command), "spotify")
    ensures p == AppleMusic <==>
              !Contains(Lower(command), "spotify") && !Contains(Lower(command), "youtube") &&
              (Contains(Lower(command), "apple music") || Contains(Lower(command), "apple"))
  {
    var lower := Lower(command);
    if Contains(lower, "spotify") then Spotify
    else if Contains(lower, "youtube") then YouTube
    else if Contains(lower, "apple music") || Contains(lower, "apple") then AppleMusic
    else if Contains(lower, "soundcloud") then SoundCloud
    else if Contains(lower, "deezer") then Deezer
    else YouTube
  }

  /** Mentioning "apple music" adds nothing to mentioning "apple". */
  lemma AppleMusicMentionsApple(command: string)
    ensures (Contains(Lower(command), "apple music") || Contains(Lower(command), "apple")) <==>
            Contains(Lower(command), "apple")
  {
    var lower := Lower(command);
    if Contains(lower, "apple music") {
      var t := "apple music";
      assert t[..5] == "apple";
      ContainsInPrefix(t, 5, "apple");
      assert Contains(t[..5], "apple") by { assert StartsWith(t[..5], "apple"); }
      ContainsTransitive(lower, t, "apple");
    }
  }

  /** `_handle_music_command`: no query gives the prompt; otherwise the
      query is searched on Spotify when Spotify is named and played on
      YouTube for every other platform. */
  function HandleMusic(world: World, command: string): (r: Reply)
    ensures |r.effects| <= 1 && (|r.effects| == 1 ==> !r.effects[0].OpenUrl?)
    ensures ExtractQuery(command, MusicQueryTriggers) == [] ==> r == Say(AskForSong)
    ensures ExtractQuery(command, MusicQueryTriggers) != [] ==>
              Played(r) == Some(ExtractQuery(command, MusicQueryTriggers)) &&
              (r == PlayOnSpotifyReply(ExtractQuery(command, MusicQueryTriggers)) <==>
               MusicPlatformFor(command) == Spotify)
    ensures ExtractQuery(command, MusicQueryTriggers) != [] && MusicPlatformFor(command) != Spotify ==>
              r == PlayOnYouTubeReply(world, ExtractQuery(command, MusicQueryTriggers))
  {
    var query := ExtractQuery(command, MusicQueryTriggers);
    if query == [] then Say(AskForSong)
    else match MusicPlatformFor(command)
      case Spotify => PlayOnSpotifyReply(query)
      case _ => PlayOnYouTubeReply(world, query)
  }

  // ---------------------------------------------------------------------
  // Video

  /** `_is_video_command`. */
  predicate IsVideoCommand(command: string) {
    AnyIn(command, VideoTriggers)
  }

  /** `_determine_video_platform`: Netflix when named, YouTube otherwise. */
  function VideoPlatformFor(command: string): (p: Platform)
    ensures p == Netflix || p == YouTube
    ensures p == Netflix <==> Contains(Lower(command), "netflix")
  {
    if Contains(Lower(command), "netflix") then Netflix else YouTube
  }

  /** `_handle_video_command`: no query gives the prompt; otherwise a
      Netflix search or a YouTube play of the query. */
  function HandleVideo(world: World, command: string): (r: Reply)
    ensures |r.effects| <= 1 && (|r.effects| == 1 ==> !r.effects[0].OpenUrl?)
    ensures ExtractQuery(command, VideoQueryTriggers) == [] ==> r == Say(AskForVideo)
    ensures ExtractQuery(command, VideoQueryTriggers) != [] ==>
              Played(r) == Some(ExtractQuery(command, VideoQueryTriggers)) &&
              (r == SearchOnNetflixReply(ExtractQuery(command, VideoQueryTriggers)) <==>
               Contains(Lower(command), "netflix"))
    ensures ExtractQuery(command, VideoQueryTriggers) != [] && !Contains(Lower(command), "netflix") ==>
              r == PlayOnYouTubeReply(world, ExtractQuery(command, VideoQueryTriggers))
  {
    var query := ExtractQuery(command, VideoQueryTriggers);
    if query == [] then Say(AskForVideo)
    else match VideoPlatformFor(command)
      case Netflix => SearchOnNetflixReply(query)
      case _ => PlayOnYouTubeReply(world, query)
  }

  /** "ดู" heads the video query triggers and is a prefix of "ดูวิดีโอ", so
      only those two characters are removed: "ดูวิดีโอ x" asks for the
      video "วิดีโอ x". */
  lemma VideoQueryKeepsVideoWord(x: string)
    requires |x| > 0 && IsLower(x) && 'ู' !in x && !IsSpace(x[|x| - 1])
    ensures ExtractQuery("ดูวิดีโอ " + x, VideoQueryTriggers) == "วิดีโอ " + x
  {
    var lead := "ดูวิดีโอ ";
    var c := lead + x;
    WatchLeadLower(lead);
    LowerOfLower(lead);
    LowerOfLower(x);
    LowerAppend(lead, x);
    assert Lower(c) == c;
    assert c[..2] == "ดู";
    assert Contains(c, VideoQueryTriggers[0]);
    assert FirstIn(c, VideoQueryTriggers) == Some(0);
    WatchLeadRemoved(x);
    var q := "วิดีโอ " + x;
    assert q[0] == 'ว';
    assert q[|q| - 1] == x[|x| - 1];
    StripNoop(q);
  }

  lemma WatchLeadLower(lead: string)
    requires lead == "ดูวิดีโอ "
    ensures IsLower(lead)
  {
  }

  /** Removing every "ดู" from "ดูวิดีโอ x" removes only the leading one. */
  lemma WatchLeadRemoved(x: string)
    requires 'ู' !in x
    ensures ReplaceAll("ดูวิดีโอ " + x, "ดู", "") == "วิดีโอ " + x
  {
    WatchPieces("ดูวิดีโอ ", "ดู", "วิดีโอ ");
    DropLeading("ดูวิดีโอ ", "ดู", "วิดีโอ ", x);
  }

  lemma WatchPieces(whole: string, pat: string, lead: string)
    requires whole == "ดูวิดีโอ " && pat == "ดู" && lead == "วิดีโอ "
    ensures whole == pat + lead && |pat| == 2 && pat[1] == 'ู' && pat[1] !in lead
  {
  }

  /** A pattern whose second character occurs nowhere after the leading
      occurrence is removed exactly once. */
  lemma DropLeading(whole: string, pat: string, lead: string, x: string)
    requires whole == pat + lead && |pat| > 1 && pat[1] !in lead && pat[1] !in x
    ensures ReplaceAll(whole + x, pat, "") == lead + x
  {
    assert pat[1] !in lead + x;
    NotContainsByChar(lead + x, pat, 1);
    Assoc(pat, lead, x);
    ReplaceHead(pat, lead + x, "");
    ReplaceAbsent(lead + x, pat, "");
    assert "" + (lead + x) == lead + x;
  }

  // ---------------------------------------------------------------------
  // Streaming services and general media

  /** `_is_streaming_command`. */
  predicate IsStreamingCommand(command: string) {
    AnyIn(command, StreamingTriggers)
  }

  /** `_handle_streaming_command`: opens the first service whose key is
      named; "not understood" when none is. */
  function HandleStreaming(command: string): (r: Reply)
    ensures !AnyIn(Lower(command), Keys(MediaServices)) ==> r == Say(UnknownService)
    ensures AnyIn(Lower(command), Keys(MediaServices)) ==>
              exists k :: 0 <= k < |MediaServices| && Contains(Lower(command), MediaServices[k].0) &&
                (forall j :: 0 <= j < k ==> !Contains(Lower(command), MediaServices[j].0)) &&
                r == Reply("เปิด " + MediaServices[k].0 + " แล้วค่ะ", [OpenUrl(MediaServices[k].1)])
  {
    var lower := Lower(command);
    match FirstIn(lower, Keys(MediaServices))
    case None => Say(UnknownService)
    case Some(k) =>
      Reply("เปิด " + MediaServices[k].0 + " แล้วค่ะ", [OpenUrl(MediaServices[k].1)])
  }

  /** `_is_media_command`. */
  predicate IsGeneralMediaCommand(command: string) {
    AnyIn(command, GeneralMediaTriggers)
  }

  /** `_handle_general_media_command`: opens YouTube. */
  function HandleGeneralMedia(): (r: Reply)
    ensures r.effects == [OpenUrl("https://www.youtube.com")]
  {
    Reply("เปิด YouTube แล้วค่ะ", [OpenUrl("https://www.youtube.com")])
  }

  // ---------------------------------------------------------------------
  // process_command

  /** `MediaCommands.process_command`: music, video, streaming service,
      general media, then "not understood", detected on the lower-cased
      command; the handlers get the command as given. */
  function ProcessCommand(world: World, command: string): (r: Reply)
    ensures |r.effects| <= 1
    ensures IsMusicCommand(Lower(command)) ==> r == HandleMusic(world, command)
    ensures !IsMusicCommand(Lower(command)) && IsVideoCommand(Lower(command)) ==>
              r == HandleVideo(world, command)
    ensures (!IsMusicCommand(Lower(command)) && !IsVideoCommand(Lower(command)) &&
             IsStreamingCommand(Lower(command))) ==> r == HandleStreaming(command)
    ensures (!IsMusicCommand(Lower(command)) && !IsVideoCommand(Lower(command)) &&
             !IsStreamingCommand(Lower(command)) && IsGeneralMediaCommand(Lower(command))) ==>
              r == HandleGeneralMedia()
    ensures (!IsMusicCommand(Lower(command)) && !IsVideoCommand(Lower(command)) &&
             !IsStreamingCommand(Lower(command)) && !IsGeneralMediaCommand(Lower(command))) ==>
              r == Say(NotUnderstood)
  {
    var lower := Lower(command);
    if IsMusicCommand(lower) then HandleMusic(world, command)
    else if IsVideoCommand(lower) then HandleVideo(world, command)
    else if IsStreamingCommand(lower) then HandleStreaming(command)
    else if IsGeneralMediaCommand(lower) then HandleGeneralMedia()
    else Say(NotUnderstood)
  }

  /** The "not understood" reply is given exactly when no stage claims the
      command: no handler answers with it. */
  lemma NotUnderstoodIffUnclassified(world: World, command: string)
    ensures ProcessCommand(world, command) == Say(NotUnderstood) <==>
              !IsMusicCommand(Lower(command)) && !IsVideoCommand(Lower(command)) &&
              !IsStreamingCommand(Lower(command)) && !IsGeneralMediaCommand(Lower(command))
  {
    var lower := Lower(command);
    if IsMusicCommand(lower) {
      MusicNeverFallback(world, command);
    } else if IsVideoCommand(lower) {
      VideoNeverFallback(world, command);
    } else if IsStreamingCommand(lower) {
      StreamingNeverFallback(command);
    }
  }

  lemma MusicNeverFallback(world: World, command: string)
    ensures HandleMusic(world, command) != Say(NotUnderstood)
  {
  }

  lemma VideoNeverFallback(world: World, command: string)
    ensures HandleVideo(world, command) != Say(NotUnderstood)
  {
  }

  lemma StreamingNeverFallback(command: string)
    ensures HandleStreaming(command) != Say(NotUnderstood)
  {
  }

  /** The streaming stage opens Apple Music only for a command naming the
      key "apple_music" itself. */
  lemma StreamingAppleNeedsKey(command: string)
    ensures OpenUrl(AppleMusicUrl) in HandleStreaming(command).effects ==>
              Contains(Lower(command), "apple_music")
  {
    var r := HandleStreaming(command);
    if OpenUrl(AppleMusicUrl) in r.effects {
      var k :| 0 <= k < |MediaServices| && Contains(Lower(command), MediaServices[k].0) &&
             r == Reply("เปิด " + MediaServices[k].0 + " แล้วค่ะ", [OpenUrl(MediaServices[k].1)]);
      assert MediaServices[k].1 == AppleMusicUrl;
    }
  }

  /** The "apple_music" key can only be named together with "music", which
      the music stage claims first: no command ever opens Apple Music. */
  lemma AppleMusicNeverOpened(world: World, command: string)
    ensures OpenUrl(AppleMusicUrl) !in ProcessCommand(world, command).effects
  {
    var lower := Lower(command);
    if IsMusicCommand(lower) {
      NoUrlNoApple(HandleMusic(world, command));
    } else if IsVideoCommand(lower) {
      NoUrlNoApple(HandleVideo(world, command));
    } else if IsStreamingCommand(lower) {
      StreamingNoApple(command);
    } else if IsGeneralMediaCommand(lower) {
      GeneralNoApple();
    }
  }

  lemma GeneralNoApple()
    ensures OpenUrl(AppleMusicUrl) !in HandleGeneralMedia().effects
  {
    assert HandleGeneralMedia().effects[0].url[8] != AppleMusicUrl[8];
  }

  /** The streaming stage is reached only when no music trigger occurs, and
      so never with the "apple_music" key. */
  lemma StreamingNoApple(command: string)
    requires !IsMusicCommand(Lower(command))
    ensures OpenUrl(AppleMusicUrl) !in HandleStreaming(command).effects
  {
    StreamingAppleNeedsKey(command);
    MusicNotNamed(Lower(command));
    MusicKeyNamesMusic(Lower(command));
  }

  lemma NoUrlNoApple(r: Reply)
    requires |r.effects| <= 1 && (|r.effects| == 1 ==> !r.effects[0].OpenUrl?)
    ensures OpenUrl(AppleMusicUrl) !in r.effects
  {
  }

  lemma MusicNotNamed(lower: string)
    requires !IsMusicCommand(lower)
    ensures !Contains(lower, "music")
  {
    AnyInIff(lower, MusicTriggers);
    assert MusicTriggers[7] == "music";
  }

  lemma MusicKeyNamesMusic(lower: string)
    ensures Contains(lower, "apple_music") ==> Contains(lower, "music")
  {
    if Contains(lower, "apple_music") {
      MusicInKey("apple_music");
      ContainsTransitive(lower, "apple_music", "music");
    }
  }

  lemma MusicInKey(key: string)
    requires key == "apple_music"
    ensures Contains(key, "music")
  {
    assert key[6..11] == "music";
    ContainsAt(key, "music", 6);
  }

  // ---------------------------------------------------------------------
  // play_specific_song

  /** `play_specific_song`: "{song} {artist}" trimmed, played on YouTube. */
  function PlaySpecificSong(world: World, song: string, artist: string): (r: Reply)
    ensures Played(r) == Some(Strip(song + " " + artist))
  {
    PlayOnYouTubeReply(world, Strip(song + " " + artist))
  }

  /** Without an artist, a trimmed song title is played as it is. */
  lemma PlaySpecificSongTitleOnly(world: World, song: string)
    requires |song| > 0 && Trimmed(song)
    ensures Played(PlaySpecificSong(world, song, "")) == Some(song)
  {
    var s := song + " " + "";
    assert s == song + " ";
    TrimLeftNoop(s, IsSpace);
    assert s[..|s| - 1] == song;
    TrimRightNoop(song, IsSpace);
  }
}
