/**
 * The music commands: one FIFO queue of songs per guild with the song now playing and an
 * `isPlaying` flag, the guild's voice connections, and the teardown timers `playNext` leaves
 * behind. `/play` queues a song and starts playback when idle, `playMusic` moves the head of
 * the queue into `currentSong`, `playNext` advances when a song ends or is skipped, `/stop`
 * clears everything, and `/queue` renders the state.
 */
module Music {
  import opened Common
  import opened Text

  /** A queued song; `durationSeconds` is the video length the lookup reports. */
  datatype Song = Song(title: string, url: string, durationSeconds: nat, requestedBy: string)

  /** A guild's queue object: waiting songs in order, the song taken off the head, the flag. */
  datatype Queue = Queue(songs: seq<Song>, currentSong: Option<Song>, isPlaying: bool)

  const NewQueue := Queue([], None, false)

  /**
   * The queues by guild, the guilds with a voice connection, and one pending teardown per
   * `setTimeout` that `playNext` scheduled and that has not fired yet.
   */
  datatype MusicState = MusicState(queues: map<Id, Queue>, connections: set<Id>, teardowns: multiset<Id>)

  /** Where a `playMusic` call throws, if it does: joining the voice channel, or starting the stream. */
  datatype PlayFailure = NoFailure | JoinFailed | StreamFailed

  /** Whether a failure can happen: joining is attempted only when the guild has no connection. */
  predicate PossibleFailure(s: MusicState, guildId: Id, failure: PlayFailure) {
    failure == JoinFailed ==> guildId !in s.connections
  }

  /** A playing queue always names the song it plays. */
  predicate Coherent(s: MusicState) {
    forall g :: g in s.queues && s.queues[g].isPlaying ==> s.queues[g].currentSong.Some?
  }

  // ---------------------------------------------------------------- playMusic and playNext

  /**
   * `playMusic`: nothing without a queue or songs; otherwise the head moves into `currentSong`
   * and is playing, the connection is made if missing, and a throw turns `isPlaying` off again.
   */
  function StartNext(s: MusicState, guildId: Id, failure: PlayFailure): MusicState {
    if guildId !in s.queues || s.queues[guildId].songs == [] then s
    else
      var q := s.queues[guildId];
      var started := Queue(q.songs[1..], Some(q.songs[0]), failure == NoFailure);
      var connections := if failure == JoinFailed then s.connections else s.connections + {guildId};
      MusicState(s.queues[guildId := started], connections, s.teardowns)
  }

  /**
   * `playNext`: nothing without a queue; with songs waiting, `playMusic` if the bot is in a voice
   * channel and nothing otherwise; with none, the queue goes idle and a teardown is scheduled.
   */
  function Advance(s: MusicState, guildId: Id, botInVoice: bool, failure: PlayFailure): MusicState {
    if guildId !in s.queues then s
    else if s.queues[guildId].songs != [] then
      if botInVoice then StartNext(s, guildId, failure) else s
    else
      var q := s.queues[guildId];
      MusicState(s.queues[guildId := q.(isPlaying := false, currentSong := None)], s.connections,
                 s.teardowns + multiset{guildId})
  }

  /** A teardown timer fires: the connection goes, whatever the queue is doing by then. */
  function TeardownFired(s: MusicState, guildId: Id): MusicState
    requires guildId in s.teardowns
  {
    MusicState(s.queues, s.connections - {guildId}, s.teardowns - multiset{guildId})
  }

  /**
   * `playMusic` takes the head of the queue in FIFO order, plays it unless a step threw, and
   * changes no other guild; without songs it changes nothing.
   */
  lemma StartNextFacts(s: MusicState, guildId: Id, failure: PlayFailure)
    ensures var t := StartNext(s, guildId, failure);
      (guildId !in s.queues || s.queues[guildId].songs == [] <==> t == s) &&
      (t != s ==>
         guildId in t.queues &&
         [t.queues[guildId].currentSong.value] + t.queues[guildId].songs == s.queues[guildId].songs &&
         (t.queues[guildId].isPlaying <==> failure == NoFailure) &&
         (guildId in t.connections <==> guildId in s.connections || failure != JoinFailed)) &&
      t.teardowns == s.teardowns &&
      (forall g :: g != guildId ==> (g in t.queues <==> g in s.queues) && (g in t.connections <==> g in s.connections)) &&
      (forall g :: g != guildId && g in s.queues ==> t.queues[g] == s.queues[g])
  {
    if guildId in s.queues && s.queues[guildId].songs != [] {
      var songs := s.queues[guildId].songs;
      assert [songs[0]] + songs[1..] == songs;
      var t := StartNext(s, guildId, failure);
      assert t.queues[guildId].songs != songs by {
        assert |t.queues[guildId].songs| < |songs|;
      }
    }
  }

  /**
   * `playNext` with songs left plays the next one only when the bot is in a voice channel, and
   * with none left marks the queue idle, forgets the current song and schedules one teardown.
   */
  lemma AdvanceFacts(s: MusicState, guildId: Id, botInVoice: bool, failure: PlayFailure)
    ensures var t := Advance(s, guildId, botInVoice, failure);
      (guildId !in s.queues ==> t == s) &&
      (guildId in s.queues && s.queues[guildId].songs != [] ==>
         t == if botInVoice then StartNext(s, guildId, failure) else s) &&
      (guildId in s.queues && s.queues[guildId].songs == [] ==>
         guildId in t.queues && t.queues[guildId] == Queue([], None, false) &&
         t.connections == s.connections && t.teardowns[guildId] == s.teardowns[guildId] + 1)
  {
  }

  /** The teardown does not look at the queue: it can leave a playing queue without a connection. */
  lemma TeardownIgnoresPlayback(s: MusicState, guildId: Id)
    requires guildId in s.teardowns && guildId in s.queues && s.queues[guildId].isPlaying
    ensures var t := TeardownFired(s, guildId);
      t.queues[guildId].isPlaying && guildId !in t.connections
  {
  }

  /**
   * A song ends in an empty queue, a new `/play` starts the next song on the existing connection,
   * and the earlier timer then fires: music is playing with no connection left.
   */
  lemma StaleTeardownCutsNewSong(song: Song, guildId: Id)
    ensures var playing := MusicState(map[guildId := Queue([], Some(song), true)], {guildId}, multiset{});
      var idle := Advance(playing, guildId, true, NoFailure);
      var (o, again) := PlayEffect(idle, guildId, Some("voice"), Found(song), NoFailure);
      var cut := TeardownFired(again, guildId);
      o == Queued(1) && cut.queues[guildId].isPlaying && cut.queues[guildId].currentSong == Some(song) &&
      guildId !in cut.connections
  {
    var playing := MusicState(map[guildId := Queue([], Some(song), true)], {guildId}, multiset{});
    var idle := Advance(playing, guildId, true, NoFailure);
    assert idle.queues[guildId] == NewQueue && guildId in idle.teardowns;
    var (o, again) := PlayEffect(idle, guildId, Some("voice"), Found(song), NoFailure);
    assert again.queues[guildId] == Queue([], Some(song), true) && guildId in again.teardowns;
  }

  // ---------------------------------------------------------------- /play

  /** What the song lookup gave: a song, an empty search, or a throw from the lookup. */
  datatype SongLookup = Found(song: Song) | NotFound | LookupFailed

  datatype PlayOutcome = NotInVoiceChannel | SongNotFound | PlayError | Queued(position: nat)

  /** The queue a guild gets on first use of `/play`: empty and not playing. */
  function WithQueue(s: MusicState, guildId: Id): (t: MusicState)
    ensures guildId in t.queues
  {
    if guildId in s.queues then s else s.(queues := s.queues[guildId := NewQueue])
  }

  /**
   * `/play`: a member outside voice is refused before anything else; the queue is created even when
   * the lookup comes back empty or throws; a found song is appended and its position (the length
   * after the append) reported, and playback starts when the queue was not playing.
   */
  function PlayEffect(s: MusicState, guildId: Id, userChannel: Option<Id>, lookup: SongLookup, failure: PlayFailure)
    : (PlayOutcome, MusicState)
  {
    if userChannel.None? then (NotInVoiceChannel, s)
    else
      var s1 := WithQueue(s, guildId);
      match lookup
      case NotFound => (SongNotFound, s1)
      case LookupFailed => (PlayError, s1)
      case Found(song) =>
        var q := s1.queues[guildId];
        var s2 := s1.(queues := s1.queues[guildId := q.(songs := q.songs + [song])]);
        (Queued(|q.songs| + 1), if q.isPlaying then s2 else StartNext(s2, guildId, failure))
  }

  /**
   * A queued song lands at the tail: the songs before it are kept in order, and when the queue was
   * idle the head of that queue is now playing (the new song itself if nothing was waiting).
   */
  lemma PlayFacts(s: MusicState, guildId: Id, userChannel: Option<Id>, lookup: SongLookup, failure: PlayFailure)
    ensures var (o, t) := PlayEffect(s, guildId, userChannel, lookup, failure);
      var before := if guildId in s.queues then s.queues[guildId] else NewQueue;
      (o == NotInVoiceChannel <==> userChannel.None?) &&
      (o == NotInVoiceChannel ==> t == s) &&
      (o == SongNotFound <==> userChannel.Some? && lookup == NotFound) &&
      (o == PlayError <==> userChannel.Some? && lookup == LookupFailed) &&
      (o.SongNotFound? || o.PlayError? ==> t == WithQueue(s, guildId)) &&
      (o.Queued? ==>
         o.position == |before.songs| + 1 && guildId in t.queues &&
         (before.isPlaying ==> t.queues[guildId] == before.(songs := before.songs + [lookup.song])) &&
         (!before.isPlaying ==>
            [t.queues[guildId].currentSong.value] + t.queues[guildId].songs == before.songs + [lookup.song] &&
            (t.queues[guildId].isPlaying <==> failure == NoFailure) &&
            (before.songs == [] ==> t.queues[guildId].currentSong == Some(lookup.song))))
  {
    if userChannel.Some? && lookup.Found? {
      var s1 := WithQueue(s, guildId);
      var q := s1.queues[guildId];
      var s2 := s1.(queues := s1.queues[guildId := q.(songs := q.songs + [lookup.song])]);
      if !q.isPlaying {
        StartNextFacts(s2, guildId, failure);
      }
    }
  }

  // ---------------------------------------------------------------- /skip and /stop

  /** The two voice checks `/skip` and `/stop` make first. */
  datatype VoiceGate = NotInVoice | NotSameChannel | InSameChannel

  function VoiceCheck(userChannel: Option<Id>, botChannel: Option<Id>): (v: VoiceGate)
    ensures v == InSameChannel <==> userChannel.Some? && botChannel == userChannel
  {
    if userChannel.None? then NotInVoice
    else if botChannel != userChannel then NotSameChannel
    else InSameChannel
  }

  /** `SkipFailed` is the error reply of the command's catch. */
  datatype SkipOutcome = SkipRefused(gate: VoiceGate) | NothingToSkip | SkipFailed | Skipped(title: Option<string>)

  /**
   * `/skip`: the voice checks, then nothing playing is refused; otherwise the current song is read
   * and `playNext` runs, with the bot in the member's channel. `/skip` calls `playNext` as a bare
   * function taken off the module, so its `this.playMusic` is no method: with songs waiting that
   * call throws before anything changes and the error reply follows. With none waiting `playNext`
   * never reaches it and idles the queue as a finished song does.
   */
  function SkipEffect(s: MusicState, guildId: Id, userChannel: Option<Id>, botChannel: Option<Id>)
    : (SkipOutcome, MusicState)
  {
    var gate := VoiceCheck(userChannel, botChannel);
    if gate != InSameChannel then (SkipRefused(gate), s)
    else if guildId !in s.queues || !s.queues[guildId].isPlaying then (NothingToSkip, s)
    else if s.queues[guildId].songs != [] then (SkipFailed, s)
    else
      var current := s.queues[guildId].currentSong;
      (Skipped(if current.Some? then Some(current.value.title) else None), Advance(s, guildId, true, NoFailure))
  }

  /**
   * A skip with songs waiting fails and changes nothing; a skip of the last song names it, idles
   * the queue and schedules one teardown, exactly as a finished song does.
   */
  lemma SkipFacts(s: MusicState, guildId: Id, userChannel: Option<Id>, botChannel: Option<Id>)
    requires Coherent(s)
    ensures var (o, t) := SkipEffect(s, guildId, userChannel, botChannel);
      (o.SkipRefused? <==> !(userChannel.Some? && botChannel == userChannel)) &&
      (o == NothingToSkip <==>
         userChannel.Some? && botChannel == userChannel && (guildId !in s.queues || !s.queues[guildId].isPlaying)) &&
      (o == SkipFailed <==>
         userChannel.Some? && botChannel == userChannel && guildId in s.queues && s.queues[guildId].isPlaying &&
         s.queues[guildId].songs != []) &&
      (!o.Skipped? ==> t == s) &&
      (o.Skipped? ==>
         o.title == Some(s.queues[guildId].currentSong.value.title) &&
         s.queues[guildId].songs == [] &&
         t == Advance(s, guildId, true, NoFailure) &&
         t.queues[guildId] == NewQueue && t.connections == s.connections &&
         t.teardowns == s.teardowns + multiset{guildId})
  {
  }

  datatype StopOutcome = StopRefused(gate: VoiceGate) | NothingToStop | Stopped

  /** `/stop`: the voice checks, nothing playing is refused, else the queue is emptied and the bot leaves. */
  function StopEffect(s: MusicState, guildId: Id, userChannel: Option<Id>, botChannel: Option<Id>)
    : (StopOutcome, MusicState)
  {
    var gate := VoiceCheck(userChannel, botChannel);
    if gate != InSameChannel then (StopRefused(gate), s)
    else if guildId !in s.queues || !s.queues[guildId].isPlaying then (NothingToStop, s)
    else (Stopped, MusicState(s.queues[guildId := Queue([], None, false)], s.connections - {guildId}, s.teardowns))
  }

  /** A stop leaves the guild's queue empty and idle and its connection gone, and touches no other guild. */
  lemma StopFacts(s: MusicState, guildId: Id, userChannel: Option<Id>, botChannel: Option<Id>)
    ensures var (o, t) := StopEffect(s, guildId, userChannel, botChannel);
      (o.StopRefused? <==> !(userChannel.Some? && botChannel == userChannel)) &&
      (o == NothingToStop <==>
         userChannel.Some? && botChannel == userChannel && (guildId !in s.queues || !s.queues[guildId].isPlaying)) &&
      (o != Stopped ==> t == s) &&
      (o == Stopped ==>
         t.queues[guildId] == NewQueue && guildId !in t.connections && t.teardowns == s.teardowns &&
         (forall g :: g != guildId ==> (g in t.queues <==> g in s.queues) && (g in t.connections <==> g in s.connections)) &&
         (forall g :: g != guildId && g in s.queues ==> t.queues[g] == s.queues[g]))
  {
  }

  /** `playMusic`, `playNext` and a teardown keep a playing queue naming its song. */
  lemma PlaybackKeepsCoherent(s: MusicState, guildId: Id, botInVoice: bool, failure: PlayFailure)
    requires Coherent(s)
    ensures Coherent(StartNext(s, guildId, failure))
    ensures Coherent(Advance(s, guildId, botInVoice, failure))
    ensures guildId in s.teardowns ==> Coherent(TeardownFired(s, guildId))
  {
  }

  /** `/play`, `/skip` and `/stop` keep a playing queue naming its song. */
  lemma CommandsKeepCoherent(s: MusicState, guildId: Id, userChannel: Option<Id>, botChannel: Option<Id>,
                             lookup: SongLookup, failure: PlayFailure)
    requires Coherent(s)
    ensures Coherent(PlayEffect(s, guildId, userChannel, lookup, failure).1)
    ensures Coherent(SkipEffect(s, guildId, userChannel, botChannel).1)
    ensures Coherent(StopEffect(s, guildId, userChannel, botChannel).1)
  {
    PlaybackKeepsCoherent(s, guildId, true, failure);
    if userChannel.Some? && lookup.Found? {
      var s1 := WithQueue(s, guildId);
      var q := s1.queues[guildId];
      var s2 := s1.(queues := s1.queues[guildId := q.(songs := q.songs + [lookup.song])]);
      assert Coherent(s2);
      PlaybackKeepsCoherent(s2, guildId, true, failure);
    }
  }

  // ---------------------------------------------------------------- /queue

  /** One `Upcoming` line: its number from 1 and the song. */
  datatype Upcoming = Upcoming(number: nat, song: Song)

  datatype QueueReply =
    | EmptyQueue
    | QueueShown(playing: bool, nowPlaying: Option<Song>, upcoming: seq<Upcoming>, totalSongs: Option<nat>)

  /** The header word for the state. */
  function StatusWord(r: QueueReply): string
    requires r.QueueShown?
  {
    if r.playing then "playing" else "paused"
  }

  /** `/queue`: empty without a queue or with an idle one holding no songs; else the now-playing, the first ten, the count. */
  function QueueView(s: MusicState, guildId: Id): (r: QueueReply)
    ensures r == EmptyQueue <==>
      guildId !in s.queues || (!s.queues[guildId].isPlaying && s.queues[guildId].songs == [])
  {
    if guildId !in s.queues then EmptyQueue
    else
      var q := s.queues[guildId];
      if !q.isPlaying && q.songs == [] then EmptyQueue
      else
        var shown := Take(q.songs, 10);
        QueueShown(q.isPlaying, q.currentSong,
                   seq(|shown|, i requires 0 <= i < |shown| => Upcoming(i + 1, shown[i])),
                   if |q.songs| > 10 then Some(|q.songs|) else None)
  }

  /**
   * A shown queue reports the state, names the current song only when there is one, lists the
   * first ten songs numbered from 1 in queue order, and counts them all only beyond ten.
   */
  lemma QueueViewFacts(s: MusicState, guildId: Id)
    requires QueueView(s, guildId).QueueShown?
    ensures var r := QueueView(s, guildId);
      var q := s.queues[guildId];
      (StatusWord(r) == "playing" <==> q.isPlaying) &&
      r.nowPlaying == q.currentSong &&
      |r.upcoming| == Min(10, |q.songs|) &&
      (forall i :: 0 <= i < |r.upcoming| ==> r.upcoming[i] == Upcoming(i + 1, q.songs[i])) &&
      (r.totalSongs.Some? <==> |q.songs| > 10) &&
      (r.totalSongs.Some? ==> r.totalSongs.value == |q.songs|)
  {
  }

  // ---------------------------------------------------------------- formatDuration

  /** The hours, minutes below an hour, and seconds below a minute of a length in seconds. */
  function DurationParts(seconds: nat): (p: (nat, nat, nat))
    ensures p.1 < 60 && p.2 < 60
    ensures p.0 * 3600 + p.1 * 60 + p.2 == seconds
  {
    (seconds / 3600, (seconds % 3600) / 60, seconds % 60)
  }

  /** `h:mm:ss` from an hour on, `m:ss` below, the seconds always two digits. */
  function FormatDuration(seconds: nat): string {
    var p := DurationParts(seconds);
    if p.0 > 0 then NatStr(p.0) + ":" + Pad2(p.1) + ":" + Pad2(p.2) else NatStr(p.1) + ":" + Pad2(p.2)
  }

  /** The seconds a list of clock fields stands for: minutes:seconds or hours:minutes:seconds. */
  function ClockFieldsValue(parts: seq<string>): Option<nat> {
    if (forall i :: 0 <= i < |parts| ==> AllDigits(parts[i])) && 2 <= |parts| <= 3 then
      if |parts| == 3 then Some(ParseNat(parts[0]) * 3600 + ParseNat(parts[1]) * 60 + ParseNat(parts[2]))
      else Some(ParseNat(parts[0]) * 60 + ParseNat(parts[1]))
    else None
  }

  /** Reads a clock back from its text. */
  function ClockSeconds(text: string): Option<nat> {
    ClockFieldsValue(Split(text, ':'))
  }

  /** Colon-joined digit fields split back into the same fields. */
  lemma ClockFieldsSplit(parts: seq<string>)
    requires 2 <= |parts| <= 3
    requires forall i :: 0 <= i < |parts| ==> AllDigits(parts[i])
    ensures Split(Join(parts, ":"), ':') == parts
  {
    forall i | 0 <= i < |parts| ensures ':' !in parts[i] {
      DigitsHaveNo(parts[i], ':');
    }
    SplitJoin(parts, ':');
  }

  /** An hour clock reads back as its seconds. */
  lemma HourClockReadsBack(h: nat, m: nat, sec: nat)
    requires m < 60 && sec < 60
    ensures var text := NatStr(h) + ":" + Pad2(m) + ":" + Pad2(sec);
      Split(text, ':') == [NatStr(h), Pad2(m), Pad2(sec)] && ClockSeconds(text) == Some(h * 3600 + m * 60 + sec)
  {
    var text := NatStr(h) + ":" + Pad2(m) + ":" + Pad2(sec);
    var parts := [NatStr(h), Pad2(m), Pad2(sec)];
    assert parts[1..] == [Pad2(m), Pad2(sec)];
    assert Join(parts[1..], ":") == Pad2(m) + ":" + Pad2(sec);
    assert Join(parts, ":") == text;
    ClockFieldsSplit(parts);
    ParseNatStr(h);
    ParsePad2(m);
    ParsePad2(sec);
    assert ClockFieldsValue(parts) == Some(h * 3600 + m * 60 + sec);
  }

  /** A minute clock reads back as its seconds. */
  lemma MinuteClockReadsBack(m: nat, sec: nat)
    requires sec < 60
    ensures var text := NatStr(m) + ":" + Pad2(sec);
      Split(text, ':') == [NatStr(m), Pad2(sec)] && ClockSeconds(text) == Some(m * 60 + sec)
  {
    var parts := [NatStr(m), Pad2(sec)];
    assert Join(parts, ":") == NatStr(m) + ":" + Pad2(sec);
    ClockFieldsSplit(parts);
    ParseNatStr(m);
    ParsePad2(sec);
  }

  /** A length of an hour or more renders as three fields that read back as it. */
  lemma LongDurationReadsBack(seconds: nat)
    requires seconds >= 3600
    ensures var fields := Split(FormatDuration(seconds), ':');
      ClockSeconds(FormatDuration(seconds)) == Some(seconds) && |fields| == 3 && |fields[1]| == 2 && |fields[2]| == 2
  {
    var p := DurationParts(seconds);
    assert FormatDuration(seconds) == NatStr(p.0) + ":" + Pad2(p.1) + ":" + Pad2(p.2);
    HourClockReadsBack(p.0, p.1, p.2);
  }

  /** A length below an hour renders as two fields that read back as it. */
  lemma ShortDurationReadsBack(seconds: nat)
    requires seconds < 3600
    ensures var fields := Split(FormatDuration(seconds), ':');
      ClockSeconds(FormatDuration(seconds)) == Some(seconds) && |fields| == 2 && |fields[1]| == 2
  {
    var p := DurationParts(seconds);
    assert FormatDuration(seconds) == NatStr(p.1) + ":" + Pad2(p.2);
    MinuteClockReadsBack(p.1, p.2);
  }

  /**
   * The rendered duration reads back as the same number of seconds, with three fields exactly
   * from an hour on and two-digit fields after the first.
   */
  lemma FormatDurationReadsBack(seconds: nat)
    ensures ClockSeconds(FormatDuration(seconds)) == Some(seconds)
    ensures |Split(FormatDuration(seconds), ':')| == if seconds >= 3600 then 3 else 2
    ensures forall i :: 1 <= i < |Split(FormatDuration(seconds), ':')| ==> |Split(FormatDuration(seconds), ':')[i]| == 2
  {
    if seconds >= 3600 {
      LongDurationReadsBack(seconds);
    } else {
      ShortDurationReadsBack(seconds);
    }
  }

  // ---------------------------------------------------------------- the player

  /** The module-level maps of the music commands, with the timers they leave behind. */
  class Player {
    var queues: map<Id, Queue>
    var connections: set<Id>
    var teardowns: multiset<Id>

    function State(): MusicState
      reads this
    {
      MusicState(queues, connections, teardowns)
    }

    constructor()
      ensures State() == MusicState(map[], {}, multiset{})
    {
      queues, connections, teardowns := map[], {}, multiset{};
    }

    method PlayMusic(guildId: Id, failure: PlayFailure)
      requires PossibleFailure(State(), guildId, failure)
      modifies this
      ensures State() == StartNext(old(State()), guildId, failure)
    {
      if guildId !in queues || queues[guildId].songs == [] {
        return;
      }
      var queue := queues[guildId];
      var song := queue.songs[0];
      queue := queue.(isPlaying := true, songs := queue.songs[1..], currentSong := Some(song));
      queues := queues[guildId := queue];
      if failure == JoinFailed {
        queues := queues[guildId := queue.(isPlaying := false)];
        return;
      }
      connections := connections + {guildId};
      if failure == StreamFailed {
        queues := queues[guildId := queue.(isPlaying := false)];
      }
    }

    method PlayNext(guildId: Id, botInVoice: bool, failure: PlayFailure)
      requires PossibleFailure(State(), guildId, failure)
      modifies this
      ensures State() == Advance(old(State()), guildId, botInVoice, failure)
    {
      if guildId !in queues {
        return;
      }
      if queues[guildId].songs != [] {
        if botInVoice {
          PlayMusic(guildId, failure);
        }
      } else {
        var queue := queues[guildId];
        queues := queues[guildId := queue.(isPlaying := false, currentSong := None)];
        teardowns := teardowns + multiset{guildId};
      }
    }

    /** A pending teardown timer fires. */
    method Teardown(guildId: Id)
      requires guildId in teardowns
      modifies this
      ensures State() == TeardownFired(old(State()), guildId)
    {
      connections := connections - {guildId};
      teardowns := teardowns - multiset{guildId};
    }

    method Play(guildId: Id, userChannel: Option<Id>, lookup: SongLookup, failure: PlayFailure) returns (o: PlayOutcome)
      requires PossibleFailure(State(), guildId, failure)
      modifies this
      ensures o == PlayEffect(old(State()), guildId, userChannel, lookup, failure).0
      ensures State() == PlayEffect(old(State()), guildId, userChannel, lookup, failure).1
    {
      if userChannel.None? {
        return NotInVoiceChannel;
      }
      if guildId !in queues {
        queues := queues[guildId := NewQueue];
      }
      var queue := queues[guildId];
      match lookup
      case NotFound =>
        return SongNotFound;
      case LookupFailed =>
        return PlayError;
      case Found(song) =>
        queue := queue.(songs := queue.songs + [song]);
        queues := queues[guildId := queue];
        o := Queued(|queue.songs|);
        if !queue.isPlaying {
          PlayMusic(guildId, failure);
        }
    }

    method Skip(guildId: Id, userChannel: Option<Id>, botChannel: Option<Id>)
      returns (o: SkipOutcome)
      modifies this
      ensures o == SkipEffect(old(State()), guildId, userChannel, botChannel).0
      ensures State() == SkipEffect(old(State()), guildId, userChannel, botChannel).1
    {
      var gate := VoiceCheck(userChannel, botChannel);
      if gate != InSameChannel {
        return SkipRefused(gate);
      }
      if guildId !in queues || !queues[guildId].isPlaying {
        return NothingToSkip;
      }
      if queues[guildId].songs != [] {
        return SkipFailed;
      }
      var currentSong := queues[guildId].currentSong;
      PlayNext(guildId, true, NoFailure);
      o := Skipped(if currentSong.Some? then Some(currentSong.value.title) else None);
    }

    method Stop(guildId: Id, userChannel: Option<Id>, botChannel: Option<Id>) returns (o: StopOutcome)
      modifies this
      ensures o == StopEffect(old(State()), guildId, userChannel, botChannel).0
      ensures State() == StopEffect(old(State()), guildId, userChannel, botChannel).1
    {
      var gate := VoiceCheck(userChannel, botChannel);
      if gate != InSameChannel {
        return StopRefused(gate);
      }
      if guildId !in queues || !queues[guildId].isPlaying {
        return NothingToStop;
      }
      var queue := queues[guildId];
      queue := queue.(isPlaying := false, currentSong := None, songs := []);
      queues := queues[guildId := queue];
      connections := connections - {guildId};
      o := Stopped;
    }
  }
}
