/**
 * Support tickets: the `/ticket` command and the ticket buttons. A ticket is a text channel
 * named `ticket-` + the opener's lower-cased username; ownership is decided by that name alone.
 */
module Tickets {
  import opened Common
  import opened Text
  import opened Permissions

  const Prefix := "ticket-"

  /** `ticket-${username.toLowerCase()}`. */
  function TicketName(username: string): (name: string)
    ensures StartsWith(name, Prefix)
    ensures name[|Prefix|..] == Lower(username)
    ensures |name| == |Prefix| + |username|
  {
    Prefix + Lower(username)
  }

  /** Two usernames share a ticket channel exactly when they agree after lower-casing. */
  lemma TicketNameCaseInsensitive(a: string, b: string)
    ensures TicketName(a) == TicketName(b) <==> Lower(a) == Lower(b)
  {
    if TicketName(a) == TicketName(b) {
      assert TicketName(a)[|Prefix|..] == TicketName(b)[|Prefix|..];
    }
  }

  predicate IsTicketChannel(channelName: string) {
    StartsWith(channelName, Prefix)
  }

  predicate IsTicketOwner(channelName: string, username: string) {
    channelName == TicketName(username)
  }

  /** Staff: the configured moderator role or `ManageChannels`. */
  predicate IsStaff(cfg: Config, m: Member) {
    cfg.moderatorRole in m.roles || HasPermission(m, ManageChannels)
  }

  /** A ticket's owner is always in a ticket channel. */
  lemma OwnerIsInTicketChannel(channelName: string, username: string)
    requires IsTicketOwner(channelName, username)
    ensures IsTicketChannel(channelName)
  {
  }

  // ---------------------------------------------------------------- gates

  datatype Gate = NotATicket | Denied | Allowed

  /** `/ticket setup`: only members with `ManageChannels` may post the ticket panel. */
  function SetupGate(m: Member): (g: Gate)
    ensures g != NotATicket
    ensures g == Allowed <==> ManageChannels in m.granted || Administrator in m.granted
  {
    if HasPermission(m, ManageChannels) then Allowed else Denied
  }

  /** `/ticket close` and the close button: the owner by channel name, or staff; it only asks for confirmation. */
  function CloseGate(channelName: string, username: string, cfg: Config, m: Member): (g: Gate)
    ensures g == NotATicket <==> !IsTicketChannel(channelName)
    ensures g == Denied <==>
      IsTicketChannel(channelName) && !IsTicketOwner(channelName, username) && !IsStaff(cfg, m)
    ensures g == Allowed <==>
      IsTicketChannel(channelName) && (IsTicketOwner(channelName, username) || IsStaff(cfg, m))
  {
    if !IsTicketChannel(channelName) then NotATicket
    else if !(channelName == TicketName(username)) && !IsStaff(cfg, m) then Denied
    else Allowed
  }

  /** The claim, add-user and remove-user buttons: staff only, owners included only if they are staff. */
  function StaffGate(channelName: string, cfg: Config, m: Member): (g: Gate)
    ensures g == NotATicket <==> !IsTicketChannel(channelName)
    ensures g == Denied <==> IsTicketChannel(channelName) && !IsStaff(cfg, m)
    ensures g == Allowed <==> IsTicketChannel(channelName) && IsStaff(cfg, m)
  {
    if !IsTicketChannel(channelName) then NotATicket
    else if !(cfg.moderatorRole in m.roles) && !HasPermission(m, ManageChannels) then Denied
    else Allowed
  }

  /** The confirm button checks only the channel name: it is reached through the close confirmation. */
  function ConfirmGate(channelName: string): (g: Gate)
    ensures g != Denied
    ensures g == Allowed <==> IsTicketChannel(channelName)
  {
    if !IsTicketChannel(channelName) then NotATicket else Allowed
  }

  /** Whoever may claim, add or remove may also close; the owner may close but not claim unless staff. */
  lemma StaffGateImpliesCloseGate(channelName: string, username: string, cfg: Config, m: Member)
    ensures StaffGate(channelName, cfg, m) == Allowed ==> CloseGate(channelName, username, cfg, m) == Allowed
    ensures IsTicketOwner(channelName, username) ==> CloseGate(channelName, username, cfg, m) == Allowed
    ensures IsTicketOwner(channelName, username) && !IsStaff(cfg, m) ==> StaffGate(channelName, cfg, m) == Denied
  {
  }

  // ---------------------------------------------------------------- create

  /** A cached guild channel: its name and whether it is a text channel. */
  datatype GuildChannel = GuildChannel(name: string, isText: bool)

  datatype CreateOutcome = TicketExists | TicketCreated(name: string)

  /** The slash command and the create button alike refuse a second text channel with the ticket name. */
  function CreateTicket(channels: seq<GuildChannel>, username: string): (o: CreateOutcome)
    ensures o == TicketExists <==>
      exists i :: 0 <= i < |channels| && channels[i].name == TicketName(username) && channels[i].isText
    ensures o.TicketCreated? ==> o.name == TicketName(username) && IsTicketOwner(o.name, username)
  {
    if exists i :: 0 <= i < |channels| && channels[i].name == TicketName(username) && channels[i].isText
    then TicketExists
    else TicketCreated(TicketName(username))
  }

  /** The channel a creation adds is one the same user can no longer create again. */
  lemma CreateOnce(channels: seq<GuildChannel>, username: string)
    requires CreateTicket(channels, username).TicketCreated?
    ensures CreateTicket(channels + [GuildChannel(TicketName(username), true)], username) == TicketExists
  {
    var c := channels + [GuildChannel(TicketName(username), true)];
    assert c[|channels|].name == TicketName(username) && c[|channels|].isText;
  }

  /** The creator of a ticket passes the close gate in it, but not the staff gate unless staff. */
  lemma CreatorMayClose(channels: seq<GuildChannel>, username: string, cfg: Config, m: Member)
    requires CreateTicket(channels, username).TicketCreated?
    ensures CloseGate(CreateTicket(channels, username).name, username, cfg, m) == Allowed
  {
  }

  // ---------------------------------------------------------------- transcript

  /** A fetched message: ISO creation time, author tag and content. */
  datatype Message = Message(createdAt: string, authorTag: string, content: string)

  /** `[${createdAt}] ${author.tag}: ${content}`. */
  function TranscriptLine(m: Message): string {
    "[" + m.createdAt + "] " + m.authorTag + ": " + m.content
  }

  /** The last 100 messages (the platform returns newest first), reversed into oldest-first lines. */
  function TranscriptLines(newestFirst: seq<Message>): (lines: seq<string>)
    ensures |lines| == Min(100, |newestFirst|)
    ensures forall i :: 0 <= i < |lines| ==> lines[i] == TranscriptLine(newestFirst[|lines| - 1 - i])
  {
    var fetched := Reverse(Take(newestFirst, 100));
    seq(|fetched|, i requires 0 <= i < |fetched| => TranscriptLine(fetched[i]))
  }

  function Transcript(newestFirst: seq<Message>): string {
    Join(TranscriptLines(newestFirst), "\n")
  }

  /** Without line breaks in the messages, the transcript splits back into one line per message, oldest first. */
  lemma TranscriptSplitsIntoLines(newestFirst: seq<Message>)
    requires newestFirst != []
    requires forall i :: 0 <= i < |newestFirst| ==> '\n' !in TranscriptLine(newestFirst[i])
    ensures Split(Transcript(newestFirst), '\n') == TranscriptLines(newestFirst)
  {
    var lines := TranscriptLines(newestFirst);
    forall i | 0 <= i < |lines|
      ensures '\n' !in lines[i]
    {
      assert lines[i] == TranscriptLine(newestFirst[|lines| - 1 - i]);
    }
    SplitJoin(lines, '\n');
  }

  const Fence := "```"

  /**
   * The log embed's transcript field: present only for a transcript shorter than 2000
   * characters, holding its first 1000 characters followed by `...` (appended even when
   * nothing was cut).
   */
  function TranscriptField(transcript: string): (f: Option<string>)
    ensures f.Some? <==> |transcript| < 2000
    ensures f.Some? ==>
      var kept := Min(1000, |transcript|);
      f.value == Fence + "\n" + transcript[..kept] + "...\n" + Fence &&
      |f.value| == kept + 11
  {
    if |transcript| < 2000 then
      Some(Fence + "\n" + (if |transcript| <= 1000 then transcript else transcript[..1000]) + "...\n" + Fence)
    else None
  }
}
