/**
 * The slash-command gate run for every interaction: command lookup, the "any one of the
 * declared permissions" check, the per-(command, user) cooldown map, then the handler.
 * The handler's own behaviour is the rest of the model; here only whether it throws matters.
 */
module Dispatch {
  import opened Common
  import opened Permissions

  /** A registered command: its name, its optional `permissions` list and optional `cooldown` in seconds. */
  datatype Command = Command(name: string, permissions: Option<seq<Permission>>, cooldown: Option<int>)

  /** An incoming interaction; `member` is absent outside a guild. */
  datatype Interaction = Interaction(isChatInput: bool, commandName: string, member: Option<Member>, userId: Id)

  /** What the gate does with an interaction. */
  datatype Outcome =
    | Ignored                     // not a slash command
    | UnknownCommand              // logged only; no reply
    | GuildOnly                   // "can only be used in a server"
    | Denied                      // "Insufficient Permissions"
    | OnCooldown(expiresAt: int)  // "Cooldown Active", with the expiry instant in ms
    | Ran                         // the handler completed
    | HandlerFailed               // the handler threw; the error handler replied

  type Cooldowns = map<string, map<Id, int>>

  /** `(command.cooldown ?? 3) * 1000`: only a missing value defaults, an explicit 0 stays 0. */
  function CooldownMs(c: Command): (ms: int)
    ensures c.cooldown.None? ==> ms == 3000
    ensures c.cooldown.Some? ==> ms == c.cooldown.value * 1000
  {
    c.cooldown.GetOr(3) * 1000
  }

  /** `permissions.some(p => hasPermission(member, p))`. */
  predicate AnyPermission(m: Member, ps: seq<Permission>) {
    exists k :: 0 <= k < |ps| && HasPermission(m, ps[k])
  }

  /** The stored timestamps of one command; a command seen for the first time has an empty map. */
  function Timestamps(cds: Cooldowns, name: string): map<Id, int> {
    if name in cds then cds[name] else map[]
  }

  /** Which check stops the interaction, if any, before the cooldown is recorded. */
  function Gate(commands: map<string, Command>, cds: Cooldowns, i: Interaction, now: int): Option<Outcome> {
    if !i.isChatInput then Some(Ignored)
    else if i.commandName !in commands then Some(UnknownCommand)
    else
      var c := commands[i.commandName];
      if c.permissions.Some? && i.member.None? then Some(GuildOnly)
      else if c.permissions.Some? && !AnyPermission(i.member.value, c.permissions.value) then Some(Denied)
      else
        var ts := Timestamps(cds, c.name);
        if i.userId in ts && now < ts[i.userId] + CooldownMs(c) then Some(OnCooldown(ts[i.userId] + CooldownMs(c)))
        else None
  }

  /** The reply, given whether the handler would throw. */
  function Decide(commands: map<string, Command>, cds: Cooldowns, i: Interaction, now: int, handlerThrows: bool): Outcome {
    var g := Gate(commands, cds, i, now);
    if g.Some? then g.value else if handlerThrows then HandlerFailed else Ran
  }

  /** The cooldown map afterwards: `now` is stored exactly when the gate lets the call through. */
  function CooldownsAfter(commands: map<string, Command>, cds: Cooldowns, i: Interaction, now: int): Cooldowns {
    if Gate(commands, cds, i, now).Some? then cds
    else
      var name := commands[i.commandName].name;
      cds[name := Timestamps(cds, name)[i.userId := now]]
  }

  /** Registered names are the commands' own `data.name`. */
  predicate WellNamed(commands: map<string, Command>) {
    forall n :: n in commands ==> commands[n].name == n
  }

  class Router {
    var commands: map<string, Command>
    var cooldowns: Cooldowns

    constructor(registry: map<string, Command>)
      ensures commands == registry && cooldowns == map[]
    {
      commands := registry;
      cooldowns := map[];
    }

    /** Handles one interaction; `handlerThrows` stands for the handler's own run. */
    method Execute(i: Interaction, now: int, handlerThrows: bool) returns (o: Outcome)
      modifies this`cooldowns
      ensures o == Decide(commands, old(cooldowns), i, now, handlerThrows)
      ensures cooldowns == CooldownsAfter(commands, old(cooldowns), i, now)
    {
      if !i.isChatInput {
        return Ignored;
      }
      if i.commandName !in commands {
        return UnknownCommand;
      }
      var command := commands[i.commandName];
      if command.permissions.Some? {
        if i.member.None? {
          return GuildOnly;
        }
        var ps := command.permissions.value;
        var has := false;
        var k := 0;
        while k < |ps| && !has
          invariant 0 <= k <= |ps|
          invariant has <==> exists j :: 0 <= j < k && HasPermission(i.member.value, ps[j])
        {
          has := HasPermission(i.member.value, ps[k]);
          k := k + 1;
        }
        if !has {
          return Denied;
        }
      }
      if command.name !in cooldowns {
        cooldowns := cooldowns[command.name := map[]];
      }
      var timestamps := cooldowns[command.name];
      var cooldownAmount := CooldownMs(command);
      if i.userId in timestamps {
        var expirationTime := timestamps[i.userId] + cooldownAmount;
        if now < expirationTime {
          return OnCooldown(expirationTime);
        }
      }
      cooldowns := cooldowns[command.name := timestamps[i.userId := now]];
      o := if handlerThrows then HandlerFailed else Ran;
    }
  }

  // ------------------------------------------------------------------ properties

  /** An unknown command gets no reply, runs nothing and stores nothing. */
  lemma UnknownCommandIsSilent(commands: map<string, Command>, cds: Cooldowns, i: Interaction, now: int, t: bool)
    requires i.isChatInput && i.commandName !in commands
    ensures Decide(commands, cds, i, now, t) == UnknownCommand
    ensures CooldownsAfter(commands, cds, i, now) == cds
  {
  }

  /** The handler runs only for a member holding one of the declared permissions. */
  lemma HandlerNeedsAPermission(commands: map<string, Command>, cds: Cooldowns, i: Interaction, now: int, t: bool)
    requires i.commandName in commands && commands[i.commandName].permissions.Some?
    ensures Decide(commands, cds, i, now, t) in {Ran, HandlerFailed} ==>
      i.member.Some? && exists p :: p in commands[i.commandName].permissions.value && HasPermission(i.member.value, p)
    ensures i.isChatInput && i.member.Some? && commands[i.commandName].permissions.value == [] ==>
      Decide(commands, cds, i, now, t) == Denied
  {
    if Decide(commands, cds, i, now, t) in {Ran, HandlerFailed} {
      var ps := commands[i.commandName].permissions.value;
      var k :| 0 <= k < |ps| && HasPermission(i.member.value, ps[k]);
      assert ps[k] in ps;
    }
  }

  /** An invocation refused for a missing member or for permissions leaves the cooldowns as they were. */
  lemma RefusalRecordsNothing(commands: map<string, Command>, cds: Cooldowns, i: Interaction, now: int, t: bool)
    ensures Decide(commands, cds, i, now, t) in {GuildOnly, Denied} ==> CooldownsAfter(commands, cds, i, now) == cds
    ensures Decide(commands, cds, i, now, t).OnCooldown? ==> CooldownsAfter(commands, cds, i, now) == cds
  {
  }

  /**
   * For a command that passes the permission check, the call is refused on cooldown exactly when
   * a timestamp `t` is stored for (command, user) and `now < t + cooldown`.
   */
  lemma CooldownExactly(commands: map<string, Command>, cds: Cooldowns, i: Interaction, now: int, th: bool)
    requires i.isChatInput && i.commandName in commands
    requires WellNamed(commands)
    requires commands[i.commandName].permissions.Some? ==>
      i.member.Some? && AnyPermission(i.member.value, commands[i.commandName].permissions.value)
    ensures Decide(commands, cds, i, now, th).OnCooldown? <==>
      i.commandName in cds && i.userId in cds[i.commandName] &&
      now < cds[i.commandName][i.userId] + CooldownMs(commands[i.commandName])
  {
  }

  /** A refusal never reports an expiry beyond one cooldown from now. */
  lemma CooldownWaitBounded(commands: map<string, Command>, cds: Cooldowns, i: Interaction, now: int, th: bool)
    requires WellNamed(commands)
    requires forall n, u :: n in cds && u in cds[n] ==> cds[n][u] <= now
    ensures Decide(commands, cds, i, now, th).OnCooldown? ==>
      now < Decide(commands, cds, i, now, th).expiresAt <= now + CooldownMs(commands[i.commandName])
  {
  }

  /** An accepted call stores `now` before the handler runs, so a throwing handler still starts the cooldown. */
  lemma AcceptedStoresNow(commands: map<string, Command>, cds: Cooldowns, i: Interaction, now: int, th: bool)
    requires WellNamed(commands)
    ensures Decide(commands, cds, i, now, th) in {Ran, HandlerFailed} ==>
      var after := CooldownsAfter(commands, cds, i, now);
      i.commandName in after && i.userId in after[i.commandName] && after[i.commandName][i.userId] == now
    ensures Decide(commands, cds, i, now, th) == HandlerFailed <==> Gate(commands, cds, i, now).None? && th
  {
  }

  /** One command's call touches only that command's timestamps, so it cannot put another command on cooldown. */
  lemma CooldownsArePerCommand(commands: map<string, Command>, cds: Cooldowns, a: Interaction, b: Interaction, now: int, later: int, th: bool)
    requires WellNamed(commands)
    requires a.commandName != b.commandName
    ensures var after := CooldownsAfter(commands, cds, a, now);
      forall n :: n != a.commandName ==> (n in after <==> n in cds) && (n in cds ==> after[n] == cds[n])
    ensures Decide(commands, CooldownsAfter(commands, cds, a, now), b, later, th) == Decide(commands, cds, b, later, th)
  {
    var after := CooldownsAfter(commands, cds, a, now);
    assert Timestamps(after, b.commandName) == Timestamps(cds, b.commandName);
  }

  /** Once a timestamp has expired, dropping it (the `setTimeout` clean-up) changes no later decision. */
  lemma ExpiredEntryIsInvisible(commands: map<string, Command>, cds: Cooldowns, i: Interaction, now: int, th: bool)
    requires WellNamed(commands)
    requires i.commandName in cds && i.userId in cds[i.commandName]
    requires i.commandName in commands && cds[i.commandName][i.userId] + CooldownMs(commands[i.commandName]) <= now
    ensures Decide(commands, cds[i.commandName := cds[i.commandName] - {i.userId}], i, now, th) == Decide(commands, cds, i, now, th)
  {
  }

  /** A second call inside the window is refused and a call once the window has passed gets through. */
  lemma RepeatWithinWindow(commands: map<string, Command>, cds: Cooldowns, i: Interaction, now: int, later: int, th: bool)
    requires WellNamed(commands) && i.isChatInput && i.commandName in commands
    requires Decide(commands, cds, i, now, th) in {Ran, HandlerFailed}
    ensures var after := CooldownsAfter(commands, cds, i, now);
      (now <= later < now + CooldownMs(commands[i.commandName]) ==>
        Decide(commands, after, i, later, th) == OnCooldown(now + CooldownMs(commands[i.commandName]))) &&
      (later >= now + CooldownMs(commands[i.commandName]) ==>
        Decide(commands, after, i, later, th) in {Ran, HandlerFailed})
  {
  }

  // ------------------------------------------------------------------ the bot's registry

  /** The `permissions` and `cooldown` fields the command modules declare. */
  const Registry: map<string, Command> := map[
    "ban" := Command("ban", Some([BanMembers]), Some(5)),
    "kick" := Command("kick", Some([KickMembers]), Some(5)),
    "mute" := Command("mute", Some([ModerateMembers]), Some(5)),
    "warn" := Command("warn", Some([ModerateMembers]), Some(3)),
    "purge" := Command("purge", Some([ManageMessages]), Some(10)),
    "modlogs" := Command("modlogs", Some([ModerateMembers]), Some(5)),
    "giveaway" := Command("giveaway", Some([ManageMessages]), Some(5)),
    "ticket" := Command("ticket", Some([SendMessages]), Some(5)),
    "play" := Command("play", Some([SendMessages]), Some(3)),
    "skip" := Command("skip", Some([SendMessages]), Some(3)),
    "stop" := Command("stop", Some([SendMessages]), Some(5)),
    "queue" := Command("queue", Some([SendMessages]), Some(3)),
    "ping" := Command("ping", Some([SendMessages]), Some(3)),
    "antiraid" := Command("antiraid", None, None),
    "autorole" := Command("autorole", None, None),
    "verify" := Command("verify", None, None),
    "transfer" := Command("transfer", None, None),
    "daily" := Command("daily", None, None),
    "race" := Command("race", None, None),
    "givecredits" := Command("givecredits", None, None),
    "resetstats" := Command("resetstats", None, None),
    "leaderboard" := Command("leaderboard", None, None),
    "stats" := Command("stats", None, None),
    "balance" := Command("balance", None, None)
  ]

  /** `/ban` runs only for members with BanMembers or Administrator. */
  lemma BanGate(cds: Cooldowns, i: Interaction, now: int, th: bool)
    requires i.isChatInput && i.commandName == "ban" && i.member.Some?
    ensures Decide(Registry, cds, i, now, th) in {Ran, HandlerFailed} ==>
      BanMembers in i.member.value.granted || Administrator in i.member.value.granted
  {
    if Decide(Registry, cds, i, now, th) in {Ran, HandlerFailed} {
      var ps := Registry["ban"].permissions.value;
      assert ps == [BanMembers];
      var k :| 0 <= k < |ps| && HasPermission(i.member.value, ps[k]);
    }
  }

  /**
   * The configuration and economy commands declare no list, so this gate lets every user
   * through to them (only the platform's default member permissions stand in front of the
   * configuration ones).
   */
  lemma UndeclaredCommandsOpen(cds: Cooldowns, i: Interaction, now: int, th: bool)
    requires i.isChatInput && i.commandName in {"antiraid", "givecredits", "resetstats"}
    ensures Decide(Registry, cds, i, now, th) != Denied && Decide(Registry, cds, i, now, th) != GuildOnly
  {
  }

  /** A second `/purge` within its ten-second cooldown does not run. */
  lemma PurgeCooldown(cds: Cooldowns, i: Interaction, now: int, th: bool)
    requires i.isChatInput && i.commandName == "purge"
    requires i.userId in Timestamps(cds, "purge") && now < Timestamps(cds, "purge")[i.userId] + 10000
    ensures Decide(Registry, cds, i, now, th) !in {Ran, HandlerFailed}
  {
  }
}
