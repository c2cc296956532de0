/** Member permission checks and the moderation hierarchy (the `PermissionUtils` helpers). */
module Permissions {
  import opened Common

  /** The permission flags the bot inspects. */
  datatype Permission =
    | Administrator
    | ModerateMembers
    | BanMembers
    | KickMembers
    | ManageMessages
    | ManageChannels
    | ManageRoles
    | SendMessages
    | EmbedLinks

  /** What the bot sees of a guild member: id, cached role ids, granted flags and highest role position. */
  datatype Member = Member(id: Id, roles: set<Id>, granted: set<Permission>, highestPosition: int)

  /** The role ids and developer id read from the bot's configuration file. */
  datatype Config = Config(moderatorRole: Id, adminRole: Id, ownerRole: Id, developerId: Id)

  /** `permissions.has(p)` on a permission set: the platform answers yes for every flag to an Administrator. */
  predicate Grants(granted: set<Permission>, p: Permission) {
    Administrator in granted || p in granted
  }

  /** `member.permissions.has(p)`. */
  predicate HasPermission(m: Member, p: Permission) {
    Grants(m.granted, p)
  }

  predicate IsModerator(cfg: Config, m: Member) {
    cfg.moderatorRole in m.roles || HasPermission(m, ModerateMembers)
  }

  predicate IsAdmin(cfg: Config, m: Member) {
    cfg.adminRole in m.roles || HasPermission(m, Administrator)
  }

  predicate IsOwner(cfg: Config, m: Member) {
    cfg.ownerRole in m.roles || m.id == cfg.developerId
  }

  /** May `m` act on `target` in a guild owned by `guildOwner`? Guards are checked in source order. */
  predicate CanModerate(cfg: Config, m: Member, target: Member, guildOwner: Id) {
    if m.id == target.id then false
    else if target.id == guildOwner then false
    else if m.highestPosition <= target.highestPosition then false
    else IsModerator(cfg, m)
  }

  /** The whole truth table of `CanModerate`, both directions. */
  lemma CanModerateExactly(cfg: Config, m: Member, target: Member, guildOwner: Id)
    ensures CanModerate(cfg, m, target, guildOwner) <==>
      m.id != target.id && target.id != guildOwner &&
      m.highestPosition > target.highestPosition &&
      (cfg.moderatorRole in m.roles || ModerateMembers in m.granted || Administrator in m.granted)
  {
  }

  /** Nobody can moderate themselves, nor the guild owner. */
  lemma CanModerateExcludes(cfg: Config, m: Member, target: Member, guildOwner: Id)
    ensures !CanModerate(cfg, m, m, guildOwner)
    ensures target.id == guildOwner ==> !CanModerate(cfg, m, target, guildOwner)
  {
  }

  /** The hierarchy is strict: two members can never moderate each other. */
  lemma CanModerateAntisymmetric(cfg: Config, a: Member, b: Member, guildOwner: Id)
    ensures CanModerate(cfg, a, b, guildOwner) ==> !CanModerate(cfg, b, a, guildOwner)
  {
  }

  /** Because of the Administrator override, every administrator counts as a moderator. */
  lemma AdministratorIsModerator(cfg: Config, m: Member)
    requires HasPermission(m, Administrator)
    ensures IsModerator(cfg, m) && IsAdmin(cfg, m)
    ensures forall p :: HasPermission(m, p)
  {
  }

  /**
   * The admin check asks for the admin role or Administrator, the owner check for the owner role
   * or the developer's id; neither involves the other, so the owner role alone does not make an admin.
   */
  lemma AdminAndOwnerChecks(cfg: Config, m: Member)
    ensures IsAdmin(cfg, m) <==> cfg.adminRole in m.roles || Administrator in m.granted
    ensures IsOwner(cfg, m) <==> cfg.ownerRole in m.roles || m.id == cfg.developerId
    ensures m.id == cfg.developerId ==> IsOwner(cfg, m)
  {
  }

  /** The fixed command-to-permission table of `getRequiredPermissions`. */
  const RequiredTable: map<string, Permission> := map[
    "ban" := BanMembers,
    "kick" := KickMembers,
    "mute" := ModerateMembers,
    "warn" := ModerateMembers,
    "purge" := ManageMessages,
    "announce" := ManageMessages,
    "ticket" := ManageChannels
  ]

  function GetRequiredPermissions(commandName: string): (p: Permission)
    ensures p != SendMessages <==>
      commandName in {"ban", "kick", "mute", "warn", "purge", "announce", "ticket"}
    ensures commandName == "ban" ==> p == BanMembers
    ensures commandName == "kick" ==> p == KickMembers
    ensures commandName == "ticket" ==> p == ManageChannels
    ensures commandName in {"mute", "warn"} ==> p == ModerateMembers
    ensures commandName in {"purge", "announce"} ==> p == ManageMessages
  {
    if commandName in RequiredTable then RequiredTable[commandName] else SendMessages
  }
}
