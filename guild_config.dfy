/**
 * The `/antiraid`, `/autorole` and `/verify` commands and the verify button. Every write goes
 * through `updateGuildSettings`, an `INSERT OR REPLACE`: a command stores only the fields it
 * passes and resets every other field of the guild's row to its default.
 */
module GuildConfig {
  import opened Common
  import opened Permissions
  import opened Store

  /** A cached guild role: its id and its position in the guild's role list. */
  datatype Role = Role(id: Id, position: int)

  /** The bot can hand out a role only when it sits strictly below the bot's highest role. */
  predicate BelowBot(role: Role, botHighest: int) {
    role.position < botHighest
  }

  /** `value || null`: a configured id is one that is present and non-empty. */
  predicate IsSet(id: Option<Id>) {
    Truthy(id).Some?
  }

  // ---------------------------------------------------------------- /antiraid

  /** The `threshold` option: an integer 3..20 when given. */
  predicate ThresholdOption(threshold: Option<int>) {
    threshold.Some? ==> 3 <= threshold.value <= 20
  }

  /** The `timeframe` option, in seconds: an integer 10..300 when given. */
  predicate TimeframeOption(timeframe: Option<int>) {
    timeframe.Some? ==> 10 <= timeframe.value <= 300
  }

  /** `getInteger('threshold') || 5`. */
  function EnableThreshold(threshold: Option<int>): (t: int)
    requires ThresholdOption(threshold)
    ensures 3 <= t <= 20
    ensures t == threshold.GetOr(5)
  {
    if TruthyInt(threshold) then threshold.value else 5
  }

  /** `(getInteger('timeframe') || 60) * 1000`: the window in milliseconds. */
  function EnableTimeframe(timeframe: Option<int>): (ms: int)
    requires TimeframeOption(timeframe)
    ensures 10000 <= ms <= 300000 && ms % 1000 == 0
    ensures ms == timeframe.GetOr(60) * 1000
  {
    (if TruthyInt(timeframe) then timeframe.value else 60) * 1000
  }

  /** The object `/antiraid enable` passes to `updateGuildSettings`. */
  function EnablePatch(threshold: Option<int>, timeframe: Option<int>): SettingsPatch
    requires ThresholdOption(threshold) && TimeframeOption(timeframe)
  {
    NoSettings.(antiRaidEnabled := Some(true),
                antiRaidThreshold := Some(EnableThreshold(threshold)),
                antiRaidTimeframe := Some(EnableTimeframe(timeframe)))
  }

  /** The object `/antiraid disable` passes. */
  const DisablePatch := NoSettings.(antiRaidEnabled := Some(false))

  /** Enabling keeps only the anti-raid fields; auto-role, verification and log channel are cleared. */
  lemma EnableRow(guildId: Id, threshold: Option<int>, timeframe: Option<int>, now: int)
    requires ThresholdOption(threshold) && TimeframeOption(timeframe)
    ensures SettingsFromPatch(guildId, EnablePatch(threshold, timeframe), now) ==
      SettingsRow(guildId, [], None, None, None, true, threshold.GetOr(5), timeframe.GetOr(60) * 1000, None, 0, now)
  {
  }

  /** Disabling stores the all-defaults row: threshold 5, timeframe 60000 ms, no auto-role. */
  lemma DisableRow(guildId: Id, now: int)
    ensures SettingsFromPatch(guildId, DisablePatch, now) ==
      SettingsRow(guildId, [], None, None, None, false, 5, 60000, None, 0, now)
  {
  }

  datatype AntiRaidStatus = AntiRaidDisabled | AntiRaidEnabled(threshold: int, seconds: real)

  /** `/antiraid status`: disabled without a row or with the flag off, else threshold and `timeframe / 1000`. */
  function AntiRaidStatusOf(settings: Option<SettingsRow>): (s: AntiRaidStatus)
    ensures s.AntiRaidDisabled? <==> settings.None? || !settings.value.antiRaidEnabled
    ensures s.AntiRaidEnabled? ==> s.threshold == settings.value.antiRaidThreshold
    ensures s.AntiRaidEnabled? ==> s.seconds * 1000.0 == settings.value.antiRaidTimeframe as real
  {
    if settings.None? || !settings.value.antiRaidEnabled then AntiRaidDisabled
    else AntiRaidEnabled(settings.value.antiRaidThreshold, settings.value.antiRaidTimeframe as real / 1000.0)
  }

  /** Status after enable shows back the chosen (or default) threshold and seconds. */
  lemma EnableThenStatus(guildId: Id, threshold: Option<int>, timeframe: Option<int>, now: int)
    requires ThresholdOption(threshold) && TimeframeOption(timeframe)
    ensures AntiRaidStatusOf(Some(SettingsFromPatch(guildId, EnablePatch(threshold, timeframe), now))) ==
      AntiRaidEnabled(threshold.GetOr(5), timeframe.GetOr(60) as real)
  {
    EnableRow(guildId, threshold, timeframe, now);
    var ms := timeframe.GetOr(60) * 1000;
    assert ms as real / 1000.0 == timeframe.GetOr(60) as real;
  }

  /**
   * `/antiraid enable`: writes the flag with the two values and replies with them; the
   * reply's seconds are `timeframe / 1000` of the stored milliseconds.
   */
  method AntiRaidEnable(db: Database, guildId: Id, threshold: Option<int>, timeframe: Option<int>, now: int)
    returns (shownThreshold: int, shownSeconds: real)
    requires db.Valid()
    requires ThresholdOption(threshold) && TimeframeOption(timeframe)
    modifies db`settings
    ensures db.Valid()
    ensures db.settings == old(db.settings)[guildId := SettingsFromPatch(guildId, EnablePatch(threshold, timeframe), now)]
    ensures shownThreshold == threshold.GetOr(5) && shownSeconds == timeframe.GetOr(60) as real
  {
    var t := EnableThreshold(threshold);
    var ms := EnableTimeframe(timeframe);
    db.UpdateGuildSettings(guildId, NoSettings.(antiRaidEnabled := Some(true),
                                                antiRaidThreshold := Some(t), antiRaidTimeframe := Some(ms)), now);
    shownThreshold := t;
    shownSeconds := ms as real / 1000.0;
  }

  /** `/antiraid disable`. */
  method AntiRaidDisable(db: Database, guildId: Id, now: int)
    requires db.Valid()
    modifies db`settings
    ensures db.Valid()
    ensures db.settings == old(db.settings)[guildId := SettingsFromPatch(guildId, DisablePatch, now)]
  {
    db.UpdateGuildSettings(guildId, DisablePatch, now);
  }

  // ---------------------------------------------------------------- /autorole

  datatype AutoRoleSetOutcome = AutoRoleTooHigh | AutoRoleSet(roleId: Id)

  /** The object `/autorole set` passes. */
  function AutoRolePatch(roleId: Id): SettingsPatch {
    NoSettings.(autoRoleId := Some(roleId))
  }

  /** `auto_role_id: null` is falsy exactly like a left-out property. */
  const AutoRoleRemovePatch := NoSettings.(autoRoleId := None)

  /** `/autorole set`: a role at or above the bot's highest role is refused and nothing is written. */
  method AutoRoleSetCommand(db: Database, guildId: Id, role: Role, botHighest: int, now: int)
    returns (o: AutoRoleSetOutcome)
    requires db.Valid()
    modifies db`settings
    ensures db.Valid()
    ensures o == AutoRoleTooHigh <==> !BelowBot(role, botHighest)
    ensures o == AutoRoleTooHigh ==> db.settings == old(db.settings)
    ensures o != AutoRoleTooHigh ==>
      o == AutoRoleSet(role.id) &&
      db.settings == old(db.settings)[guildId := SettingsFromPatch(guildId, AutoRolePatch(role.id), now)]
  {
    if role.position >= botHighest {
      return AutoRoleTooHigh;
    }
    db.UpdateGuildSettings(guildId, AutoRolePatch(role.id), now);
    o := AutoRoleSet(role.id);
  }

  /** `/autorole remove`. */
  method AutoRoleRemove(db: Database, guildId: Id, now: int)
    requires db.Valid()
    modifies db`settings
    ensures db.Valid()
    ensures db.settings == old(db.settings)[guildId := SettingsFromPatch(guildId, AutoRoleRemovePatch, now)]
  {
    db.UpdateGuildSettings(guildId, AutoRoleRemovePatch, now);
  }

  /** Setting the auto-role turns anti-raid off and clears the verification pair. */
  lemma AutoRoleRow(guildId: Id, roleId: Id, now: int)
    requires roleId != ""
    ensures SettingsFromPatch(guildId, AutoRolePatch(roleId), now) ==
      SettingsRow(guildId, [], Some(roleId), None, None, false, 5, 60000, None, 0, now)
  {
  }

  datatype AutoRoleStatus = NoAutoRole | AutoRoleShown(role: Role) | AutoRoleNotFound

  /** `/autorole status` against the guild's role cache. */
  function AutoRoleStatusOf(settings: Option<SettingsRow>, roles: map<Id, Role>): (s: AutoRoleStatus)
    ensures s == NoAutoRole <==> settings.None? || !IsSet(settings.value.autoRoleId)
    ensures s == AutoRoleNotFound <==>
      settings.Some? && IsSet(settings.value.autoRoleId) && settings.value.autoRoleId.value !in roles
    ensures s.AutoRoleShown? ==>
      settings.Some? && settings.value.autoRoleId.Some? && settings.value.autoRoleId.value in roles &&
      s.role == roles[settings.value.autoRoleId.value]
  {
    if settings.None? || !IsSet(settings.value.autoRoleId) then NoAutoRole
    else if settings.value.autoRoleId.value in roles then AutoRoleShown(roles[settings.value.autoRoleId.value])
    else AutoRoleNotFound
  }

  // ---------------------------------------------------------------- /verify

  datatype VerifySetupOutcome =
    | MissingChannelPermissions
    | VerifyRoleTooHigh
    | VerifySetUp
    | VerifyAnnounceFailed

  /** `channel.permissionsFor(me).has(['SendMessages', 'EmbedLinks'])`. */
  predicate CanAnnounce(botChannelPermissions: set<Permission>) {
    Grants(botChannelPermissions, SendMessages) && Grants(botChannelPermissions, EmbedLinks)
  }

  /** The object `/verify setup` passes. */
  function VerifyPatch(channelId: Id, roleId: Id): SettingsPatch {
    NoSettings.(verifyChannelId := Some(channelId), verifyRoleId := Some(roleId))
  }

  /** `/verify remove` nulls both ids. */
  const VerifyRemovePatch := NoSettings.(verifyChannelId := None, verifyRoleId := None)

  /**
   * `/verify setup`: the channel permission check and then the role position check, both
   * before any write; then both ids are stored and the verify message is posted (which may fail,
   * after the write, giving the generic error reply).
   */
  method VerifySetup(db: Database, guildId: Id, channelId: Id, botChannelPermissions: set<Permission>,
                     role: Role, botHighest: int, announceFails: bool, now: int)
    returns (o: VerifySetupOutcome)
    requires db.Valid()
    modifies db`settings
    ensures db.Valid()
    ensures o == MissingChannelPermissions <==> !CanAnnounce(botChannelPermissions)
    ensures o == VerifyRoleTooHigh <==> CanAnnounce(botChannelPermissions) && !BelowBot(role, botHighest)
    ensures o == VerifyAnnounceFailed <==>
      CanAnnounce(botChannelPermissions) && BelowBot(role, botHighest) && announceFails
    ensures o in {MissingChannelPermissions, VerifyRoleTooHigh} ==> db.settings == old(db.settings)
    ensures o in {VerifySetUp, VerifyAnnounceFailed} ==>
      db.settings == old(db.settings)[guildId := SettingsFromPatch(guildId, VerifyPatch(channelId, role.id), now)]
  {
    if !CanAnnounce(botChannelPermissions) {
      return MissingChannelPermissions;
    }
    if role.position >= botHighest {
      return VerifyRoleTooHigh;
    }
    db.UpdateGuildSettings(guildId, VerifyPatch(channelId, role.id), now);
    if announceFails {
      return VerifyAnnounceFailed;
    }
    o := VerifySetUp;
  }

  /** `/verify remove`. */
  method VerifyRemove(db: Database, guildId: Id, now: int)
    requires db.Valid()
    modifies db`settings
    ensures db.Valid()
    ensures db.settings == old(db.settings)[guildId := SettingsFromPatch(guildId, VerifyRemovePatch, now)]
  {
    db.UpdateGuildSettings(guildId, VerifyRemovePatch, now);
  }

  datatype VerifyStatus = VerifyNotSetUp | VerifyActive(channelFound: bool, roleFound: bool)

  /** `/verify status`: "not set up" unless both ids are set, else whether each resolves in the cache. */
  function VerifyStatusOf(settings: Option<SettingsRow>, channels: set<Id>, roles: map<Id, Role>): (s: VerifyStatus)
    ensures s == VerifyNotSetUp <==>
      settings.None? || !IsSet(settings.value.verifyChannelId) || !IsSet(settings.value.verifyRoleId)
    ensures s.VerifyActive? ==> (s.channelFound <==> settings.value.verifyChannelId.value in channels)
    ensures s.VerifyActive? ==> (s.roleFound <==> settings.value.verifyRoleId.value in roles)
  {
    if settings.None? || !IsSet(settings.value.verifyChannelId) || !IsSet(settings.value.verifyRoleId) then
      VerifyNotSetUp
    else
      VerifyActive(settings.value.verifyChannelId.value in channels, settings.value.verifyRoleId.value in roles)
  }

  // ---------------------------------------------------------------- how the commands interact

  /** Disabling anti-raid, removing the auto-role and removing verification all store the same defaults row. */
  lemma RemovalsCoincide(guildId: Id, now: int)
    ensures SettingsFromPatch(guildId, DisablePatch, now) == SettingsFromPatch(guildId, AutoRoleRemovePatch, now)
    ensures SettingsFromPatch(guildId, AutoRoleRemovePatch, now) == SettingsFromPatch(guildId, VerifyRemovePatch, now)
    ensures SettingsFromPatch(guildId, VerifyRemovePatch, now) == SettingsFromPatch(guildId, NoSettings, now)
  {
  }

  /** Each configuration command erases what the other two stored. */
  lemma CommandsOverwriteEachOther(guildId: Id, channelId: Id, roleId: Id, otherRoleId: Id,
                                   threshold: Option<int>, timeframe: Option<int>, channels: set<Id>,
                                   roles: map<Id, Role>, now: int)
    requires ThresholdOption(threshold) && TimeframeOption(timeframe)
    requires channelId != "" && roleId != "" && otherRoleId != ""
    ensures var r := Some(SettingsFromPatch(guildId, AutoRolePatch(roleId), now));
      AntiRaidStatusOf(r) == AntiRaidDisabled && VerifyStatusOf(r, channels, roles) == VerifyNotSetUp
    ensures var r := Some(SettingsFromPatch(guildId, VerifyPatch(channelId, otherRoleId), now));
      AntiRaidStatusOf(r) == AntiRaidDisabled && AutoRoleStatusOf(r, roles) == NoAutoRole
    ensures var r := Some(SettingsFromPatch(guildId, EnablePatch(threshold, timeframe), now));
      AutoRoleStatusOf(r, roles) == NoAutoRole && VerifyStatusOf(r, channels, roles) == VerifyNotSetUp
  {
    AutoRoleRow(guildId, roleId, now);
    EnableRow(guildId, threshold, timeframe, now);
  }

  /** Status after setup is active, reporting whether the stored channel and role resolve. */
  lemma SetupThenStatus(guildId: Id, channelId: Id, roleId: Id, channels: set<Id>, roles: map<Id, Role>, now: int)
    requires channelId != "" && roleId != ""
    ensures VerifyStatusOf(Some(SettingsFromPatch(guildId, VerifyPatch(channelId, roleId), now)), channels, roles) ==
      VerifyActive(channelId in channels, roleId in roles)
  {
  }

  // ---------------------------------------------------------------- the verify button

  datatype VerifyButtonOutcome =
    | VerificationNotSetUp
    | AlreadyVerified
    | VerificationRoleNotFound
    | VerificationFailed
    | VerificationSucceeded

  /** The verify button's replies in the order its guards run; `roleAddFails` is the platform's answer. */
  function VerifyButtonReply(settings: Option<SettingsRow>, verified: bool, roles: map<Id, Role>,
                             roleAddFails: bool): (o: VerifyButtonOutcome)
    ensures o == VerificationNotSetUp <==> settings.None? || !IsSet(settings.value.verifyRoleId)
    ensures o == AlreadyVerified <==> settings.Some? && IsSet(settings.value.verifyRoleId) && verified
    ensures o == VerificationRoleNotFound <==>
      settings.Some? && IsSet(settings.value.verifyRoleId) && !verified && settings.value.verifyRoleId.value !in roles
    ensures o in {VerificationFailed, VerificationSucceeded} ==>
      settings.Some? && IsSet(settings.value.verifyRoleId) && !verified && settings.value.verifyRoleId.value in roles
    ensures o == VerificationSucceeded ==> !roleAddFails
    ensures o == VerificationFailed ==> roleAddFails
  {
    if settings.None? || !IsSet(settings.value.verifyRoleId) then VerificationNotSetUp
    else if verified then AlreadyVerified
    else if settings.value.verifyRoleId.value !in roles then VerificationRoleNotFound
    else if roleAddFails then VerificationFailed
    else VerificationSucceeded
  }

  /**
   * The verify button: the guards, then the role is added and only then is the user marked
   * verified; a failed role grant leaves the table as it was.
   */
  method VerifyButton(db: Database, guildId: Id, userId: Id, roles: map<Id, Role>, roleAddFails: bool, now: int)
    returns (o: VerifyButtonOutcome)
    requires db.Valid()
    modifies db`verifications
    ensures db.Valid()
    ensures o == VerifyButtonReply(GetGuildSettings(db.settings, guildId),
                                   IsUserVerified(old(db.verifications), userId, guildId), roles, roleAddFails)
    ensures o == VerificationSucceeded ==> db.verifications == MarkVerified(old(db.verifications), userId, guildId, now)
    ensures o != VerificationSucceeded ==> db.verifications == old(db.verifications)
  {
    var settings := GetGuildSettings(db.settings, guildId);
    if settings.None? || !IsSet(settings.value.verifyRoleId) {
      return VerificationNotSetUp;
    }
    if IsUserVerified(db.verifications, userId, guildId) {
      return AlreadyVerified;
    }
    if settings.value.verifyRoleId.value !in roles {
      return VerificationRoleNotFound;
    }
    if roleAddFails {
      return VerificationFailed;
    }
    db.VerifyUser(userId, guildId, now);
    o := VerificationSucceeded;
  }

  /**
   * No handler creates verification rows, so a user without one is still unverified after a
   * successful press: pressing again is not refused as "already verified".
   */
  lemma VerifiedOnlyWithExistingRow(rows: seq<VerificationRow>, userId: Id, guildId: Id, now: int)
    requires !HasRowFor(rows, userId, guildId)
    ensures !IsUserVerified(MarkVerified(rows, userId, guildId, now), userId, guildId)
    ensures MarkVerified(rows, userId, guildId, now) == rows
  {
    MarkVerifiedRecords(rows, userId, guildId, now);
    var r := MarkVerified(rows, userId, guildId, now);
    assert forall i :: 0 <= i < |r| ==> r[i] == rows[i];
  }
}
