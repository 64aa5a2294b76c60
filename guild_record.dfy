/** The guild configuration record of src/guild.js as a value: its schema
    defaults, its two validators, and what each mutator of the `Guild` class
    does to the record, with the validation failures as `Failure` results.
    The class in module Guilds performs these same updates in place. */
module GuildRecord {
  import opened JsValues
  import MongooseArray

  const DefaultPrefix: string := "$l."
  const DefaultJoinMessages: seq<Value> := [Str("%USER_MENTION% have joined!")]
  const DefaultLeaveMessages: seq<Value> := [
    Str("%USER% have left!"),
    Str("After time adrift among open stars. Along tides of light and through shoals of dust. %USER% returned to where they began.")
  ]
  const DefaultLevellingEnabled: bool := true

  /** The role and channel keys the module exports; the setters do not check them. */
  const Roles: set<string> := {"muted", "cooldown", "timeout"}
  const Channels: set<string> := {"transparency", "join_leave"}

  /** The reserved keys of the settings bag. */
  const JoinMessagesKey: string := "join_messages"
  const LeaveMessagesKey: string := "leave_messages"
  const LevellingEnabledKey: string := "levelling_enabled"

  /** A command prefix is a string of 1 to 10 characters; the default
      prefix is one. */
  predicate ValidatePrefix(prefix: Value): (ok: bool)
    ensures ok ==> prefix.Str? && prefix.s != []
    ensures prefix == Str(DefaultPrefix) ==> ok
  {
    prefix.Str? && |prefix.s| <= 10 && |prefix.s| >= 1
  }

  /** A guild name is a string of 2 to 100 characters; every name is also
      long enough to be a prefix. */
  predicate ValidateName(name: Value): (ok: bool)
    ensures ok ==> name.Str? && |name.s| > 1
    ensures ok && |name.s| <= 10 ==> ValidatePrefix(name)
  {
    name.Str? && |name.s| <= 100 && |name.s| >= 2
  }

  /** One guild document. `settings` is an open bag: the three reserved keys
      plus whatever `setSetting` stores. */
  datatype GuildState = GuildState(
    discordId: int,
    name: string,
    cmdPrefix: string,
    channels: map<string, Value>,
    roles: map<string, Value>,
    settings: map<string, Value>)

  /** Why a call was rejected; nothing is changed or saved on a rejection. */
  datatype GuildError =
    | MissingDiscordId
    | InvalidName
    | InvalidPrefix
    | InvalidAction
    | LevellingNotBoolean
      /** the message list under `key` is missing or not an array, so
          `push`/`pull` on it throws a TypeError */
    | NotAnArray(key: string)

  /** The message each mutator throws with. */
  function ErrorMessage(e: GuildError): (r: string)
    ensures e == InvalidName ==> r == "Invalid name"
    ensures e == InvalidPrefix ==> r == "Invalid Prefix"
    ensures e == InvalidAction ==> r == "The action have to be either join or leave"
    ensures e == LevellingNotBoolean ==> r == "Levelling has to be a boolean"
  {
    match e
    case MissingDiscordId => "discord_id is required"
    case InvalidName => "Invalid name"
    case InvalidPrefix => "Invalid Prefix"
    case InvalidAction => "The action have to be either join or leave"
    case LevellingNotBoolean => "Levelling has to be a boolean"
    case NotAnArray(key) => "settings." + key + " is not an array"
  }

  /** The constraints the validators put on the record: they hold of every
      created record and every mutator keeps them. */
  ghost predicate Invariant(g: GuildState) {
    ValidateName(Str(g.name)) && ValidatePrefix(Str(g.cmdPrefix))
  }

  /** The reserved settings have the types the schema gives them. */
  ghost predicate SettingsTyped(settings: map<string, Value>) {
    && JoinMessagesKey in settings && settings[JoinMessagesKey].Arr?
    && LeaveMessagesKey in settings && settings[LeaveMessagesKey].Arr?
    && LevellingEnabledKey in settings && settings[LevellingEnabledKey].Bool?
  }

  /** The record satisfies the whole schema. */
  ghost predicate Conforms(g: GuildState) {
    Invariant(g) && SettingsTyped(g.settings)
  }

  /** `create({discord_id, name, cmd_prefix, settings: {levelling_enabled}})`:
      the schema's validators and defaults applied to a new document. An
      omitted field is `Undefined`; `discord_id` is required and a number. */
  function Create(discordId: Value, name: Value, cmdPrefix: Value, levellingEnabled: Value)
    : (r: Result<GuildState, GuildError>)
    ensures r.Success? <==>
      && discordId.Num?
      && ValidateName(name)
      && (cmdPrefix == Undefined || ValidatePrefix(cmdPrefix))
      && (levellingEnabled == Undefined || levellingEnabled.Bool?)
    ensures r.Success? ==>
      && Conforms(r.value)
      && r.value.discordId == discordId.n
      && r.value.name == name.s
      && r.value.cmdPrefix == (if cmdPrefix == Undefined then DefaultPrefix else cmdPrefix.s)
      && r.value.channels == map[]
      && r.value.roles == map[]
      && r.value.settings == map[
           JoinMessagesKey := Arr(DefaultJoinMessages),
           LeaveMessagesKey := Arr(DefaultLeaveMessages),
           LevellingEnabledKey :=
             if levellingEnabled == Undefined then Bool(DefaultLevellingEnabled) else levellingEnabled]
    ensures r.Failure? ==> r.error in {MissingDiscordId, InvalidName, InvalidPrefix, LevellingNotBoolean}
    ensures !discordId.Num? ==> r == Failure(MissingDiscordId)
  {
    var prefix := if cmdPrefix == Undefined then Str(DefaultPrefix) else cmdPrefix;
    var levelling := if levellingEnabled == Undefined then Bool(DefaultLevellingEnabled) else levellingEnabled;
    if !discordId.Num? then Failure(MissingDiscordId)
    else if !ValidateName(name) then Failure(InvalidName)
    else if !ValidatePrefix(prefix) then Failure(InvalidPrefix)
    else if !levelling.Bool? then Failure(LevellingNotBoolean)
    else
      Success(GuildState(
        discordId.n, name.s, prefix.s, map[], map[],
        map[JoinMessagesKey := Arr(DefaultJoinMessages),
            LeaveMessagesKey := Arr(DefaultLeaveMessages),
            LevellingEnabledKey := levelling]))
  }

  /** `setName(name)` */
  function SetName(g: GuildState, name: Value): (r: Result<GuildState, GuildError>)
    ensures r.Success? <==> name.Str? && 2 <= |name.s| <= 100
    ensures r.Failure? ==> r.error == InvalidName
    ensures r.Success? ==> r.value.name == name.s && r.value.(name := g.name) == g
  {
    if !ValidateName(name) then Failure(InvalidName)
    else Success(g.(name := name.s))
  }

  /** The two actions the message methods accept, compared strictly: no
      value other than those two strings passes. */
  predicate IsAction(action: Value): (ok: bool)
    ensures ok ==> action.Str? && |action.s| in {4, 5}
    ensures ok ==> (MessagesKey(action) == LeaveMessagesKey <==> action.s == "leave")
  {
    action == Str("join") || action == Str("leave")
  }

  /** The settings key of the list an action works on. */
  function MessagesKey(action: Value): string {
    if action == Str("leave") then LeaveMessagesKey else JoinMessagesKey
  }

  /** The message list stored under `key`, if there is an array there. */
  function MessagesOf(settings: map<string, Value>, key: string): Option<seq<Value>> {
    if key in settings && settings[key].Arr? then Some(settings[key].elems) else None
  }

  /** `addJoinLeaveMessage(action, message)`: `push` onto the chosen list. */
  function AddJoinLeaveMessage(g: GuildState, action: Value, message: Value)
    : (r: Result<GuildState, GuildError>)
    ensures !IsAction(action) ==> r == Failure(InvalidAction)
    ensures IsAction(action) ==>
      match MessagesOf(g.settings, MessagesKey(action))
      case None => r == Failure(NotAnArray(MessagesKey(action)))
      case Some(xs) =>
        && r.Success?
        && MessagesOf(r.value.settings, MessagesKey(action)) == Some(xs + [message])
        && r.value.settings - {MessagesKey(action)} == g.settings - {MessagesKey(action)}
        && r.value.(settings := g.settings) == g
  {
    if !IsAction(action) then Failure(InvalidAction)
    else
      var key := MessagesKey(action);
      match MessagesOf(g.settings, key)
      case None => Failure(NotAnArray(key))
      case Some(xs) => Success(g.(settings := g.settings[key := Arr(xs + [message])]))
  }

  /** `removeJoinLeaveMessage(action, message)`: `pull` from the chosen list. */
  function RemoveJoinLeaveMessage(g: GuildState, action: Value, message: Value)
    : (r: Result<GuildState, GuildError>)
    ensures !IsAction(action) ==> r == Failure(InvalidAction)
    ensures IsAction(action) ==>
      match MessagesOf(g.settings, MessagesKey(action))
      case None => r == Failure(NotAnArray(MessagesKey(action)))
      case Some(xs) =>
        && r.Success?
        && MessagesOf(r.value.settings, MessagesKey(action)) == Some(MongooseArray.Pull(xs, message))
        && r.value.settings - {MessagesKey(action)} == g.settings - {MessagesKey(action)}
        && r.value.(settings := g.settings) == g
  {
    if !IsAction(action) then Failure(InvalidAction)
    else
      var key := MessagesKey(action);
      match MessagesOf(g.settings, key)
      case None => Failure(NotAnArray(key))
      case Some(xs) => Success(g.(settings := g.settings[key := Arr(MongooseArray.Pull(xs, message))]))
  }

  /** `setRole(role, role_id)`: any key is accepted, not only those in `Roles`. */
  function SetRole(g: GuildState, role: string, roleId: Value): (r: Result<GuildState, GuildError>)
    ensures r.Success?
    ensures role in r.value.roles && r.value.roles[role] == roleId
    ensures r.value.roles - {role} == g.roles - {role}
    ensures r.value.(roles := g.roles) == g
  {
    Success(g.(roles := g.roles[role := roleId]))
  }

  /** `setChannel(channel, channel_id)`: any key is accepted, not only those in `Channels`. */
  function SetChannel(g: GuildState, channel: string, channelId: Value): (r: Result<GuildState, GuildError>)
    ensures r.Success?
    ensures channel in r.value.channels && r.value.channels[channel] == channelId
    ensures r.value.channels - {channel} == g.channels - {channel}
    ensures r.value.(channels := g.channels) == g
  {
    Success(g.(channels := g.channels[channel := channelId]))
  }

  /** `setPrefix(prefix = DEFAULT_PREFIX)`: an omitted (undefined) prefix is
      replaced by the default before validation. */
  function SetPrefix(g: GuildState, prefix: Value): (r: Result<GuildState, GuildError>)
    ensures r.Success? <==> prefix == Undefined || (prefix.Str? && 1 <= |prefix.s| <= 10)
    ensures r.Failure? ==> r.error == InvalidPrefix
    ensures prefix == Undefined ==> r == Success(g.(cmdPrefix := DefaultPrefix))
    ensures r.Success? && prefix != Undefined ==> r.value == g.(cmdPrefix := prefix.s)
  {
    var p := if prefix == Undefined then Str(DefaultPrefix) else prefix;
    if !ValidatePrefix(p) then Failure(InvalidPrefix)
    else Success(g.(cmdPrefix := p.s))
  }

  /** `setSetting(setting, value)`: no check on the key or the value. */
  function SetSetting(g: GuildState, setting: string, value: Value): (r: Result<GuildState, GuildError>)
    ensures r.Success?
    ensures setting in r.value.settings && r.value.settings[setting] == value
    ensures r.value.settings - {setting} == g.settings - {setting}
    ensures r.value.(settings := g.settings) == g
  {
    Success(g.(settings := g.settings[setting := value]))
  }

  /** `setLevelling(levelling)`: only `true` and `false` pass, and then it is
      `setSetting('levelling_enabled', levelling)`. */
  function SetLevelling(g: GuildState, levelling: Value): (r: Result<GuildState, GuildError>)
    ensures r.Success? <==> levelling.Bool?
    ensures r.Failure? ==> r.error == LevellingNotBoolean
    ensures r.Success? ==>
      && LevellingEnabledKey in r.value.settings
      && r.value.settings[LevellingEnabledKey] == levelling
      && r.value.settings - {LevellingEnabledKey} == g.settings - {LevellingEnabledKey}
      && r.value.(settings := g.settings) == g
  {
    if levelling != Bool(true) && levelling != Bool(false) then Failure(LevellingNotBoolean)
    else SetSetting(g, LevellingEnabledKey, levelling)
  }

  /** `enableLevelling()` */
  function EnableLevelling(g: GuildState): (r: Result<GuildState, GuildError>)
    ensures r.Success?
    ensures r.value.settings == g.settings[LevellingEnabledKey := Bool(true)]
    ensures r.value.(settings := g.settings) == g
  {
    SetLevelling(g, Bool(true))
  }

  /** `disableLevelling()` */
  function DisableLevelling(g: GuildState): (r: Result<GuildState, GuildError>)
    ensures r.Success?
    ensures r.value.settings == g.settings[LevellingEnabledKey := Bool(false)]
    ensures r.value.(settings := g.settings) == g
  {
    SetLevelling(g, Bool(false))
  }

  /** `findByDiscordID(discord_id)` over the stored documents, in the store's
      natural order: the first document with that id, if any. */
  function FindByDiscordId(store: seq<GuildState>, discordId: int): (r: Option<GuildState>)
    ensures r.None? <==> forall i :: 0 <= i < |store| ==> store[i].discordId != discordId
    ensures r.Some? ==> exists i :: FirstWithId(store, discordId, i) && store[i] == r.value
  {
    match FirstIndexOf(store, discordId)
    case None => None
    case Some(i) => Some(store[i])
  }

  /** The position of the first document with that id, if any. */
  function FirstIndexOf(store: seq<GuildState>, discordId: int): (r: Option<nat>)
    ensures r.None? <==> forall i :: 0 <= i < |store| ==> store[i].discordId != discordId
    ensures r.Some? ==> FirstWithId(store, discordId, r.value)
  {
    if store == [] then None
    else if store[0].discordId == discordId then Some(0)
    else
      match FirstIndexOf(store[1..], discordId)
      case None => None
      case Some(i) => Some(i + 1)
  }

  /** `store[i]` is the first document of the store with that id. */
  ghost predicate FirstWithId(store: seq<GuildState>, discordId: int, i: int) {
    && 0 <= i < |store|
    && store[i].discordId == discordId
    && forall j :: 0 <= j < i ==> store[j].discordId != discordId
  }
}
