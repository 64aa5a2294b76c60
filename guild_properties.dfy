/** Properties of the guild record that relate several calls: a mutator
    call as data, a sequence of calls, and what every sequence of calls
    keeps (the Discord id, the name and prefix constraints, the schema
    types of the reserved settings). */
module GuildProperties {
  import opened JsValues
  import opened GuildRecord
  import MongooseArray

  /** One call of a `Guild` mutator, with its arguments. */
  datatype Mutation =
    | Rename(name: Value)                                  // setName
    | AddMessage(action: Value, message: Value)            // addJoinLeaveMessage
    | RemoveMessage(action: Value, message: Value)         // removeJoinLeaveMessage
    | BindRole(role: string, roleId: Value)                // setRole
    | BindChannel(channel: string, channelId: Value)       // setChannel
    | ChangePrefix(prefix: Value)                          // setPrefix
    | EnableLevel                                          // enableLevelling
    | DisableLevel                                         // disableLevelling
    | ChangeLevelling(levelling: Value)                    // setLevelling
    | ChangeSetting(setting: string, value: Value)         // setSetting

  function Apply(g: GuildState, m: Mutation): Result<GuildState, GuildError> {
    match m
    case Rename(name) => SetName(g, name)
    case AddMessage(action, message) => AddJoinLeaveMessage(g, action, message)
    case RemoveMessage(action, message) => RemoveJoinLeaveMessage(g, action, message)
    case BindRole(role, roleId) => SetRole(g, role, roleId)
    case BindChannel(channel, channelId) => SetChannel(g, channel, channelId)
    case ChangePrefix(prefix) => SetPrefix(g, prefix)
    case EnableLevel => EnableLevelling(g)
    case DisableLevel => DisableLevelling(g)
    case ChangeLevelling(levelling) => SetLevelling(g, levelling)
    case ChangeSetting(setting, value) => SetSetting(g, setting, value)
  }

  /** The record after a call: a rejected call leaves it as it was. */
  function After(g: GuildState, m: Mutation): GuildState {
    var r := Apply(g, m);
    if r.Success? then r.value else g
  }

  /** The record after a sequence of calls, each made on the record the
      previous one left, a rejection being caught by the caller. */
  function Run(g: GuildState, ms: seq<Mutation>): GuildState
    decreases |ms|
  {
    if ms == [] then g else Run(After(g, ms[0]), ms[1..])
  }

  /** A call that cannot give a reserved setting the wrong type. */
  predicate KeepsSettingTypes(m: Mutation) {
    m.ChangeSetting? ==>
      && (m.setting in {JoinMessagesKey, LeaveMessagesKey} ==> m.value.Arr?)
      && (m.setting == LevellingEnabledKey ==> m.value.Bool?)
  }

  /** No mutator changes the Discord id. */
  lemma ApplyKeepsDiscordId(g: GuildState, m: Mutation)
    ensures After(g, m).discordId == g.discordId
  {
  }

  /** Every mutator keeps the name and prefix constraints. */
  lemma ApplyKeepsInvariant(g: GuildState, m: Mutation)
    requires Invariant(g)
    ensures Invariant(After(g, m))
  {
  }

  /** Every mutator except a `setSetting` that stores an ill-typed value
      under a reserved key keeps the reserved settings typed. */
  lemma ApplyKeepsSettingsTyped(g: GuildState, m: Mutation)
    requires SettingsTyped(g.settings)
    requires KeepsSettingTypes(m)
    ensures SettingsTyped(After(g, m).settings)
  {
  }

  /** A `setSetting` that gives a reserved key the wrong type breaks the schema. */
  lemma IllTypedSettingBreaksSchema(g: GuildState, setting: string, value: Value)
    requires !KeepsSettingTypes(ChangeSetting(setting, value))
    ensures !SettingsTyped(After(g, ChangeSetting(setting, value)).settings)
  {
  }

  /** No sequence of calls changes the Discord id. */
  lemma {:induction false} RunKeepsDiscordId(g: GuildState, ms: seq<Mutation>)
    ensures Run(g, ms).discordId == g.discordId
    decreases |ms|
  {
    if ms != [] {
      ApplyKeepsDiscordId(g, ms[0]);
      RunKeepsDiscordId(After(g, ms[0]), ms[1..]);
    }
  }

  /** After any sequence of calls the name and the prefix still pass their
      validators. */
  lemma {:induction false} RunKeepsInvariant(g: GuildState, ms: seq<Mutation>)
    requires Invariant(g)
    ensures Invariant(Run(g, ms))
    decreases |ms|
  {
    if ms != [] {
      ApplyKeepsInvariant(g, ms[0]);
      RunKeepsInvariant(After(g, ms[0]), ms[1..]);
    }
  }

  /** A created guild still conforms to the schema after any sequence of
      calls that stores no ill-typed reserved setting. */
  lemma {:induction false} RunKeepsConformance(g: GuildState, ms: seq<Mutation>)
    requires Conforms(g)
    requires forall i :: 0 <= i < |ms| ==> KeepsSettingTypes(ms[i])
    ensures Conforms(Run(g, ms))
    decreases |ms|
  {
    if ms != [] {
      ApplyKeepsInvariant(g, ms[0]);
      ApplyKeepsSettingsTyped(g, ms[0]);
      RunKeepsConformance(After(g, ms[0]), ms[1..]);
    }
  }

  /** `enableLevelling()` and `disableLevelling()` are `setLevelling(true)`
      and `setLevelling(false)`. */
  lemma LevellingWrappers(g: GuildState)
    ensures Apply(g, EnableLevel) == Apply(g, ChangeLevelling(Bool(true)))
    ensures Apply(g, DisableLevel) == Apply(g, ChangeLevelling(Bool(false)))
  {
  }

  /** `setLevelling(b)` is `setSetting('levelling_enabled', b)` for a boolean
      `b`, and a rejection otherwise. */
  lemma SetLevellingIsSetSetting(g: GuildState, levelling: Value)
    ensures levelling.Bool? ==> SetLevelling(g, levelling) == SetSetting(g, LevellingEnabledKey, levelling)
    ensures !levelling.Bool? ==> SetLevelling(g, levelling) == Failure(LevellingNotBoolean)
  {
  }

  /** Whatever the record held, the last levelling call made decides the flag. */
  lemma {:induction false} LastLevellingCallWins(g: GuildState, ms: seq<Mutation>, b: bool)
    ensures var s := Run(g, ms + [ChangeLevelling(Bool(b))]).settings;
      LevellingEnabledKey in s && s[LevellingEnabledKey] == Bool(b)
    decreases |ms|
  {
    if ms == [] {
      assert ms + [ChangeLevelling(Bool(b))] == [ChangeLevelling(Bool(b))];
    } else {
      assert (ms + [ChangeLevelling(Bool(b))])[1..] == ms[1..] + [ChangeLevelling(Bool(b))];
      LastLevellingCallWins(After(g, ms[0]), ms[1..], b);
    }
  }

  /** Adding a message and then removing it is the same as removing it:
      every copy goes, including the one just added. */
  lemma AddThenRemove(g: GuildState, action: Value, message: Value)
    requires AddJoinLeaveMessage(g, action, message).Success?
    ensures RemoveJoinLeaveMessage(AddJoinLeaveMessage(g, action, message).value, action, message)
         == RemoveJoinLeaveMessage(g, action, message)
  {
    var key := MessagesKey(action);
    var xs := MessagesOf(g.settings, key).value;
    MongooseArray.PullAfterPush(xs, message);
    assert g.settings[key := Arr(xs + [message])][key := Arr(MongooseArray.Pull(xs, message))]
        == g.settings[key := Arr(MongooseArray.Pull(xs, message))];
  }

  /** Removing a message twice is removing it once. */
  lemma RemoveTwice(g: GuildState, action: Value, message: Value)
    requires RemoveJoinLeaveMessage(g, action, message).Success?
    ensures RemoveJoinLeaveMessage(RemoveJoinLeaveMessage(g, action, message).value, action, message)
         == RemoveJoinLeaveMessage(g, action, message)
  {
    var key := MessagesKey(action);
    var xs := MessagesOf(g.settings, key).value;
    MongooseArray.PullIdempotent(xs, message);
    assert g.settings[key := Arr(MongooseArray.Pull(xs, message))][key := Arr(MongooseArray.Pull(MongooseArray.Pull(xs, message), message))]
        == g.settings[key := Arr(MongooseArray.Pull(xs, message))];
  }

  /** Removing a message the list does not hold is a successful no-op. */
  lemma RemoveAbsent(g: GuildState, action: Value, message: Value)
    requires IsAction(action)
    requires MessagesOf(g.settings, MessagesKey(action)).Some?
    requires message !in MessagesOf(g.settings, MessagesKey(action)).value
    ensures RemoveJoinLeaveMessage(g, action, message) == Success(g)
  {
    var key := MessagesKey(action);
    var xs := MessagesOf(g.settings, key).value;
    MongooseArray.PullAbsent(xs, message);
    assert g.settings[key := Arr(xs)] == g.settings;
  }

  /** The list a removal leaves is the old list with every copy of the
      message deleted and the order of the rest kept; no other list of that
      kind exists. */
  lemma RemoveKeepsOrder(g: GuildState, action: Value, message: Value, s: seq<Value>)
    requires RemoveJoinLeaveMessage(g, action, message).Success?
    ensures var xs := MessagesOf(g.settings, MessagesKey(action)).value;
      && MessagesOf(RemoveJoinLeaveMessage(g, action, message).value.settings, MessagesKey(action))
           == Some(MongooseArray.Pull(xs, message))
      && MongooseArray.IsSubsequence(MongooseArray.Pull(xs, message), xs)
      && (MongooseArray.IsSubsequence(s, xs) && multiset(s) == multiset(xs)[message := 0]
          ==> s == MongooseArray.Pull(xs, message))
  {
    var xs := MessagesOf(g.settings, MessagesKey(action)).value;
    MongooseArray.PullIsSubsequence(xs, message);
    if MongooseArray.IsSubsequence(s, xs) && multiset(s) == multiset(xs)[message := 0] {
      MongooseArray.PullUnique(xs, message, s);
    }
  }

  /** The role and channel setters store keys outside `Roles` and `Channels`. */
  lemma UnlistedKeysAccepted(g: GuildState, id: Value)
    ensures "admin" !in Roles && SetRole(g, "admin", id).value.roles["admin"] == id
    ensures "general" !in Channels && SetChannel(g, "general", id).value.channels["general"] == id
  {
  }

  /** Creation applies the defaults when only the id and the name are given. */
  lemma CreateDefaults(discordId: int, name: string)
    requires 2 <= |name| <= 100
    ensures var r := Create(Num(discordId), Str(name), Undefined, Undefined);
      && r.Success?
      && r.value.cmdPrefix == "$l."
      && MessagesOf(r.value.settings, JoinMessagesKey) == Some([Str("%USER_MENTION% have joined!")])
      && MessagesOf(r.value.settings, LeaveMessagesKey) == Some(DefaultLeaveMessages)
      && |DefaultLeaveMessages| == 2
      && r.value.settings[LevellingEnabledKey] == Bool(true)
  {
  }

  /** Different errors are thrown with different messages, so a caller can
      tell the rejections apart by their message alone. */
  lemma ErrorMessagesDistinct(e1: GuildError, e2: GuildError)
    requires e1 != e2
    ensures ErrorMessage(e1) != ErrorMessage(e2)
  {
    var m1, m2 := ErrorMessage(e1), ErrorMessage(e2);
    if e1.NotAnArray? && e2.NotAnArray? {
      assert m1[9..9 + |e1.key|] == e1.key;
      assert m2[9..9 + |e2.key|] == e2.key;
    } else if e1.NotAnArray? && !e2.NotAnArray? {
      assert m1[0] == 's' != m2[0];
    } else if e2.NotAnArray? && !e1.NotAnArray? {
      assert m2[0] == 's' != m1[0];
    }
  }

  /** The prefixes the repository's tests expect `setPrefix` to reject. */
  lemma RejectedPrefixes(g: GuildState)
    ensures forall p :: p in [Num(0), Str(""), Str("1234567890123456"), Null, Obj(map[])] ==>
      SetPrefix(g, p) == Failure(InvalidPrefix)
  {
  }

  /** The actions the repository's tests expect both message methods to reject. */
  lemma RejectedActions(g: GuildState, message: Value)
    ensures forall a :: a in [Undefined, Null, Num(1), Num(-1), Str("some string"), Obj(map[])] ==>
      && AddJoinLeaveMessage(g, a, message) == Failure(InvalidAction)
      && RemoveJoinLeaveMessage(g, a, message) == Failure(InvalidAction)
  {
  }

  /** A guild stored under a fresh id is the one `findByDiscordID` finds. */
  lemma FindAfterCreate(store: seq<GuildState>, g: GuildState)
    requires forall i :: 0 <= i < |store| ==> store[i].discordId != g.discordId
    ensures FindByDiscordId(store + [g], g.discordId) == Some(g)
  {
    assert (store + [g])[|store|].discordId == g.discordId;
  }
}
