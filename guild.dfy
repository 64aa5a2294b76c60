/** The `Guild` entity of src/guild.js: a document whose methods validate
    their argument, change one field in place and then save. `save()` is a
    commit counted by the ghost field `commits`. Each method is proved to do
    to the fields exactly what the matching function of GuildRecord does to
    a record. */
module Guilds {
  import opened JsValues
  import GuildRecord
  import MongooseArray

  /** What a mutator's promise settles to: the saved document, or the error
      it is rejected with. */
  datatype Outcome = Saved | Rejected(error: GuildRecord.GuildError)

  /** The outcome a record-level result stands for. */
  function OutcomeOf(r: Result<GuildRecord.GuildState, GuildRecord.GuildError>): Outcome {
    if r.Success? then Saved else Rejected(r.error)
  }

  /** The record a call leaves: unchanged when it is rejected. */
  function StateAfter(g: GuildRecord.GuildState, r: Result<GuildRecord.GuildState, GuildRecord.GuildError>)
    : GuildRecord.GuildState
  {
    if r.Success? then r.value else g
  }

  class Guild {
    var discordId: int
    var name: string
    var cmdPrefix: string
    var channels: map<string, Value>
    var roles: map<string, Value>
    var settings: map<string, Value>
    /** How many times the document has been saved. */
    ghost var commits: nat

    /** The document's fields as a record. */
    function State(): GuildRecord.GuildState
      reads this
    {
      GuildRecord.GuildState(discordId, name, cmdPrefix, channels, roles, settings)
    }

    /** The name and the prefix pass their validators. */
    ghost predicate Valid()
      reads this
    {
      GuildRecord.Invariant(State())
    }

    /** A document holding the given record, not yet saved. */
    constructor Hydrate(record: GuildRecord.GuildState)
      ensures State() == record && commits == 0
    {
      discordId := record.discordId;
      name := record.name;
      cmdPrefix := record.cmdPrefix;
      channels := record.channels;
      roles := record.roles;
      settings := record.settings;
      commits := 0;
    }

    /** `ModelGuild.create(...)`: a new document with the schema defaults,
        saved once, or the validation error. */
    static method Create(discordId: Value, name: Value, cmdPrefix: Value, levellingEnabled: Value)
      returns (r: Result<Guild, GuildRecord.GuildError>)
      ensures var spec := GuildRecord.Create(discordId, name, cmdPrefix, levellingEnabled);
        && (r.Success? <==> spec.Success?)
        && (r.Failure? ==> r.error == spec.error)
        && (r.Success? ==>
              fresh(r.value) && r.value.Valid() && r.value.State() == spec.value && r.value.commits == 1)
    {
      var spec := GuildRecord.Create(discordId, name, cmdPrefix, levellingEnabled);
      if spec.Failure? {
        return Failure(spec.error);
      }
      var g := new Guild.Hydrate(spec.value);
      g.Save();
      return Success(g);
    }

    /** `save()`: commits the document; no field changes. */
    method Save()
      modifies this`commits
      ensures commits == old(commits) + 1
      ensures State() == old(State())
    {
      commits := commits + 1;
    }

    /** `setName(name)` */
    method SetName(newName: Value) returns (r: Outcome)
      modifies this
      ensures old(Valid()) ==> Valid()
      ensures r == OutcomeOf(GuildRecord.SetName(old(State()), newName))
      ensures State() == StateAfter(old(State()), GuildRecord.SetName(old(State()), newName))
      ensures commits == old(commits) + (if r.Saved? then 1 else 0)
    {
      if !GuildRecord.ValidateName(newName) {
        return Rejected(GuildRecord.InvalidName);
      }
      name := newName.s;
      Save();
      return Saved;
    }

    /** `addJoinLeaveMessage(action, message)` */
    method AddJoinLeaveMessage(action: Value, message: Value) returns (r: Outcome)
      modifies this
      ensures old(Valid()) ==> Valid()
      ensures r == OutcomeOf(GuildRecord.AddJoinLeaveMessage(old(State()), action, message))
      ensures State() == StateAfter(old(State()), GuildRecord.AddJoinLeaveMessage(old(State()), action, message))
      ensures commits == old(commits) + (if r.Saved? then 1 else 0)
    {
      if action != Str("join") && action != Str("leave") {
        return Rejected(GuildRecord.InvalidAction);
      }
      var key := if action == Str("leave") then GuildRecord.LeaveMessagesKey else GuildRecord.JoinMessagesKey;
      if key !in settings || !settings[key].Arr? {
        return Rejected(GuildRecord.NotAnArray(key));
      }
      settings := settings[key := Arr(settings[key].elems + [message])];
      Save();
      return Saved;
    }

    /** `removeJoinLeaveMessage(action, message)` */
    method RemoveJoinLeaveMessage(action: Value, message: Value) returns (r: Outcome)
      modifies this
      ensures old(Valid()) ==> Valid()
      ensures r == OutcomeOf(GuildRecord.RemoveJoinLeaveMessage(old(State()), action, message))
      ensures State() == StateAfter(old(State()), GuildRecord.RemoveJoinLeaveMessage(old(State()), action, message))
      ensures commits == old(commits) + (if r.Saved? then 1 else 0)
    {
      if action != Str("join") && action != Str("leave") {
        return Rejected(GuildRecord.InvalidAction);
      }
      var key := if action == Str("leave") then GuildRecord.LeaveMessagesKey else GuildRecord.JoinMessagesKey;
      if key !in settings || !settings[key].Arr? {
        return Rejected(GuildRecord.NotAnArray(key));
      }
      settings := settings[key := Arr(MongooseArray.Pull(settings[key].elems, message))];
      Save();
      return Saved;
    }

    /** `setRole(role, role_id)` */
    method SetRole(role: string, roleId: Value) returns (r: Outcome)
      modifies this
      ensures old(Valid()) ==> Valid()
      ensures r == Saved
      ensures State() == GuildRecord.SetRole(old(State()), role, roleId).value
      ensures commits == old(commits) + 1
    {
      roles := roles[role := roleId];
      Save();
      return Saved;
    }

    /** `setChannel(channel, channel_id)` */
    method SetChannel(channel: string, channelId: Value) returns (r: Outcome)
      modifies this
      ensures old(Valid()) ==> Valid()
      ensures r == Saved
      ensures State() == GuildRecord.SetChannel(old(State()), channel, channelId).value
      ensures commits == old(commits) + 1
    {
      channels := channels[channel := channelId];
      Save();
      return Saved;
    }

    /** `setPrefix(prefix = DEFAULT_PREFIX)`; an omitted prefix is `Undefined`. */
    method SetPrefix(prefix: Value) returns (r: Outcome)
      modifies this
      ensures old(Valid()) ==> Valid()
      ensures r == OutcomeOf(GuildRecord.SetPrefix(old(State()), prefix))
      ensures State() == StateAfter(old(State()), GuildRecord.SetPrefix(old(State()), prefix))
      ensures commits == old(commits) + (if r.Saved? then 1 else 0)
    {
      var p := if prefix == Undefined then Str(GuildRecord.DefaultPrefix) else prefix;
      if !GuildRecord.ValidatePrefix(p) {
        return Rejected(GuildRecord.InvalidPrefix);
      }
      cmdPrefix := p.s;
      Save();
      return Saved;
    }

    /** `enableLevelling()` */
    method EnableLevelling() returns (r: Outcome)
      modifies this
      ensures old(Valid()) ==> Valid()
      ensures r == Saved
      ensures State() == GuildRecord.EnableLevelling(old(State())).value
      ensures commits == old(commits) + 1
    {
      r := SetLevelling(Bool(true));
    }

    /** `disableLevelling()` */
    method DisableLevelling() returns (r: Outcome)
      modifies this
      ensures old(Valid()) ==> Valid()
      ensures r == Saved
      ensures State() == GuildRecord.DisableLevelling(old(State())).value
      ensures commits == old(commits) + 1
    {
      r := SetLevelling(Bool(false));
    }

    /** `setLevelling(levelling)` */
    method SetLevelling(levelling: Value) returns (r: Outcome)
      modifies this
      ensures old(Valid()) ==> Valid()
      ensures r == OutcomeOf(GuildRecord.SetLevelling(old(State()), levelling))
      ensures State() == StateAfter(old(State()), GuildRecord.SetLevelling(old(State()), levelling))
      ensures commits == old(commits) + (if r.Saved? then 1 else 0)
    {
      if levelling != Bool(true) && levelling != Bool(false) {
        return Rejected(GuildRecord.LevellingNotBoolean);
      }
      r := SetSetting(GuildRecord.LevellingEnabledKey, levelling);
    }

    /** `setSetting(setting, value)` */
    method SetSetting(setting: string, value: Value) returns (r: Outcome)
      modifies this
      ensures old(Valid()) ==> Valid()
      ensures r == Saved
      ensures State() == GuildRecord.SetSetting(old(State()), setting, value).value
      ensures commits == old(commits) + 1
    {
      settings := settings[setting := value];
      Save();
      return Saved;
    }
  }

  /** The levelling tests of the repository, on one guild created with
      levelling disabled: the flag read after creation, `enableLevelling()`,
      `setLevelling(false)`, `setLevelling(true)`, `disableLevelling()` and a
      rejected `setLevelling('true')`. */
  method LevellingScenario(discordId: int) returns (flags: seq<Value>)
    ensures flags == [Bool(false), Bool(true), Bool(false), Bool(true), Bool(false), Bool(false)]
  {
    var key := GuildRecord.LevellingEnabledKey;
    var created := Guild.Create(Num(discordId), Str("enableLevelling should enable levelling"), Undefined, Bool(false));
    if created.Failure? {
      assert false;
      return [];
    }
    var g := created.value;
    flags := [g.settings[key]];
    var r := g.EnableLevelling();
    flags := flags + [g.settings[key]];
    r := g.SetLevelling(Bool(false));
    flags := flags + [g.settings[key]];
    r := g.SetLevelling(Bool(true));
    flags := flags + [g.settings[key]];
    r := g.DisableLevelling();
    flags := flags + [g.settings[key]];
    r := g.SetLevelling(Str("true"));
    assert r == Rejected(GuildRecord.LevellingNotBoolean);
    flags := flags + [g.settings[key]];
    assert g.discordId == discordId && g.commits == 5;
  }
}
