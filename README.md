# Guild configuration entity, modelled in Dafny

This project models the `Guild` document of `src/guild.js`. It is the per-server
configuration record of a Discord bot, stored with Mongoose. The record holds:

- `discord_id` and `name`;
- the command prefix `cmd_prefix`;
- a `roles` map and a `channels` map;
- a `settings` bag. The bag holds two greeting lists, `join_messages` and
  `leave_messages`, the `levelling_enabled` flag, and any other key that
  `setSetting` stores.

Each mutator validates its argument, changes one field in place and calls
`save()`. A rejected call throws before anything changes.

Modules:

- `JsValues` (`js_value.dfy`): the dynamically typed JavaScript argument `Value`.
  It has `Undefined` (also what an omitted argument is), `Null`, booleans,
  numbers, strings, arrays and objects. The module also holds `Option` and `Result`.
- `MongooseArray` (`mongoose_array.dfy`): `Pull`, the array `pull` that
  `removeJoinLeaveMessage` relies on. The module proves what `Pull` means: it
  drops every copy, keeps everything else and keeps the order. It also proves
  that `Pull` is the only function that does all three.
- `GuildRecord` (`guild_record.dfy`): the defaults, the two validators, the
  exported role and channel keys, and creation with the schema defaults. It has
  one pure function per mutator, from a record to `Success(new record)` or
  `Failure(error)`, and `findByDiscordID` over a store given as a sequence.
- `GuildProperties` (`guild_properties.dfy`): a mutator call as data
  (`Mutation`), what a sequence of calls does (`Run`), and the lemmas that
  relate several calls.
- `Guilds` (`guild.dfy`): the class `Guild`. Its fields are updated in place. A
  ghost counter `commits` counts the calls to `save()`. Each method is proved to
  change the fields exactly as the matching `GuildRecord` function changes the
  record, and to save exactly once when it succeeds and never when it is
  rejected.

How the code is read:

- `setPrefix(prefix = DEFAULT_PREFIX)` uses a JavaScript default parameter. It
  applies when the argument is `undefined`, whether omitted or passed
  explicitly. The model therefore treats `Undefined` as "use the default".
- The action checks and `setLevelling` use strict comparison (`!==`). So only
  the exact strings `"join"`/`"leave"` and the booleans `true`/`false` pass.
- The model treats `settings` as a string-keyed bag that stores exactly what
  `this.settings[setting] = value` assigns, because Mongoose's casting is left
  out (see "Left out"). The program differs here. The schema declares
  `join_messages` and `leave_messages` as `type: Array` and `levelling_enabled`
  as `type: Boolean` (src/guild.js:62-76). So Mongoose casts a value stored
  under those keys, for example wrapping a lone value into an array, or rejects
  it when the document is saved. In the model, `setSetting` can put any value
  under a reserved key. If that value is not an array and a later
  `addJoinLeaveMessage('join', …)` runs, the model reports the error
  `NotAnArray`.
- The schema requires `levelling_enabled` to be a boolean. In the model, every
  mutator keeps it boolean except a `setSetting` that stores a non-boolean under
  that key; `IllTypedSettingBreaksSchema` shows this case. `RunKeepsConformance`
  shows that the invariant holds for every sequence of calls that avoids it.
- `discord_id` is `required: true` with `type: Number`. The model's creation
  fails with `MissingDiscordId` when the id is omitted or is not a number.
- `removeJoinLeaveMessage` removes every element equal to the message, not only
  the first, because `pull` does.
- `setRole` and `setChannel` accept any key, not only the exported `ROLES` and
  `CHANNELS` values.

## Model

| member | source | states |
|---|---|---|
| MongooseArray.Pull | src/guild.js:108-110 | what `pull` leaves never contains the pulled value and is no longer than the list |
| MongooseArray.PullCount | src/guild.js:110 | `pull` removes every copy of the value and keeps every copy of every other value (multiset) |
| MongooseArray.PullIsSubsequence | src/guild.js:110 | `pull` keeps the relative order of the remaining messages |
| MongooseArray.PullUnique | src/guild.js:110 | any order-keeping deletion from the list that removes exactly the copies of the value equals `pull`'s result |
| MongooseArray.PullAbsent | src/guild.js:110 | pulling a value the list does not hold leaves the list unchanged |
| MongooseArray.PullAppend | src/guild.js:110 | `pull` distributes over concatenation |
| MongooseArray.PullAfterPush | src/guild.js:98-110 | pushing a value and then pulling it gives the same list as only pulling it |
| MongooseArray.PullIdempotent | src/guild.js:110 | pulling twice gives the same list as pulling once |
| MongooseArray.SubsequenceCount | src/guild.js:110 | an order-keeping deletion never holds more copies of a value than the list |
| GuildRecord.Create | src/guild.js:37-77 | creation succeeds exactly when `discord_id` is a number, the name is valid, the prefix is omitted or valid, and levelling is omitted or boolean; the new record conforms to the schema, keeps the given id and name, has empty role and channel maps, and defaults the prefix to `$l.`, the join list to its one message, the leave list to its two messages and levelling to true; a missing or non-numeric `discord_id` fails with `MissingDiscordId` |
| GuildRecord.SetName | src/guild.js:81-89 | `setName` succeeds exactly when the argument is a string of 2 to 100 characters; on success only `name` changes and equals it; otherwise the error is `InvalidName`, whose message is 'Invalid name' |
| GuildRecord.AddJoinLeaveMessage | src/guild.js:91-101 | any action other than the strings `join`/`leave` is rejected; otherwise the message is appended at the end of the chosen list, and no other setting and no other field changes |
| GuildRecord.RemoveJoinLeaveMessage | src/guild.js:103-113 | same action check; otherwise the chosen list becomes its `pull` by the message, and nothing else changes |
| GuildRecord.SetRole | src/guild.js:115-119 | never fails, for any key; afterwards `roles[key]` is the id, other roles and every other field are unchanged |
| GuildRecord.SetChannel | src/guild.js:121-125 | never fails, for any key; afterwards `channels[key]` is the id, other channels and every other field are unchanged |
| GuildRecord.SetPrefix | src/guild.js:135-143 | succeeds exactly when the prefix is omitted or a string of 1 to 10 characters; omitted sets `$l.` unconditionally; only `cmd_prefix` changes |
| GuildRecord.SetSetting | src/guild.js:180-184 | never fails; afterwards `settings[key]` is the value and every other setting and field is unchanged |
| GuildRecord.SetLevelling | src/guild.js:172-178 | succeeds exactly on a boolean; then `levelling_enabled` is that boolean and nothing else changes; otherwise the error is `LevellingNotBoolean`, whose message is 'Levelling has to be a boolean' |
| GuildRecord.EnableLevelling | src/guild.js:151-153 | always succeeds and sets `levelling_enabled` to true, nothing else changed |
| GuildRecord.DisableLevelling | src/guild.js:161-163 | always succeeds and sets `levelling_enabled` to false, nothing else changed |
| GuildRecord.FindByDiscordId | src/guild.js:186-190 | finds nothing exactly when no stored guild has the id; otherwise returns the first stored guild with that id |
| GuildRecord.FirstIndexOf | src/guild.js:186-190 | the position of the first stored guild with the id, or none exactly when there is no such guild |
| GuildRecord.ValidatePrefix | src/guild.js:20-22 | an accepted prefix is a non-empty string; the default `$l.` is accepted |
| GuildRecord.ValidateName | src/guild.js:23-25 | an accepted name is a string of at least 2 characters; an accepted name of at most 10 characters is also an accepted prefix |
| GuildRecord.IsAction | src/guild.js:92 | only the strings `join` and `leave` are actions, and the leave list is chosen exactly for `leave` (line 96) |
| GuildRecord.ErrorMessage | src/guild.js:83 | the messages thrown are 'Invalid name' (line 83), 'The action have to be either join or leave' (lines 93, 105), 'Invalid Prefix' (line 137) and 'Levelling has to be a boolean' (line 174) |
| GuildProperties.ApplyKeepsDiscordId | src/guild.js:79-184 | no mutator call changes `discord_id` |
| GuildProperties.ApplyKeepsInvariant | src/guild.js:79-184 | every mutator call keeps the name valid and the prefix valid |
| GuildProperties.ApplyKeepsSettingsTyped | src/guild.js:62-76 | every call except an ill-typed `setSetting` on a reserved key keeps the two lists arrays and the flag boolean |
| GuildProperties.IllTypedSettingBreaksSchema | src/guild.js:180-184 | a `setSetting` that stores a wrongly typed value under a reserved key leaves that key ill-typed |
| GuildProperties.RunKeepsDiscordId | src/guild.js:79-184 | no sequence of mutator calls, rejected ones included, changes `discord_id` |
| GuildProperties.RunKeepsInvariant | src/guild.js:20-25 | after any sequence of calls the name and the prefix still pass `VALIDATE_NAME` and `VALIDATE_PREFIX` |
| GuildProperties.RunKeepsConformance | src/guild.js:37-77 | a conforming guild still conforms to the schema after any sequence of calls that stores no ill-typed reserved setting |
| GuildProperties.LevellingWrappers | src/guild.js:151-163 | `enableLevelling()`/`disableLevelling()` give exactly the result of `setLevelling(true)`/`setLevelling(false)` |
| GuildProperties.SetLevellingIsSetSetting | src/guild.js:172-178 | `setLevelling(b)` is `setSetting('levelling_enabled', b)` for a boolean and a rejection otherwise |
| GuildProperties.LastLevellingCallWins | src/guild.js:172-184 | whatever calls came before, the last `setLevelling(b)` leaves `levelling_enabled == b` |
| GuildProperties.AddThenRemove | src/guild.js:91-113 | adding a message and then removing it leaves the same record as only removing it |
| GuildProperties.RemoveTwice | src/guild.js:103-113 | removing a message twice leaves the same record as removing it once |
| GuildProperties.RemoveAbsent | src/guild.js:103-113 | removing a message the list does not hold succeeds and changes nothing |
| GuildProperties.RemoveKeepsOrder | src/guild.js:108-110 | the list after a removal is the old list without the message, in order, and is the only such list |
| GuildProperties.UnlistedKeysAccepted | src/guild.js:27-35 | a role key outside `ROLES` and a channel key outside `CHANNELS` are stored all the same |
| GuildProperties.CreateDefaults | src/guild.js:15-18 | a guild created with only an id and a valid name has prefix `$l.`, the one-element join list, the two-element leave list and levelling enabled |
| GuildProperties.RejectedPrefixes | tests/guild.js:183-187 | `0`, `''`, a 16-character string, `null` and `{}` are rejected as prefixes |
| GuildProperties.RejectedActions | tests/guild.js:70-75 | `undefined`, `null`, `1`, `-1`, `'some string'` and `{}` are rejected as actions by both message methods |
| GuildProperties.FindAfterCreate | tests/guild.js:260-268 | a guild stored under an id no other stored guild has is the one `findByDiscordID` returns |
| GuildProperties.ErrorMessagesDistinct | src/guild.js:83-174 | different errors carry different messages, so a caller can tell the rejections apart by their text |
| Guilds.Guild.Hydrate | src/guild.js:186-190 | a document loaded from the store holds exactly the stored record and has not been saved yet |
| Guilds.Guild.Save | src/guild.js:88 | `save()` counts one commit and changes no field of the document |
| Guilds.Guild.Create | src/guild.js:37-77 | creation builds a fresh document holding exactly the record `GuildRecord.Create` describes, saved once, or fails with its error |
| Guilds.Guild.SetName | src/guild.js:81-89 | the fields change exactly as `GuildRecord.SetName` says (not at all on rejection); saved once on success, never on rejection |
| Guilds.Guild.AddJoinLeaveMessage | src/guild.js:91-101 | the list is updated in place exactly as `GuildRecord.AddJoinLeaveMessage` says; saved once on success, never on rejection |
| Guilds.Guild.RemoveJoinLeaveMessage | src/guild.js:103-113 | the list is updated in place exactly as `GuildRecord.RemoveJoinLeaveMessage` says; saved once on success, never on rejection |
| Guilds.Guild.SetRole | src/guild.js:115-119 | `roles` is updated as `GuildRecord.SetRole` says; always saved once |
| Guilds.Guild.SetChannel | src/guild.js:121-125 | `channels` is updated as `GuildRecord.SetChannel` says; always saved once |
| Guilds.Guild.SetPrefix | src/guild.js:135-143 | the fields change exactly as `GuildRecord.SetPrefix` says; saved once on success, never on rejection |
| Guilds.Guild.EnableLevelling | src/guild.js:151-153 | delegates to `setLevelling(true)`: levelling enabled, saved once |
| Guilds.Guild.DisableLevelling | src/guild.js:161-163 | delegates to `setLevelling(false)`: levelling disabled, saved once |
| Guilds.Guild.SetLevelling | src/guild.js:172-178 | the fields change exactly as `GuildRecord.SetLevelling` says; one save through `setSetting` on success, none on rejection |
| Guilds.Guild.SetSetting | src/guild.js:180-184 | `settings` is updated as `GuildRecord.SetSetting` says; always saved once |
| Guilds.LevellingScenario | tests/guild.js:212-248 | on a guild created with levelling disabled, the flag reads false, then true after `enableLevelling()`, false after `setLevelling(false)`, true after `setLevelling(true)`, false after `disableLevelling()`, and stays false after a rejected `setLevelling('true')` |

## Left out

- `save()` and the Mongoose model machinery (`Schema`, `Model`, `mongoose.model`, `loadClass`): `save()` is a commit counted by the ghost field `commits`. It always succeeds, so a storage failure, and the in-memory state it would leave out of step with the store, are not modelled.
- Mongoose casting on assignment and at save is not modelled. For example, Mongoose turns a numeric name into a string, a numeric string `discord_id` into a number, the string `"true"` stored by `setSetting` into a boolean for `levelling_enabled`, and a lone value stored under `join_messages` or `leave_messages` into a one-element array. Mongoose also rejects at save a value it cannot cast. The model rejects or stores such values as given.
- Mongoose strict mode is not modelled. It drops keys outside the schema from `roles`, `channels` and `settings` when the document is saved; the model keeps them, as the assignments in the code do.
- JavaScript numbers are modelled as unbounded integers. Fractions, `NaN` and infinities are left out; no guild method does arithmetic.
- String lengths are counted in Unicode characters. JavaScript counts UTF-16 code units, so a character outside the Basic Multilingual Plane counts twice in the source.
- Property keys are modelled as strings. JavaScript converts a non-string role, channel or setting key to a string; that conversion is left out.
- Values are compared structurally, both by `pull` and by the action check. Object identity and the aliasing of array objects are left out, including sharing of the exported default arrays.
- `async`/`await` and concurrent calls on one document: each method is one sequential step, so lost updates between racing calls are outside the model.
- GuildRecord.Create: Mongoose reports every invalid field of a new document at once; the model reports the first one it finds, checking `discord_id`, then name, then prefix, then levelling. Creation inputs other than `discord_id`, `name`, `cmd_prefix` and `settings.levelling_enabled` (initial roles, channels or message lists) are not modelled.
- GuildRecord.FindByDiscordId: `findOne` leaves the choice among duplicate ids to the store; the model returns the first in store order. The store is a sequence of records, not a database query.
- GuildRecord.ErrorMessage: the text of the `TypeError` thrown when a message list is not an array comes from the JavaScript engine, and the text of a missing `discord_id` comes from Mongoose's validation error; the model gives its own text for both.
