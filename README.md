# Tip-bot entry point: configuration, tick driver and message routing

A Dafny model of the self-contained rules of `bot.js`, the entry point of a
Slack tip bot. That file resolves the bot's credentials from command-line flags
and environment variables. It lists the channels and groups the bot is present
in when it connects. It keeps two countdowns that the chat session's tick
drives: a balance-threshold check ("sun" check) and a "random help" broadcast.
The code counts each tick as one second, since it multiplies its minute timers
by 60. It routes each direct message or mention to the tipping engine according
to the first character of the channel identifier. The tipping engine
(`TipBot`) is not shown; the model treats its calls as outputs and its flags as
inputs.

Modules:

- `Wrappers`: `Option` (JavaScript `undefined`) and `Result`.
- `Config`: JavaScript truthiness and `||`, resolution of the five settings,
  the three required-value assertions, the `OPTIONS` object and the initial
  help countdown.
- `Ticker`: the tick handler. `TickDriver` is a class holding the two
  counters; its `Tick` method updates them in place and returns the actions it
  fired. `TickSpec`, `Ticks` and `Run` describe one tick and many ticks as values.
- `Roster`: the connect callback's two loops, which collect `#name` for member
  channels and the names of open, unarchived groups.
- `Slack`: user, channel and message records.
- `Routing`: channel-identifier classification and the message listener's
  lookup chain.
- `Hello`: how the `hello` handler fills the engine's special-channel slots.

Two behaviours of the code that a reader might not expect. The model follows
the code in both:

- The comments at bot.js:23 and bot.js:167 say "every X minutes" and "every
  SUN_TIMER min". The sun counter starts at 0 (bot.js:29), so it fires on the
  first ready tick. A fired counter is reset to `TIMER*60` (bot.js:172, 186), so
  it fires again only after `TIMER*60 + 1` ticks (`Ticker.FiresAgainAfterPeriod`).
  With a reset value of 2 the fires fall on ticks 1 and 4
  (`Ticker.TwoTickScenario`).
- A failed user, channel or group lookup raises an uncaught `Error` (bot.js:200,
  208, 216). Processing does not continue past it. The model records this as
  the `Thrown` outcome.

## Model

| member | source | states |
|---|---|---|
| Config.Truthy | bot.js:12-16 | the falsy values are exactly `undefined`, the empty string, `0` and `false`, the values that `\|\|` and `assert` reject |
| Config.Or | bot.js:12-16 | JavaScript `a \|\| b` yields its left operand when that is truthy and its right operand otherwise, and the result is truthy exactly when either operand is |
| Config.SettingTruthy | bot.js:12-16 | a setting is the flag's value when that is truthy, else the environment variable's value (or `undefined`); it is truthy exactly when the flag or a non-empty variable is given |
| Config.Resolve | bot.js:12-16 | token, RPC user, RPC password and wallet password come from flag-or-variable; the RPC port is always truthy, is the flag-or-variable value when that is truthy, and is 9998 otherwise |
| Config.Startup | bot.js:12-16 | a successful start-up carries exactly the resolved settings |
| Config.StartupOutcome | bot.js:33-35 | start-up succeeds if and only if token, RPC user and RPC password are each given by flag or variable; otherwise it fails on the first missing one, in the order token, user, password |
| Config.InitialHelpTicker | bot.js:31 | the help countdown starts at 0 when no help timer is configured, and otherwise at the timer times 60, whatever its sign; the start value is non-negative for a non-negative timer |
| Config.DefaultHelpTicker | bot.js:23 | with the shipped 360-minute timer the help countdown starts at 21600 |
| Ticker.TickDriver.constructor | bot.js:29-31 | the sun counter starts at 0 and the help counter at its initial value |
| Ticker.TickDriver.Tick | bot.js:159-193 | the new counters and the fired actions are those of one tick of the handler; while initializing nothing changes; a counter whose settings are missing is untouched and silent |
| Ticker.InitializingTickIsNoOp | bot.js:160 | a tick while the engine is initializing leaves both counters alone and fires neither action |
| Ticker.InactiveCounterUntouched | bot.js:164-191 | without threshold, sun timer and monitored user the sun counter is untouched and the check never fires; without the help timer the help counter is untouched and help is never shown |
| Ticker.ReadyTickFiresOrDecrements | bot.js:168-176 | on a ready tick an active counter at 0 fires its action and is reset to its timer times 60; any other value fires nothing and drops by exactly 1 (the help counter likewise, lines 182-190) |
| Ticker.CountersIndependent | bot.js:164-191 | what a tick does to one counter and its action does not depend on the other counter |
| Ticker.BothMayFire | bot.js:164-191 | both actions fire on the same tick when both counters are at 0 and active |
| Ticker.TicksStayInRange | bot.js:168-176 | a counter that starts within [0, TIMER*60] stays there over any number of ready ticks, so it never goes negative |
| Ticker.CountingDown | bot.js:173-176 | a counter at c fires nothing during its next c ready ticks and ends at 0 |
| Ticker.FiresAgainAfterPeriod | bot.js:168-176 | for any TIMER*60 >= 0, a counter that fires at 0 is reset to TIMER*60, does not fire during the next TIMER*60 ticks and fires again on the one after, back at 0 |
| Ticker.WholeRounds | bot.js:168-176 | from 0, every round of TIMER*60 + 1 ready ticks brings the counter back to 0 with exactly one fire |
| Ticker.TicksFromZero | bot.js:168-176 | closed form from 0: after k rounds of TIMER*60 + 1 ticks and r further ticks, the counter has fired k times (k + 1 if r > 0) and stands at 0 (or TIMER*60 + 1 - r) |
| Ticker.ZeroTimerFiresEveryTick | bot.js:168-176 | a counter reset to 0 (a timer of 0, or `null`, which `* 60` turns into 0) fires on every ready tick and stays at 0 |
| Ticker.TwoTickScenario | bot.js:168-176 | with a reset value of 2, five ready ticks from 0 fire on ticks 1 and 4 and leave the counter at 1 |
| Ticker.RunIsTwoCountdowns | bot.js:159-193 | over n ticks with fixed settings each counter behaves as its own countdown when it is active and the engine is ready, and otherwise never changes or fires |
| Ticker.CountdownsFromStartup | bot.js:29-31 | from the start-up values an active sun check fires on the first ready tick; the help counter stays within [0, TIMER*60], fires nothing for TIMER*60 ticks and fires on the next one |
| Roster.Presence | bot.js:64-77 | the two loops produce exactly the member-channel labels and the open-group names of the payload |
| Roster.MemberChannelsAppend | bot.js:67-71 | channel labels keep payload order: the labels of a concatenation are the concatenation of the labels |
| Roster.MemberChannelsSingle | bot.js:68-70 | one channel contributes `#` + its name exactly when the bot is a member |
| Roster.MemberChannelsExactly | bot.js:67-71 | a label appears if and only if it is `#` + the name of some channel the bot is a member of |
| Roster.OpenGroupsAppend | bot.js:73-77 | group names keep payload order |
| Roster.OpenGroupsSingle | bot.js:74-76 | one group contributes its name exactly when it is open and not archived |
| Roster.OpenGroupsExactly | bot.js:73-77 | a name appears if and only if some group with that name is open and not archived |
| Roster.PresenceBounded | bot.js:64-77 | neither list is longer than the payload list it comes from |
| Routing.Classify | bot.js:204-205 | an identifier is handled if and only if it is non-empty and starts with `C`, `G` or `D` |
| Routing.FirstCharacterDecides | bot.js:204 | two identifiers with the same first character are classified alike |
| Routing.ClassifyPrefixes | bot.js:205-221 | `C…` is a public channel, `G…` a group and `D…` a direct message; everything else, the empty identifier included, is ignored |
| Routing.Hears | bot.js:196-228 | the user is always looked up first; at most one more lookup follows; `onMessage` is called with the looked-up user and the message's text, if and only if the user lookup succeeded and the identifier is direct, or public with a successful channel lookup, or a group with a successful group lookup |
| Routing.UserLookupFailureThrows | bot.js:199-200 | a failed user lookup raises its error and issues no further lookup |
| Routing.DirectMessageNeedsNoLookup | bot.js:221-225 | a direct message goes to `onMessage` as `{id: channel}` with no channel or group lookup, whatever those would answer |
| Routing.PublicChannelIsLookedUp | bot.js:205-212 | a public-channel message is looked up with `channels.info`; its answer is the context, or its error is raised; the group answer is irrelevant |
| Routing.GroupIsLookedUp | bot.js:213-220 | a group message is looked up with `groups.info`; its answer is the context, or its error is raised; the channel answer is irrelevant |
| Routing.OtherIdentifiersDropped | bot.js:204-226 | any other identifier issues only the user lookup and never calls `onMessage` |
| Hello.OnHello | bot.js:105-156 | for any options, each slot becomes the channel its configured name resolves to, and keeps its previous value when the name is not configured or does not resolve |
| Hello.LookupFailureIsolated | bot.js:109-155 | a failed lookup for one special-channel name changes no slot configured with another name, and leaves its own slots at their previous value |
| Hello.DefaultSpecialChannels | bot.js:20-22 | with the shipped options the price, moderator and main slots are filled from `price_speculation`, `moderators` and `dash_chat` when those resolve, and are left as they were otherwise |

## Left out

- The mongoose connection, loading of the `Tipper` model, construction of `TipBot` and `db.close` (bot.js:45-50, 92-101, 248): database I/O.
- Spawning the Slack session, `startRTM`, its error throw, the logged `self`/`team` details and reconnect-on-`error` (bot.js:54-62, 79-82, 253-260): network and SDK plumbing.
- `setTimeout(…, 0)` before `tipbot.init`, the asynchronous ordering of lookup callbacks, `bot.destroy` and `process.exit(1)` on `close` (bot.js:85-87, 243-250): scheduling and process runtime.
- Forwarding of `user_change` and `team_join` to `onUserChange` (bot.js:231-240): a plain call into the engine, which is not part of this model.
- `getChannel` is the engine's. The `hello` handler is modelled only by its effect on the three slots, with the names it resolves given as a map.
- All `debug(...)` logging.
- The order of the two engine calls within one tick: `sunCheckThreshold()` (bot.js:170) runs before `showRandomHelp()` (bot.js:184), and each counter is reset only after its call returns; `Ticker.Actions` records only which calls happened.
- The `ALL_BALANCES` and `DB` options (bot.js:19, 24): the first is read only by the engine, the second only by the database connection.
- The texts of the three start-up assertions (bot.js:33-35): `Config.StartupError` names which assertion failed but not its message.
- Everything inside the tipping engine: wallet RPC, balances and the sun-threshold logic. Its `initializing` flag, its `sunUser` and its `OPTIONS` values are inputs of the tick model.
- Ticker.TickDriver.Tick: timers are integers. A `null` timer passes the `!== undefined` guard and `null * 60` is 0, so it is the model's `Some(0)`, whose action fires on every ready tick (`Ticker.ZeroTimerFiresEveryTick`). Timers such as `true` or `"5"` become the integers 1 and 5 under `*`. A fractional timer, or one such as `"abc"` that turns `TIMER*60` into `NaN`, is not modelled.
- Config.Resolve: minimist's own parsing of the command line is not modelled. A flag's value is taken as already parsed into a string, an integer or a boolean. Fractional numbers such as `--rpc-port 99.5` and `NaN` are not modelled; the truthiness rules are the same for them.
- Roster.Presence: an absent `channels` or `groups` list (which `_.each` skips) is represented by an empty list.
