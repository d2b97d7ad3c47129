# Football over-2.5 digest bot — a Dafny model

The bot sends one Telegram message a day. The message lists the day's fixtures.
For each fixture it shows a prediction of whether the match will have more than
2.5 goals. The prediction comes from adding the two teams' average goals per game
and putting the sum into one of three tiers. This project models the logic of
football-bot/football_bot.py that decides what the message says. It then proves
properties of that model.

- `prediction.dfy` (module `Prediction`) models `estimate_over_25`. The sum is a
  `real`. The tier is one of `VeryLikely | Likely | Unlikely`, chosen from the
  unrounded sum with thresholds 3.0 and 2.5, both closed from below. The
  one-decimal rendering of the sum is a function parameter `render`, since it is
  display only. Each tier's emoji and words are a fixed label.
- `team_stats.dfy` (module `TeamStats`) models the fallback rule of
  `get_team_goals`. It works on the "response" member of a team-statistics reply,
  `NoStats | Stats(total)`. The total is the value at goals.for.average.total:
  `Missing` (the nested lookup raises), `Null`, `Text(s)` or `Number(x)`. An empty
  record, or a falsy total (null, `""`, zero), gives 1.0. A missing key is a
  failure. Anything else is converted by `float()`. For strings `float()` is the
  parameter `parse`, where `None` means it raised. The converted value is passed on
  unclamped.
- `digest.dfy` (module `Digest`) models `build_daily_message`:
  - `ProcessFixture` is the body of the `try` block for one fixture. Each missing
    key, failed statistics request or failed conversion gives `Fail`. Otherwise
    it gives `Ok(block)`.
  - `BuildDailyMessage` is the loop. It starts from the fixed header, covers the
    fixtures in provider order and skips failures. It appends one block and
    increments `count` per success, and breaks as soon as `count` reaches 10. If
    `count` is 0 at the end, it appends "No matches found today.".
  - The method is proved against the functional specification `DigestText`: the
    header followed by the first ten successful blocks in order, or the header
    followed by the fallback line when there are none.
  - The method returns the final `count` and the number of fixtures examined
    next to the message. Both are the loop's own state, returned so that the cap
    can be stated.
- `wrappers.dfy` (module `Wrappers`) holds `Option` and a suffix predicate.

The HTTP request for team statistics is the function `Env.fetch` from (team, league,
season) to an optional reply. `None` stands for a request or JSON-decoding error.
That error propagates out of `get_team_goals`, so the fixture is skipped. Because
`fetch` is a function, two requests for the same team, league and season in one
run get the same reply. The code makes a fresh request each time and caches
nothing, so its replies could differ. No property proved here depends on this.

What the code does on error paths:
- Only an empty statistics record or a falsy total is defaulted to 1.0. A failed
  team-statistics request, a missing key or a `float()` error is not defaulted; it
  raises and the fixture is skipped.
- The team rate is not kept non-negative: whatever `float()` returns is used.
- A failed fixture-list request is not turned into an empty list (see "## Left out").

The fixed texts are the constants `Digest.Header` (the header of line 41) and
`Digest.Fallback` (the "No matches found today." line of line 59). They appear in
the contracts of `Digest.DigestText`, `Digest.FallbackExactlyWhenNone` and
`Digest.BuildDailyMessage`.

## Model

| member | source | states |
|---|---|---|
| `Prediction.EstimateOver25` | football-bot/football_bot.py:30-37 | the reported total is exactly home + away, unrounded, and the tier is the one whose band (at least 3.0; at least 2.5 and below 3.0; below 2.5) contains it |
| `Prediction.ExactlyOneTier` | football-bot/football_bot.py:30-37 | the classifier is total: each sum lies in exactly one tier's band, the one reported |
| `Prediction.TierMonotone` | football-bot/football_bot.py:31-37 | a larger summed rate never gets a lower tier |
| `Prediction.BoundaryCases` | football-bot/football_bot.py:32-37 | 2.5 is Likely, 3.0 is Very Likely, 2.0 and 2.49 are Unlikely, 2.99 is Likely |
| `Prediction.ReadTierOfText` | football-bot/football_bot.py:33-37 | whatever text the number renders to, the tier can be read back from the end of the classifier's text, so different tiers are never shown alike |
| `TeamStats.RateFromStats` | football-bot/football_bot.py:24-28 | an empty record gives 1.0; a missing total key fails; a null, empty-string or zero total gives 1.0; a non-empty string gives exactly what `float()` gives (including failure); a non-zero number is returned as it is |
| `TeamStats.NoClamping` | football-bot/football_bot.py:26-27 | a converted rate reaches the caller unchanged, whether it is below 1.0, negative or large |
| `Prediction.TierLabel` | football-bot/football_bot.py:33-37 | the emoji-and-words label of each tier; on its own it already names its tier, as read back by `ReadTier` |
| `Prediction.Over25Text` | football-bot/football_bot.py:33-37 | the classifier's returned string: it starts with the rendering of the unrounded sum and ends with " goals — " and the tier's label |
| `Digest.GetTeamGoals` | football-bot/football_bot.py:21-28 | `get_team_goals` with the request abstract: a failed request gives a failure (the fixture is skipped), otherwise the result is the team-rate rule applied to the reply |
| `Digest.Block` | football-bot/football_bot.py:52 | the f-string appended per fixture: it starts with the football emoji and the home team's name, and ends with the classifier text followed by a blank line |
| `Digest.ProcessFixture` | football-bot/football_bot.py:45-52 | a fixture succeeds exactly when every key is present and both team-rate lookups succeed; its block then names home and away and carries the classifier text for the two rates, and it ends with a blank line |
| `Digest.ProcessCompleteFixture` | football-bot/football_bot.py:45-52 | a fixture with every key present and non-zero numeric rates for both teams yields the block naming both teams with the classifier text for exactly those two rates |
| `Digest.Shown` | football-bot/football_bot.py:53-55 | the blocks shown are a prefix of the successful blocks, of length min(successes, 10) |
| `Digest.DigestText` | football-bot/football_bot.py:41 | the message always starts with the fixed header |
| `Digest.LoopStep` | football-bot/football_bot.py:52-53 | one more fixture adds its block to the collected blocks and to the message exactly when it succeeds |
| `Digest.OkBlocksAppend` | football-bot/football_bot.py:43-57 | the successful blocks of consecutive runs of fixtures are those of each run, in order |
| `Digest.NoOkBlocks` | football-bot/football_bot.py:52-58 | no block is collected exactly when every fixture fails |
| `Digest.FailAddsNothing` | football-bot/football_bot.py:44-57 | a failing fixture adds nothing and does not stop the fixtures after it: the digest equals the one without it |
| `Digest.OkBlocksPrefix` | football-bot/football_bot.py:43-53 | processing fewer fixtures gives a prefix of the blocks, so order is kept |
| `Digest.CapIgnoresRest` | football-bot/football_bot.py:53-55 | once ten fixtures have succeeded, later fixtures change neither the shown blocks nor the message |
| `Digest.ShownAt` | football-bot/football_bot.py:43-55 | a success with fewer than ten successes before it is shown, at the position equal to their number |
| `Digest.OkBlockSource` | football-bot/football_bot.py:43-53 | the k-th collected block is the block of the success that has exactly k successes before it |
| `Digest.ShownFrom` | football-bot/football_bot.py:43-55 | every shown block is the block of a successful fixture, the k-th one coming from the success with k successes before it |
| `Digest.ConcatEndsWithBlankLine` | football-bot/football_bot.py:52 | a non-empty run of blocks ending with a blank line is a message body ending with a blank line |
| `Digest.FallbackExactlyWhenNone` | football-bot/football_bot.py:58-59 | the message ends with the fallback line exactly when no fixture succeeded, and is then exactly header + fallback |
| `Digest.FallbackExactlyWhenNoneSucceeds` | football-bot/football_bot.py:58-59 | the same, stated for the fixtures: header + fallback exactly when every fixture's processing fails |
| `Digest.TwoFixtureScenario` | football-bot/football_bot.py:39-60 | for two fixtures with rates 1.6/1.0 and 2.0/0.2, the message is the header, then A v B Likely at 2.6, then C v D Unlikely at 2.2 |
| `Digest.BuildDailyMessage` | football-bot/football_bot.py:39-60 | the loop's message equals the specification `DigestText` (header, then the first ten successful blocks in order, or the fallback line); the final count equals the number of blocks shown and is at most 10; the loop stops early only when ten fixtures have succeeded, and whenever ten have succeeded the last fixture it looked at was the tenth success, so no later fixture is processed; the message depends only on the fixtures it looked at |

## Left out

- HTTP requests and JSON decoding (lines 13-19, 22-23) and reading today's date. They are network and clock input. The team-statistics request is the parameter `Env.fetch`. The fixture list is the method's input.
- `get_today_fixtures` failures: a transport error there propagates out of `build_daily_message`. The code does not turn it into an empty list. The model covers only a fetched list; a missing "response" member is the empty list.
- Telegram delivery and the `start` and `id` command handlers (lines 62-70). They are messaging-library calls and async I/O.
- The scheduler and polling loop in `main` (lines 72-84). They are threads and concurrency.
- Reading the environment configuration (lines 9-11).
- Floating point and the `:.1f` formatting. Rates are exact reals. The rendered number is the parameter `Env.render`, and the string conversion `float(str)` is the parameter `Env.parse`.
- Which Python exception a bad fixture raises, and the JSON values other than those modelled (for example a total that is a list or a boolean). Every exception inside the `try` block is the single outcome `Fail`.
- Network calls made for a fixture that then fails on a later lookup (for example a missing team name). They have no effect on the message, and the model has no side effects to record them.
