# SYNAPSE leaderboard: a Dafny model

This project models and proves two parts of the SYNAPSE club site:

- **The leaderboard API** (`app.py`, a Flask application over SQLite). The four tables of interest become maps in one `Store` object:
  - `members`: id to name and avatar, with unique names;
  - `weekly_leaderboard`: (member id, Monday of the week) to stats;
  - `monthly_leaderboard`: (member id, `YYYY-MM`) to stats;
  - `admin_users`: username to account.

  The signed-in admin is an optional session user. Every route handler is a method of `Store` that either answers a query or changes the maps. Each method's contract gives:
  - the response for each branch (the 401 of `require_auth`, the 400 and 404 errors, success);
  - the complete new state of the tables.

  The leaderboard SELECT is specified by a predicate, `IsBoard`:
  - one entry per member, with that member's stats for the period or 0 where there are none;
  - `totalPoints` = 10·sessions + 20·assessments + bonus;
  - entries in non-increasing order of points.

  Several lemmas follow from it: the board is empty iff there are no members, its leader, the effect of an upsert, and that other periods are never seen.
- **The 3D neuron loader and the page helpers** (`script.js`). The loader is a `Loader` object. Its fields are:
  - the page globals: the scene, `model`, `isModelLoaded`, the timeout, `currentPathIndex`;
  - the paths tried so far and the load in flight.

  Its methods are the load, error, timeout and progress callbacks and one animation frame. `Valid()` ties these together:
  - paths are tried in list order, each once;
  - a pending timeout means nothing has been shown yet;
  - each of the two things that can show something (the timeout firing, the attempt chain ending) adds exactly one object;
  - `model` is the object added last.

  Four methods walk through whole event orders. `getRankEmoji`, the rendering of a leaderboard and the `success` check of `fetchFromAPI` are pure functions. Lemmas connect them to the server side:
  - a rendered board shows ranks 1..n with points never rising;
  - every server response passes the page's check exactly when it reports success.

Modules, one per file:

| file | module | models |
|---|---|---|
| `json_values.dfy` | `JsonValues` | JSON request keys (absent / null / value), truthiness, `dict.get`, the response envelope |
| `periods.dfy` | `Periods` | `get_week_start` on day numbers, `get_month_year` and its `YYYY-MM` text |
| `store.dfy` | `Leaderboard` | the tables, the SQL queries and every route of `app.py` |
| `loader.dfy` | `NeuronLoader` | the model-loading sequence of `script.js` and `createFallbackNeuron` |
| `page.dfy` | `LeaderboardPage` | `getRankEmoji`, `createLeaderboardItem`, `renderLeaderboard`, the `fetchFromAPI` check |

Inputs that come from the environment are method parameters:
- the current date: a day number for the weekly routes, a year and month for the monthly routes;
- JSON request bodies;
- the sequence of loader events, as calls to the event methods in a chosen order.

`hash_password` is an opaque function fixed when the store is created.

Three modelling choices:
- **Day numbers.** The week key is the Monday's day number in Python's proleptic Gregorian count (day 1 is Monday 0001-01-01). It stands for the ISO date text the source stores, and the two determine each other.
- **Tie order.** SQLite promises no order among rows with equal points. The board is therefore specified by a relation that admits every tie order, and the query method is shown to produce one such board.
- **Later loader callbacks still act once something is shown.** The loader keeps no flag that turns them into no-ops, and neither does the model. If the timeout fires first, a late success or a late exhaustion still adds a second object to the scene (`TimeoutThenLateSuccess`, `TimeoutThenExhaustion`).

## Model

| member | source | states |
|---|---|---|
| Periods.Weekday | app.py:139 | Python's `weekday()` of a day number is in 0..6, Monday being 0 |
| Periods.WeekStart | app.py:137-140 | the week key is a Monday, 0 to 6 days on or before today |
| Periods.WeekStartUnique | app.py:137-140 | any Monday at most six days back is the week key: the key is unique |
| Periods.SameWeek | app.py:137-140 | two dates share a week key exactly when the second lies in the seven days starting at the first's key |
| Periods.FourDigits | app.py:143 | `%Y` is four decimal digits |
| Periods.TwoDigits | app.py:143 | `%m` is two decimal digits |
| Periods.MonthKey | app.py:142-143 | the month key is seven characters, digits around a `-` at position 4 |
| Periods.FourDigitsValue | app.py:143 | the four digits of `%Y` read back as the year |
| Periods.MonthKeyRoundTrip | app.py:142-143 | parsing the month key gives back the year and month it was made from |
| Periods.MonthKeyInjective | app.py:77 | two months share a key iff they are the same month, so `UNIQUE(member_id, month_year)` holds one row per member and month |
| Leaderboard.PointWeights | app.py:134-135 | one more session adds 10 points, one more assessment 20, one more bonus point 1 |
| Leaderboard.CalculatePoints | app.py:134-135 | `calculate_points`; its weights are stated by `PointWeights`, and `ToEntry` shows it is the value the query orders by |
| Leaderboard.OrderKey | app.py:222-225 | the `ORDER BY` expression; `ToEntry` proves it equals the points shown for the row |
| Leaderboard.ToEnvelope | app.py:326-331 | `success` is true iff the response is a success, which carries its payload and no `error`; a failure has `success` false, its `error` message and no payload |
| Leaderboard.Coalesce | app.py:217-219 | `COALESCE(column, 0)` reads NULL as 0 |
| Leaderboard.ToEntry | app.py:231-239 | an entry copies the row's fields, and its `totalPoints` (`calculate_points`, app.py:134-135) equals the expression the query orders by |
| Leaderboard.JoinedRow | app.py:220-221 | the LEFT JOIN row of a member with no row for the period has all three stats 0 |
| Leaderboard.BoardInsertionPoint | app.py:222-225 | among rows by non-increasing points, a row's place is after every row with more points and before every other row |
| Leaderboard.SelectBoardRows | app.py:212-228 | the query returns each member exactly once, with that member's joined row, by non-increasing points |
| Leaderboard.AttachPoints | app.py:231-239 | the loop makes one entry per row, in order, each with its points added |
| Leaderboard.EntriesOfBoardRows | app.py:231-239 | entries made from the query's rows form a leaderboard |
| Leaderboard.QueryBoard | app.py:228-239 | the route's `data` is a leaderboard of the requested period |
| Leaderboard.BoardEmptyIff | app.py:220-221 | the board is empty iff there are no members |
| Leaderboard.BoardSize | app.py:220-221 | the board has exactly as many entries as there are members |
| Leaderboard.MemberOnBoard | app.py:212-221 | every member is on the board with its stats for the period |
| Leaderboard.BoardLeader | app.py:222-225 | the first entry has at least the points of every member |
| Leaderboard.BoardAfterUpsert | app.py:357-365 | after an upsert the member's entry shows exactly the stored stats (NULL as 0), and every other entry is unchanged |
| Leaderboard.OtherPeriodsIgnored | app.py:221 | a row written for another week or month does not change this period's board |
| Leaderboard.LexLessIrreflexive | app.py:294 | no name sorts before itself |
| Leaderboard.LexLessTransitive | app.py:294 | the name order is transitive |
| Leaderboard.LexLessTotal | app.py:294 | of two different names, one sorts before the other |
| Leaderboard.MemberInsertionPoint | app.py:294 | among names in strictly ascending order, a new name's place is after every smaller name and before every larger one |
| Leaderboard.SelectMemberRows | app.py:294 | `ORDER BY name` lists every member once, with its name and avatar, names strictly ascending |
| Leaderboard.ReplaceSpaces | app.py:314 | `replace(' ', '+')` keeps the length and swaps exactly the spaces for `+` |
| Leaderboard.DefaultAvatar | app.py:314 | the made-up avatar URL contains no space |
| Leaderboard.ChooseAvatar | app.py:314 | an absent `avatar` key gives the default URL, a null one stores NULL, and a sent string is stored as sent |
| Leaderboard.StatsOf | app.py:340-342 | a stat is stored as NULL exactly when it was sent as null; otherwise it reads (through `COALESCE`) as the sent number, or 0 when the key is absent |
| Leaderboard.NameTaken | app.py:47 | the `UNIQUE` name constraint: a name is taken iff some member has it; `AddMember` answers 400 "Member already exists" for it (app.py:330-331) |
| Leaderboard.WithoutMember | app.py:437-441 | `DELETE ... WHERE member_id = ?` removes exactly that member's rows and keeps every other row as it was |
| Leaderboard.Store.constructor | app.py:44-79 | fresh tables: no members, no stats, nobody signed in, the first member will get id 1, and the store invariant holds |
| Leaderboard.Store.CredentialsMatch | app.py:157-161 | the account row matches iff the username is an admin whose stored hash is the hash of the password; `Login` signs in exactly then |
| Leaderboard.Store.Login | app.py:147-179 | 400 when a credential is missing or empty; sets the session and answers the account only when the stored hash matches; 401 otherwise; the session changes only on success |
| Leaderboard.Store.Logout | app.py:181-188 | 401 `AUTH_REQUIRED` with nothing changed when signed out, else clears the session |
| Leaderboard.Store.AuthStatus | app.py:190-202 | `authenticated` iff there is a session user, and `user` is that user's name and role |
| Leaderboard.Store.GetWeeklyLeaderboard | app.py:206-246 | answers the current week's key and a leaderboard of that week |
| Leaderboard.Store.GetMonthlyLeaderboard | app.py:248-288 | answers the current month's key and a leaderboard of that month |
| Leaderboard.Store.GetMembers | app.py:290-300 | answers the member list in name order |
| Leaderboard.Store.AddMember | app.py:304-331 | 401 when signed out, 400 for a missing or empty name, 400 "Member already exists" for a taken name, all with nothing changed; otherwise one member under a fresh id, with the sent avatar, null, or the default URL only when the key is absent |
| Leaderboard.Store.UpdateWeeklyLeaderboard | app.py:333-372 | 401 / 400 for a missing or falsy `member_id` / 404 for an unknown member, all with nothing changed; otherwise exactly the (member, this week) row is set to the sent stats (absent ones 0, null ones NULL) and every other row is kept |
| Leaderboard.Store.UpdateMonthlyLeaderboard | app.py:374-413 | the same for the (member, this month) row |
| Leaderboard.Store.DeleteMember | app.py:424-451 | 401 / 404 with nothing changed; otherwise the member and all of its weekly and monthly rows are removed and nothing else changes |
| NeuronLoader.ClearTimeout | script.js:253 | a cleared timer is never pending, and clearing a timer that is not pending changes nothing |
| NeuronLoader.BuildNeuronGroup | script.js:102-166 | the group has 28 parts: body, glow shell, 20 spikes in order, axon, 5 terminals in order |
| NeuronLoader.NeuronPartsUnique | script.js:102-166 | any two fallback groups have the same parts in the same order |
| NeuronLoader.Loader.constructor | script.js:81-314 | at page start: only the lights and particles in the scene, no model, timeout pending, first path in flight |
| NeuronLoader.Loader.TryLoadModel | script.js:247-251 | records the path as tried and in flight |
| NeuronLoader.Loader.CreateFallbackNeuron | script.js:99-170 | the 28-part group becomes the model, is marked loaded and is added to the scene |
| NeuronLoader.Loader.LoadSucceeded | script.js:252-274 | clears the timeout, makes the loaded asset the model, marks it loaded, adds it to the scene, starts no further attempt |
| NeuronLoader.Loader.LoadFailed | script.js:299-310 | advances the index by one; tries the next path while one is left, else clears the timeout and adds the fallback |
| NeuronLoader.Loader.TimeoutFired | script.js:224-227 | a pending timeout fires once, adding the fallback; the attempt in flight goes on |
| NeuronLoader.ShowsProgress | script.js:291 | the progress guard; `ReportProgress` shows a percentage exactly when it holds |
| NeuronLoader.Loader.ReportProgress | script.js:290-298 | a percentage is shown only when the length is computable and the total positive |
| NeuronLoader.Loader.Frame | script.js:206-219 | every frame renders, and the model moves only when it is non-null and marked loaded |
| NeuronLoader.FailuresThenSuccess | script.js:299-304 | when the first k paths fail and the next loads, exactly paths 0..k are tried in order, only that asset is shown, and the timeout is cleared |
| NeuronLoader.AllPathsFail | script.js:305-309 | when all four paths fail, all are tried in order, one fallback is shown, and the timeout is cleared |
| NeuronLoader.TimeoutThenLateSuccess | script.js:224-264 | when the timeout fires before the first path loads, both the fallback and the asset end up in the scene, and the asset is the model |
| NeuronLoader.TimeoutThenExhaustion | script.js:224-308 | when the timeout fires and then every path fails, two fallback groups end up in the scene |
| LeaderboardPage.GetRankEmoji | script.js:428-435 | rank 1 gets the gold medal, 2 the silver, 3 the bronze, and every other rank is returned as itself |
| LeaderboardPage.RankBadgesDistinct | script.js:428-435 | two ranks get the same badge iff they are the same rank |
| LeaderboardPage.CreateLeaderboardItem | script.js:437-463 | an item shows the rank, the badge of that rank, and the member's avatar, name, sessions, assessments and points |
| LeaderboardPage.RenderLeaderboard | script.js:465-488 | the empty state iff the list is empty; otherwise item i has rank i+1, its badge, and the entry's name, avatar, stats and points |
| LeaderboardPage.RenderedBoard | script.js:480-487 | a server board renders as the empty state iff there are no members; otherwise one row per member, gold medal first, points never rising |
| LeaderboardPage.CheckEnvelope | script.js:354-356 | a body passes iff `success` is true; otherwise the message is the non-empty `error`, or "API request failed" |
| LeaderboardPage.ResponsesSurface | script.js:354-356 | every server response passes iff the server meant success, with its payload, and a failure carries the server's non-empty message |

## Left out

- Rendering, lights, camera, controls and GLTF parsing. These are library code. The scene holds symbolic objects: the lights, the particle field, a loaded asset named by its path, and the fallback group's parts.
- Floating-point geometry: the asset's recentring and scaling, the material tint, and the spike and terminal positions.
- NeuronLoader.Loader.ReportProgress: records the loaded and total byte counts behind the percentage instead of the floored float percentage.
- Timers as time. The 5-second timeout is an event that may come at any point while it is pending. The loading-text fades and the 2-minute auto-refresh are left out.
- NeuronLoader.Loader.LoadSucceeded: a load callback is accepted only for the load in flight. A loader never calls back twice, and callbacks for paths that were not requested cannot occur.
- DOM glue: the menu toggle, scroll reveal, tabs, the resize debounce, the visibility handler and the timestamp text.
- LeaderboardPage.RenderLeaderboard: the HTML text and the CSS animation delay are left out. An item is the record of the values the markup shows. The branch for a missing container only logs and is left out.
- The medal literals of `getRankEmoji` are kept character for character as the source text holds them. That text is the medal emoji's UTF-8 bytes read as single-byte characters.
- `fetchFromAPI`'s network call and the wrappers around it. Their paths do not match the Flask routes, for example `/members` against `/api/admin/members`. The increment endpoints they call do not exist in `app.py`. Only the `success` check is modelled, along with how the server's responses meet it.
- The audit log (`log_action` and the `audit_log` table), `print`, the secret key, CORS and the seeding of the default admin in `init_db`. The `/api/health` route is left out too: it only reports the clock.
- SHA-256. `hash_password` is an opaque function.
- Leaderboard.Store.UpdateWeeklyLeaderboard: stats and ids are JSON integers or null. JSON strings, floats and booleans in those keys and SQLite's 64-bit integer range are not modelled. Neither are malformed or non-object request bodies.
- Leaderboard.Store.UpdateMonthlyLeaderboard: the same limits as the weekly update.
- Leaderboard.Store.AddMember: `name` and `avatar` are JSON strings or null. A truthy non-string `name` (a number, a list) makes `name.replace` raise, because the default URL is built even when `avatar` is sent. A list or object `avatar` fails to bind in the INSERT, an error that is not an `IntegrityError`. These end in an uncaught server error (500), which is not modelled. A number or boolean `avatar` is stored as text (the `avatar TEXT` column, app.py:48) and answered as sent; the model's avatar is a string or null and does not cover it. A falsy non-string `name` (`0`, `false`) gives the 400, like an empty one.
- Leaderboard.Store.Login: `username` and `password` are JSON strings or null. A truthy non-string `password` makes `hash_password` raise on `encode`, an uncaught server error (500) that is not modelled. So does a list or object `username`, which the query cannot bind.
- Periods.WeekStart: gives the Monday as a day number; the conversion to ISO `YYYY-MM-DD` text is not modelled.
- Periods.MonthKey: years 1 to 9999, the range of Python's `datetime`, written as four zero-padded digits.
- Leaderboard.Store.AddMember: a failed insert consumes no AUTOINCREMENT id. Ids are modelled as one counter that only grows.
- Leaderboard.SelectMemberRows: `ORDER BY name` is SQLite's BINARY collation, modelled as code-point order on the name's characters.
