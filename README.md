# Task tracker: store and request handling

This project models the core of `TaskTracker.py`. That file is a small HTTP
service: clients create tasks with a title and a priority, list them, and mark
one done by id. The state is an ordered list of task records plus an id
counter. A create appends a task under the counter's value and advances the
counter. A complete flips `isDone` on the first task with the given id. A
reload from the tasks file sets the counter to the largest stored id plus one.

Layout:

- `wrappers.dfy`: module `Wrappers`, an `Option` type.
- `paths.dfy`: module `Paths`. It holds Python's `str.split("/")` (`Split`)
  and its inverse `"/".join` (`Join`), the prefix and suffix tests, and the
  integer parse `int(...)` (`ParseInt`) with its printing counterpart `str(...)`
  (`ShowInt`).
- `tasks.dfy`: module `Tasks`, the state as a value. `Store(tasks, nextId)`
  stands for the globals `TASKS` and `NEXT_TASK_ID`. It has one step function per handler. `CreateStep`, `CompleteStep` and
  `PostStep` give the next state together with the response sent. `LoadStep`
  gives only the next state, and `GetStep` only the response, since a GET
  changes nothing. `Error` is
  `_error`: a status with the JSON body `{"error": msg}`. `NoPayload` is the
  bare response with an empty body that `complete_task` sends.
- `properties.dfy`: module `Properties`, the lemmas about those steps.
- `server.dfy`: module `Server`. Class `TaskServer` holds the globals as the
  fields `tasks` and `nextId`, and the tasks file as the field `disk`. Its
  methods update them in place, as the source does. Each method is proved to
  reach the state and response of the matching step function. `CompleteTask`
  holds the scan loop of `complete_task`.

Three behaviours of the code are easy to overlook. The model keeps each of them:

- A task's title is not checked. Any JSON value under `"title"` is stored as it came.
- An empty JSON object `{}` is falsy in Python, so it is rejected with
  "JSON body is required", the same as a missing body.
- A reload of a file holding an empty list keeps the counter's current value
  rather than resetting it to 1. At start-up that value is 1 anyway.

## Model

| member | source | states |
|---|---|---|
| `Paths.Split` | TaskTracker.py:102 | `path.split("/")` always yields at least one piece, and no piece contains a separator |
| `Paths.JoinSplit` | TaskTracker.py:102 | joining the pieces of a split with `/` gives back the original path |
| `Paths.SplitJoin` | TaskTracker.py:102 | splitting a `/`-join of separator-free pieces gives back exactly those pieces, so split and join are inverse |
| `Paths.SplitAtSep` | TaskTracker.py:102 | the text before and after a separator split independently, and their pieces are concatenated |
| `Paths.SplitSegment` | TaskTracker.py:102 | a string with no separator splits into itself alone |
| `Paths.ShowNat` | TaskTracker.py:111 | the decimal printing of a natural number is a non-empty run of digits |
| `Paths.ShowInt` | TaskTracker.py:111 | a printed integer never contains a separator, so it fits in one path segment |
| `Paths.DigitsValueShowNat` | TaskTracker.py:111 | the digits printed for `n` have value `n` |
| `Paths.DigitsValueLeadingZero` | TaskTracker.py:111 | a leading `0` does not change the value of a run of digits |
| `Paths.ParseIntNonCanonical` | TaskTracker.py:111 | `int` gives the same number for a spelling with a leading `0` or a `+` sign, and the negated number for a `-` sign; with `ParseShowInt` this fixes the value of every accepted string |
| `Paths.ParseShowInt` | TaskTracker.py:111 | `int(str(n)) == n` for every integer, negative ones included |
| `Tasks.PriorityOf` | TaskTracker.py:84 | exactly the strings `low`, `normal` and `high` are accepted as priorities, and the accepted priority is the one whose name was sent |
| `Tasks.FirstIndexOf` | TaskTracker.py:117-118 | the scan stops at a task with the id, and every earlier task has a different id; it finds nothing exactly when no task has the id |
| `Tasks.MaxId` | TaskTracker.py:24 | `max` of the ids is the id of some task and no task's id exceeds it |
| `Paths.StartsWith` | TaskTracker.py:65 | `startswith` holds exactly when the path is the prefix followed by the rest of the path |
| `Paths.EndsWith` | TaskTracker.py:65 | `endswith` holds exactly when the path is the rest of the path followed by the suffix |
| `Paths.ParseInt` | TaskTracker.py:111 | `int(...)` succeeds exactly on digits with an optional leading sign; a parsed segment holds no separator, and a negative result was written with `-` |
| `Tasks.Error` | TaskTracker.py:46-47 | `_error` answers the given status with the body `{"error": msg}` |
| `Tasks.ValidateCreate` | TaskTracker.py:74-85 | the body is accepted if and only if it is present and non-empty, has both keys and a valid priority; an accepted body yields the title sent and the priority named; a rejection carries one of the three messages |
| `Tasks.CreateStep` | TaskTracker.py:71-98 | a create answers 200 or 400; a 400 leaves the state unchanged and carries an error body; a 200 appends exactly one task, returns that task and adds one to the counter; earlier tasks are untouched |
| `Tasks.MarkDone` | TaskTracker.py:119 | the task at the position becomes done with its other fields unchanged; every other task and the length stay the same |
| `Tasks.ParseCompletePath` | TaskTracker.py:102-111 | an id comes out exactly when the path splits into four pieces and the third parses as an integer, and it is that integer |
| `Tasks.CompleteId` | TaskTracker.py:117-126 | the answer is 200 exactly when the id is stored, and otherwise a 404 that changes nothing; the length, the counter and every task apart from its done flag stay as they were; the body is empty |
| `Tasks.CompleteStep` | TaskTracker.py:100-126 | the answer is 200 exactly when the path yields an id that is stored, and otherwise a 404 that changes nothing; only done flags can change; the body is empty |
| `Tasks.LoadStep` | TaskTracker.py:17-24 | with no file nothing changes; otherwise the list becomes the file's; an empty list keeps the counter; a non-empty one sets it to one past an id that is stored and above every stored id |
| `Tasks.GetRoute` | TaskTracker.py:52-55 | GET routes to the list exactly for `/tasks` and nowhere else |
| `Tasks.GetStep` | TaskTracker.py:49-55 | GET `/tasks` answers 200 with the current list; every other GET path answers 404 with `{"error": "Not found"}` |
| `Tasks.PostRoute` | TaskTracker.py:60-69 | POST routes to create exactly for `/tasks`, and to complete exactly for the other paths that start with `/tasks/` and end with `/complete` |
| `Tasks.PostStep` | TaskTracker.py:57-69 | a POST answers 200, 400 or 404; anything but 200 leaves the state unchanged; stored tasks keep id, title and priority and stay done once done; at most one task is added and the counter grows by at most one |
| `Properties.CreateSucceedsIff` | TaskTracker.py:74-85 | a create succeeds if and only if the body is present and non-empty, has both `title` and `priority`, and the priority is one of the three names |
| `Properties.CreateRejects` | TaskTracker.py:74-85 | a failed create answers 400 and leaves the state unchanged; it gives "JSON body is required" for an absent or empty body, the fields message when a key is missing, and the priority message when the priority is none of the three names |
| `Properties.CreateAppends` | TaskTracker.py:87-98 | a successful create returns a not-done task with the old counter as id and the title and priority that were sent; the task is appended after every earlier task, which stay as they were, and the counter grows by one |
| `Properties.CreateAcceptsWellFormed` | TaskTracker.py:78-85 | a body with a title and a valid priority name passes validation with exactly that title and priority |
| `Properties.CreateKeepsFresh` | TaskTracker.py:87-95 | if every stored id is below the counter, this still holds after a create, and the id handed out belongs to no stored task |
| `Properties.CreateKeepsIdsIncreasing` | TaskTracker.py:87-95 | ids that increase along the list keep increasing after a create |
| `Properties.CompleteRejectsPath` | TaskTracker.py:102-115 | a path that does not split into four pieces, or whose third piece is not an integer, gets a bare 404 and the state is unchanged |
| `Properties.CompleteMissing` | TaskTracker.py:117-126 | completing an id that no task has gets a bare 404 and the state is unchanged |
| `Properties.CompleteMarksFirst` | TaskTracker.py:117-123 | completing a stored id answers 200 and sets `isDone` on the first task with that id; other tasks, that task's other fields, the list length and the counter stay the same |
| `Properties.FirstIndexOfSameIds` | TaskTracker.py:117-118 | two lists with the same ids in the same order make the scan stop at the same position |
| `Properties.CompleteIdempotent` | TaskTracker.py:117-123 | completing the same path a second time gives the same response as the first and leaves the state the first reached |
| `Properties.CompleteKeepsFresh` | TaskTracker.py:117-119 | if every stored id is below the counter, this still holds after a complete |
| `Properties.LoadKeepsFresh` | TaskTracker.py:17-24 | if every stored id is below the counter before a load, this still holds after it, whatever the file holds |
| `Properties.RestartThenCreate` | TaskTracker.py:19-24 | after a restart that loads a saved non-empty list, the list comes back as saved, and the next create gets the largest saved id plus one, an id that no saved task has |
| `Properties.PostDispatch` | TaskTracker.py:57-69 | POST `/tasks` is a create; any other path that starts with `/tasks/` and ends with `/complete` is a complete of that path; every other POST path answers 404 "Not found" and changes nothing |
| `Properties.SplitFramed` | TaskTracker.py:102 | a path `/a/m/c`, with `a` and `c` free of separators, splits into the empty piece, `a`, the pieces of `m` and `c` |
| `Properties.SplitCompletePath` | TaskTracker.py:102-105 | `/tasks/<m>/complete` splits into `""`, `tasks`, the pieces of `m` and `complete` |
| `Properties.ShortCompleteRoute` | TaskTracker.py:65 | a path shorter than 16 characters that passes both route tests splits into fewer than four pieces |
| `Properties.CompleteRouteShape` | TaskTracker.py:65-66 | a POST path that reaches `complete_task` and passes its four-piece check is exactly `/tasks/<third piece>/complete` |
| `Properties.PostCompletesId` | TaskTracker.py:100-111 | POST `/tasks/<n>/complete`, with `n` written in decimal, completes the task with id `n` |
| `Properties.BuyMilkCreated` | TaskTracker.py:71-98 | on a fresh server, creating "Buy milk" with priority high returns task 1, not done, and stores it |
| `Properties.BuyMilkCompleted` | TaskTracker.py:117-123 | then POST `/tasks/1/complete` answers 200 and marks that task done |
| `Properties.BuyMilkScenario` | TaskTracker.py:52-53 | create, complete, then GET `/tasks` lists the single task with id 1 marked done |
| `Server.TaskServer.constructor` | TaskTracker.py:8-9 | the process starts with an empty list and the counter at 1 |
| `Server.TaskServer.Save` | TaskTracker.py:12-14 | the file afterwards holds exactly the current list |
| `Server.TaskServer.Load` | TaskTracker.py:17-24 | the in-place load reaches the state of `LoadStep` from the file on disk, and keeps every id below the counter |
| `Server.TaskServer.DoGet` | TaskTracker.py:49-55 | a GET changes nothing; `/tasks` answers 200 with the current list and any other path answers the JSON 404 |
| `Server.TaskServer.CreateTask` | TaskTracker.py:71-98 | the in-place create reaches the state and response of `CreateStep`; the file is rewritten exactly on success; ids stay below the counter |
| `Server.TaskServer.CompleteTask` | TaskTracker.py:100-126 | the scan loop reaches the state and response of `CompleteStep`; the file is rewritten exactly when a task was found; ids stay below the counter |
| `Server.TaskServer.DoPost` | TaskTracker.py:57-69 | the in-place POST dispatch reaches the state and response of `PostStep`; the file is rewritten exactly when the answer is 200; ids stay below the counter |
| `Server.Start` | TaskTracker.py:129-130 | at start-up the server loads the file into the initial state, and every loaded id is below the counter |

## Left out

- The HTTP server, sockets, headers, `Content-Length`, and `run`/`serve_forever` beyond the initial load. A response is modelled as a status plus a structured payload. JSON text encoding and decoding are left out too.
- `urlparse`: handlers receive the path already taken out of the URL, so a query string is not modelled.
- `_read_json_body` is modelled by its result. A body is `None` when it is empty or does not parse, and otherwise the decoded JSON object. A body that decodes to a falsy non-object value (`null`, `false`, `0`, `""`, `[]`) takes the same path as `None`. A truthy non-object body is not modelled. The source treats such bodies unevenly. A non-empty list or string is tested for membership of `title` and `priority` at line 78. Without both it gets the 400 fields message, and with both the lookup at line 81 raises `TypeError`. A non-zero number or `true` makes line 78 raise `TypeError`.
- JSON numbers are integers here. Floating-point values (a title `1.5`, an id `1.0` in the file) are not modelled.
- `Paths.ParseInt`: it accepts an optional `+` or `-` followed by ASCII decimal digits. Python's `int` also accepts surrounding whitespace, `_` between digits and non-ASCII digits. Those inputs are not modelled.
- File I/O: the tasks file is the field `disk`, holding a list of tasks in the model's own form, or `None` when the file is absent. Other file contents are not modelled. A falsy JSON value such as `{}` or `null` loads without error: it replaces the list and keeps the counter, and later requests then misbehave. A list of dictionaries with numeric ids loads whatever their other fields hold, a priority such as `"urgent"` included. Non-numeric or mixed ids make `max` raise at line 24. A file that is not JSON, or any other truthy value whose entries are not all dictionaries with an `id`, makes the load raise. A crash in the middle of a write is not modelled either.
- Aliasing between the task dictionary returned by a create and the one stored in the list is not modelled. The response is serialised before any later request could change that dictionary.
- Concurrency: the server handles one request at a time.
