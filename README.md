# Task-list client: state model

This project models the state logic of a browser to-do client. The client
logs a user in and keeps a session token. It loads that user's tasks and
creates, deletes and updates them, one request at a time. It also derives the
visible list from a status filter and a priority filter.

The model has five modules:

- `JsValues` holds the JavaScript rules the client relies on. These are the
  truthiness of a string that may be absent, and the `a || b` fallback.
- `TaskList` covers the task collection as a value and its whole-list
  transformations. These are the stable filter used both for deleting and for
  the visible list, the replace-by-`_id` map, the status toggle and the
  normalisation of the list response.
- `AppState` holds the `App` component as a class. Its fields are the token,
  the tasks and the two filter selections, and there is one method per handler.
  Browser storage is a separate `Storage` class with one optional "token" entry,
  because both pages share it.
- `Login` holds the login page's `login` handler as a class. Its fields are
  `authLoading` and `authError`. On success it writes the parent's token and
  the stored token.
- `Scenarios` holds client methods. They drive the model the way the page does
  and prove what a user observes, using only the contracts.

Every server reply is a method parameter. The request a handler would send is
returned as a value: its bearer token, its body and the id it targets.

## Model

| member | source | states |
|---|---|---|
| `JsValues.Or` | src/App.js:12 | `a \|\| b` on an optional string: the value when present and non-empty, otherwise the fallback |
| `JsValues.OrEmptyIsDefault` | src/App.js:12 | `getItem("token") \|\| ""` is the stored value when there is one and "" otherwise |
| `TaskList.Filter` | src/App.js:85-89 | a filter's result is no longer than its input and holds exactly the input tasks the criterion keeps |
| `TaskList.FilterIsSubsequence` | src/App.js:85-89 | a filter keeps the relative order of the tasks it keeps |
| `TaskList.FilterCount` | src/App.js:85-89 | a filter keeps every occurrence of a kept task and none of a dropped one |
| `TaskList.FilterConcat` | src/App.js:55 | filtering a concatenation is the concatenation of the filtered parts |
| `TaskList.FilterKeepsAll` | src/App.js:85-89 | a filter that keeps every task returns the list unchanged |
| `TaskList.Visible` | src/App.js:85-89 | the visible list is a subsequence of the tasks and holds exactly the tasks (with multiplicity) whose status matches or the status filter is "all", and whose priority matches or the priority filter is "all" |
| `TaskList.VisibleAllIsEverything` | src/App.js:85-89 | with both filters at "all" the visible list equals the task list |
| `TaskList.VisibleAppend` | src/App.js:85-89 | an appended task appears at the end of the visible list exactly when it passes both filters |
| `TaskList.Without` | src/App.js:55 | after deleting an id no task has it; every other task is kept with its multiplicity, in its original relative order |
| `TaskList.WithoutIdempotent` | src/App.js:55 | deleting the same id twice is the same as deleting it once |
| `TaskList.WithoutUndoesAppend` | src/App.js:47-55 | deleting the id of a just-appended task gives back the earlier list without that id |
| `TaskList.ReplaceById` | src/App.js:69 | the length is unchanged; each position holding the id now holds the returned task, and every other position is unchanged |
| `TaskList.ReplaceAbsent` | src/App.js:82 | when no task has the id, the update leaves the list unchanged |
| `TaskList.ReplaceThenWithout` | src/App.js:69 | an update that keeps the id is forgotten by a later delete of that id |
| `TaskList.Toggle` | src/App.js:59 | "pending" maps to "completed" and every other value to "pending"; the target always differs from the current status |
| `TaskList.ToggleTwice` | src/App.js:59 | toggling twice gives back the original value exactly for "pending" and "completed" |
| `TaskList.ToggleTaskTwice` | src/App.js:58-69 | two status updates on a task with a unique id, answered by a server that echoes the requested status, restore the list |
| `TaskList.Normalize` | src/App.js:24 | an array reply is taken unchanged; an object with a truthy `tasks` yields that field; any other object yields the empty list; a `null` body throws |
| `TaskList.NormalizeEnvelopes` | src/App.js:24 | a list in either envelope normalises back to itself |
| `AppState.Storage.constructor` | src/App.js:12 | storage starts with the entry it was given |
| `AppState.Storage.SetItem` | src/Login.js:34 | writing the entry stores that value |
| `AppState.Storage.RemoveItem` | src/App.js:33 | removing the entry leaves no stored token |
| `AppState.InitialToken` | src/App.js:12 | the initial token is the stored one, or "" when there is none; it is non-empty exactly when the stored token is truthy |
| `AppState.App.constructor` | src/App.js:12-15 | on mount the token is read from storage, the list is empty and both filters are "all" |
| `AppState.App.FilteredTasks` | src/App.js:85-89 | the rendered list is a subsequence of the tasks and holds exactly (with multiplicity) the tasks that pass both filters; it is all of them when both filters are "all" |
| `AppState.App.SetToken` | src/App.js:214 | the setter passed to the login page sets the token and nothing else |
| `AppState.App.FetchTasks` | src/App.js:17-25 | lists with the given bearer; the new collection is the normalised reply, and a `null` body changes nothing |
| `AppState.App.OnTokenChange` | src/App.js:27-29 | a list request is sent, with the current token, exactly when the token is non-empty; otherwise the tasks stay as they were |
| `AppState.App.Logout` | src/App.js:31-35 | the token becomes "", the stored token is removed and the list is emptied; the filters are untouched |
| `AppState.App.AddTask` | src/App.js:37-48 | the request carries the text with status "pending" and priority "medium"; the list grows by one, keeps its old prefix and ends with the returned task |
| `AppState.App.DeleteTask` | src/App.js:50-56 | the request names the id; the list becomes the old list without that id |
| `AppState.App.UpdateTaskStatus` | src/App.js:58-70 | the request asks for the toggle of the status the caller saw; every task with the id is replaced by the returned task |
| `AppState.App.UpdateTaskPriority` | src/App.js:72-83 | the request asks for the given priority; every task with the id is replaced by the returned task |
| `AppState.App.SetFilterStatus` | src/App.js:138 | the status selection takes the chosen value and nothing else changes |
| `AppState.App.SetFilterPriority` | src/App.js:147 | the priority selection takes the chosen value and nothing else changes |
| `Login.FailureMessage` | src/Login.js:37 | the error is the service's message when it is truthy, otherwise "Login failed", so it is never empty |
| `Login.LoginForm.constructor` | src/Login.js:4-6 | the page starts with no error and not loading, and acts on the parent it is given; its token writes go to the same storage the parent reads and clears |
| `Login.LoginForm.Begin` | src/Login.js:19-21 | starting an attempt sets loading and clears the error |
| `Login.LoginForm.Complete` | src/Login.js:29-38 | loading ends whatever the outcome; a truthy token sets the app token and the stored token to that value; otherwise the error is the failure message and both tokens are left as they were |
| `Login.LoginForm.Submit` | src/Login.js:19-38 | a whole attempt: on success the error stays "", on failure it is non-empty and no token changes |
| `Scenarios.LoginLoadFilterLogout` | src/App.js:27-35 | logging in with token "T1" and loading one pending task leaves nothing visible under status filter "completed"; after logout a remount starts with the token "" |
| `Scenarios.FailedLoginKeepsSession` | src/Login.js:36-38 | a failed login with an empty message shows "Login failed" and keeps the earlier token |
| `Scenarios.CreateToggleDelete` | src/App.js:37-70 | creating, toggling and deleting one task on an empty list ends with an empty list |

## Left out

- Network I/O is not modelled: `fetch`, URLs, headers other than the bearer token, and JSON decoding. Each reply is a parameter, and each request is returned as a `Call` or `Credentials` value.
- HTTP status codes and rejected requests are not modelled. The code never checks the status, and the model follows the code: a delete removes the task whatever the server answered. A client that left the state unchanged on a failed call would differ here.
- Async interleaving is not modelled. The handlers read the `tasks` value captured when they were called, so overlapping requests can lose updates. Each handler is modelled as one atomic step on the current state.
- A reply that arrives after logout is not fully modelled. A late list reply is modelled by calling `FetchTasks` on the logged-out state. A late create, delete or update reply is not: the code builds the new list from the `tasks` value captured before logout, so it brings back the pre-logout list with one task added, removed or replaced. The model applies these handlers to the current list and cannot express that.
- Rendering, routing and `navigate("/")` are not modelled. The same goes for the font stylesheet injected by the login page, `console.log`, and the `Signup` page, which is not part of this model.
- `localStorage` is reduced to its single "token" entry.
- Reply shapes outside the model's types are left out. These are a truthy `tasks` field that is not an array, a create or update reply without a `task` field (the code would append or insert `undefined`), and a login `token` that is not a string. A `null` body is also left out for create and update, and for login. For create and update, destructuring `null` throws before the list is set. For login, reading `data.token` throws after loading is cleared, so no error is shown.
- The status update takes the status the caller saw (the rendered task's status), as the code does. It does not look up the task's status in the current list, so a stale caller status yields a stale toggle target.
- Status and priority are kept as raw strings, because the code compares raw strings and never checks them against a fixed set of values.
