# Calorie tracker: server store and client food log

A model of the two stateful pieces of a small calorie-tracking web application.

- **Server** (`server.dfy`, module `Server`): the REST backend. Its user store is a map
  from user id to a user record holding username, email, password digest, calorie goal
  and food list (`Store.users`). The route handlers are methods of `Store`: signup,
  login, profile, get/add foods, get/set goal and saveAll. Each one returns an HTTP
  status with its JSON body (`Reply`). The auth middleware is the pure function `Auth`.
  It takes the token as the second space-separated field of the `Authorization` header
  and asks a verification oracle for the user id. `Store.Handle` runs it in front of
  every data route. saveAll's input checks (`CheckSaveAll`) and its per-entry
  normalisation (`NormalizeFood`, `NormalizeAll`) are pure functions.
- **Client** (`app.dfy`, module `App`): the page's component state is the class
  `FoodLog`. Its fields are the in-memory entries, the add-food form, the daily goal and
  the goal form. Its methods are the page's handlers: addFood, deleteFood, updateGoal,
  clearToday and loadUserData. The derived views are pure functions of the entry list:
  today's entries, the total, per-meal entries and subtotals, and the capped progress
  percentage. The saveAll payload (entries without their client-local ids) is also a
  pure function.
- **Sync** (`sync.dfy`): lemmas that connect the two sides. They cover what the server
  stores from a client save, when the client's save body passes the server's checks,
  and how the client's header meets the auth middleware.
- `wrappers.dfy` holds the `Option` type.

Oracles and parameters:
- Password hashing is a parameter `hash: string -> Digest`.
- Password comparison is a parameter `compare: (string, Digest) -> bool`.
- Token signing is a parameter `sign: UserId -> string`.
- Token verification is a parameter `verify: string -> Option<UserId>`.
- The id the database gives a new user is passed in.
- The current date ("today") is passed in.
- The client's fresh entry ids are passed in.

Behaviour of the code that the model keeps as written:
- POST /api/goal stores any goal value with no bounds check (backend/server.js:128). So
  the store invariant (`Store.Valid`) is email uniqueness plus the schema's required
  username and email, and says nothing about the goal's sign.
- The middleware never compares the scheme word of the header with `Bearer`
  (`Server.SchemeIgnored`).
- A missing token gives 401 (backend/server.js:67-69). A token that fails verification
  gives 403 (backend/server.js:72-75).
- saveAll answers 404 for an unknown user (backend/server.js:157), but only after its
  checks and its normalisation.
- saveAll answers 500 when an element of `foods` is null: reading the element's name
  throws during the normalisation (backend/server.js:149-150). The normalisation runs
  before the user lookup, so this 500 wins over 404.

## Model

| member | source | states |
|---|---|---|
| `Server.Split` | backend/server.js:65 | `split(' ')` gives at least one piece; the pieces contain no space, and joined with single spaces they give back the header |
| `Server.SplitJoin` | backend/server.js:65 | splitting a string built from space-free pieces returns exactly those pieces (round trip with `Join`) |
| `Server.BearerToken` | backend/server.js:64-65 | the extracted token, when there is one, is non-empty and space-free |
| `Server.Auth` | backend/server.js:63-80 | the gate answers 401 exactly when no token can be extracted, lets the request through exactly when a token was extracted and verifies, passes on the id that verification gives, and otherwise answers 403 |
| `Server.SecondFieldDecides` | backend/server.js:64-79 | for a header of space-separated fields, the outcome depends only on the second field: empty gives 401, otherwise the verifier decides between 403 and the decoded id, whatever the scheme word and any later fields |
| `Server.NoSecondField` | backend/server.js:64-70 | a missing header, or a header with no space in it, gives 401 |
| `Server.SchemeIgnored` | backend/server.js:65 | any space-free scheme word gives the same outcome as "Bearer" |
| `Server.IssuedTokenAuthorizes` | backend/server.js:55 | a token signed for a user id, sent back as "Bearer <token>", is granted as that same user whenever the verifier accepts its own tokens |
| `Server.CheckSaveAll` | backend/server.js:140-146 | the body passes exactly when `foods` is an array and `calorieGoal` is a number > 0; every rejection is 400; the foods check comes first |
| `Server.NormalizeFood` | backend/server.js:149-154 | with a non-empty today, the result is in stored form; name is kept (missing gives ""), numeric calories are kept (anything else gives 0), a non-empty meal is kept (else "breakfast"), a non-empty date is kept (else today) |
| `Server.NormalizeFixpoint` | backend/server.js:149-154 | normalisation leaves an entry unchanged if and only if the entry is already in stored form |
| `Server.NormalizeIdempotent` | backend/server.js:149-154 | normalising twice gives the same entry as normalising once |
| `Server.NormalizeAll` | backend/server.js:149-154 | the map fails exactly when some element is null; otherwise it keeps length and order and normalises each element |
| `Server.NormalizeAllIdempotent` | backend/server.js:149-161 | the list saveAll stores is in stored form, and saving it again stores the same list |
| `Server.Store.FindByEmail` | backend/server.js:37 | returns a user with that email, or nothing exactly when no user has it |
| `Server.Store.Signup` | backend/server.js:34-46 | an existing email gives 400 "User already exists" and no change; otherwise an empty username or email (which the schema rejects) or an id clash gives 500 and no change; otherwise exactly one user is added (goal 2000, no foods, the digest of the password) and 201 is returned; email uniqueness and the required fields are preserved |
| `Server.Store.Login` | backend/server.js:48-60 | 200 exactly when a user with that email exists and the password matches its digest, with a token signed for that user's id; every failure is the same 400 "Invalid credentials" |
| `Server.Store.Profile` | backend/server.js:88-97 | 404 for an unknown id; otherwise the user's fields without the password digest |
| `Server.Store.GetFoods` | backend/server.js:100-104 | 404 for an unknown id; otherwise exactly the user's stored food list |
| `Server.Store.AddFood` | backend/server.js:107-114 | 404 and no change for an unknown id; otherwise the entry is appended at the end of that user's list, unchecked, and nothing else changes |
| `Server.Store.GetGoal` | backend/server.js:117-121 | 404 for an unknown id; otherwise the user's goal |
| `Server.Store.SetGoal` | backend/server.js:124-131 | 404 and no change for an unknown id; otherwise only that user's goal is replaced, with no bounds check |
| `Server.Store.SaveAll` | backend/server.js:134-169 | a failed check gives its 400 and no change, even for an unknown user; a null element gives 500 and no change; an unknown user gives 404 and no change; otherwise that user's foods become exactly the normalised list and the goal the new goal, every other user unchanged |
| `Server.Store.Handle` | backend/server.js:63-79 | a request the gate denies gets the gate's 401/403 and changes nothing; a granted request gets exactly the reply and new store of the route's handler run as the user the token names (404 and no change for an unknown user, saveAll's 400 and 500 first); no other user changes and no user is added or removed; the read routes change nothing |
| `App.Filter` | frontend/src/App.jsx:100 | the filtered list is no longer than the original and holds an entry exactly when the original holds it and the predicate accepts it |
| `App.FilterNone` | frontend/src/App.jsx:113 | a filter whose predicate accepts no entry of the list gives the empty list |
| `App.Sum` | frontend/src/App.jsx:117 | the fold of calories is 0 on the empty list and never negative on entries with non-negative calories |
| `App.SumAppend` | frontend/src/App.jsx:117 | the fold of calories over a concatenation is the sum of the folds of the two parts |
| `App.SumFilterBound` | frontend/src/App.jsx:125-130 | for entries with non-negative calories, the fold over a filtered list lies between 0 and the fold over the whole list |
| `App.FilterCount` | frontend/src/App.jsx:100 | a filter keeps every copy of each kept entry and no copy of the others |
| `App.FilterAppend` | frontend/src/App.jsx:100 | filtering distributes over concatenation, so the kept entries stay in their original order |
| `App.TodayFoods` | frontend/src/App.jsx:111-114 | the result holds exactly the entries dated today |
| `App.TotalCalories` | frontend/src/App.jsx:116-118 | today's total is never negative when no entry has negative calories, and is 0 when no entry is dated today; how it changes when an entry is added is `App.AppendToTotal`, and its split by meal is `App.MealCaloriesAddUp` |
| `App.MealFoods` | frontend/src/App.jsx:124-126 | the result holds exactly today's entries for that meal |
| `App.MealCalories` | frontend/src/App.jsx:128-130 | for entries with non-negative calories, a meal's subtotal lies between 0 and today's total; it is 0 when no entry of today has that meal |
| `App.MealPartition` | frontend/src/App.jsx:124-130 | when every entry has one of the four meals, the four per-meal folds add up to the fold over all the entries |
| `App.MealCaloriesAddUp` | frontend/src/App.jsx:116-137 | when every entry of today has one of the four meals, the four meal subtotals add up to today's total |
| `App.AppendToTotal` | frontend/src/App.jsx:116-118 | appending an entry dated today raises the total by its calories; an entry of another day leaves the total unchanged |
| `App.ProgressPercentage` | frontend/src/App.jsx:120-122 | never above 100; exactly total*100/goal when that is below 100, else 100; not negative for a positive goal and a non-negative total |
| `App.WithoutId` | frontend/src/App.jsx:99-101 | removes every entry with the id and keeps every other entry with its multiplicity |
| `App.NotOn` | frontend/src/App.jsx:132-135 | removes exactly today's entries, keeps every other entry with its multiplicity, and leaves nothing for today |
| `App.SavePayload` | frontend/src/App.jsx:147-152 | the payload has one record per entry |
| `App.Attach` | frontend/src/App.jsx:44-47 | one entry per server record |
| `App.PayloadRoundTrip` | frontend/src/App.jsx:147-152 | the i-th record is the i-th entry without its id; attaching the ids again gives the log back, and stripping attached ids gives the records back |
| `App.SaveAllRequest` | frontend/src/App.jsx:139-170 | nothing is sent exactly when there is no (or an empty) token; otherwise the request carries "Bearer <token>", the stripped payload and the daily goal |
| `App.FoodLog.Progress` | frontend/src/App.jsx:120-122 | the progress bar's value on the log's own entries and goal is never above 100 and is exactly total*100/goal below 100; under the log's invariant (goal non-zero) it is defined, and for a positive goal and entries with non-negative calories it is not negative |
| `App.FoodLog.constructor` | frontend/src/App.jsx:9-12 | an empty log, an empty form with meal "breakfast", goal 2000 |
| `App.FoodLog.EditDraft` | frontend/src/App.jsx:238 | only the add-food form changes |
| `App.FoodLog.EditGoalInput` | frontend/src/App.jsx:220 | only the goal form changes |
| `App.FoodLog.AddFood` | frontend/src/App.jsx:85-97 | with a non-empty name and calories, exactly one entry (fresh id, parsed calories, today's date) is appended at the end and the form is reset; otherwise nothing changes; the goal never changes |
| `App.FoodLog.DeleteFood` | frontend/src/App.jsx:99-101 | every entry with that id is removed and only those, the rest in order |
| `App.FoodLog.UpdateGoal` | frontend/src/App.jsx:103-109 | the goal becomes the parsed input when that is > 0 and is unchanged otherwise; the goal stays non-zero |
| `App.FoodLog.ClearToday` | frontend/src/App.jsx:132-135 | exactly today's entries are removed, the rest keep their order, and today's entries and total are then empty and 0 |
| `App.FoodLog.LoadUserData` | frontend/src/App.jsx:29-69 | without a token nothing changes; the log is replaced (with fresh ids) only by a non-empty server list, and the goal only by a truthy server goal; a thrown fetch ends the load |
| `Sync.StoredAsSent` | backend/server.js:149-154 | the server stores a client save exactly as sent, in order, if and only if no entry has an empty meal or date |
| `Sync.SaveBodyChecked` | backend/server.js:140-146 | the client's save body always passes the foods check and passes the goal check exactly when the client's goal is positive |
| `Sync.SaveHeaderAuthenticates` | frontend/src/App.jsx:160-165 | the client's "Bearer <token>" header is granted as the token's user exactly when the token verifies, and gets 403 otherwise |

## Left out

- Password hashing and comparison (bcryptjs, backend/server.js:39, 53) are the oracles `hash` and `compare`. The salt and the cost factor 10 are folded into the oracle supplied to each call.
- Token signing and verification (jsonwebtoken, backend/server.js:55, 72) are the oracles `sign` and `verify`. The secret, the signature scheme and the one-hour expiry are theirs; an expired token is one `verify` rejects.
- Database connection, schema casting and `save()` persistence are not modelled (backend/server.js:1-14, 16-30). Signup's failed saves are modelled: an empty username or email, which the schema's required check rejects, and a clash of a new user's id. saveAll's 500 for a null element is modelled too, but that one is a TypeError thrown during the normalisation, before any save. Every other database or hashing failure that the handlers turn into a 500 is not modelled.
- Express routing, CORS, `listen` and the test route GET /api/test are not modelled (backend/server.js:7-9, 83-85, 171-172).
- Concurrency is not modelled: requests run one at a time. Per-document atomicity and last-write-wins between concurrent saveAll calls are outside a sequential model.
- Server.Store.Signup: username, email and password are strings. An empty username or email is modelled as the 500 the failed save gives. A body that leaves a field out is not modelled: the schema would reject the save, or the lookup by a missing email would match another user.
- Server.Store.AddFood: the entry is stored as it comes. The schema's cast of its fields, and the unanswered request when a cast fails (that handler has no catch), are not modelled.
- Server.Store.SetGoal: the new goal is an integer. A missing or non-numeric body value is not modelled.
- Numbers are integers throughout. Fractional calories and goals, NaN and infinities of JavaScript numbers are not modelled.
- `Server.Calories` stands for what `Number(x)` gives. Parsing strings to numbers is not modelled.
- saveAll treats an array element that is a primitive other than null as an entry with every field missing.
- `App.NumberField` stands for a number input that `parseInt` reads, in two cases: empty (parseInt gives NaN, which the handlers treat as falsy or not > 0), or an integer. A third case is not represented: non-empty text that parseInt cannot read, such as ".5" or ".5e1".
- App.FoodLog.AddFood: the guard tests the raw text, not the parsed number. So non-empty text that parseInt cannot read, such as ".5e1", passes the guard, and the source appends an entry with NaN calories; today's total and the progress then become NaN. The model has no such input, so it does not capture this entry or the NaN views that follow. App.FoodLog.UpdateGoal is not affected, because NaN > 0 is false and the goal stays unchanged, as it does for an empty input.
- The browser's own form validation (`required`, `min="1"`) is not modelled. Only the handlers' guards are.
- App.FoodLog.LoadUserData: server entries arrive as records with all four fields and integer calories. Missing fields and a failing `res.json()` are not modelled.
- All `localStorage` effects are not modelled: the mount-time restore, the mirroring effects, and reading the token (frontend/src/App.jsx:14-26, 76-83). The token is a parameter.
- `useEffect` wiring, JSX rendering, `alert`/`console.log`, `toFixed` formatting and the handling of saveAll's response are not modelled (frontend/src/App.jsx:71-74, 172-346).
- `Date.now()`, `Math.random()` and `new Date()` are parameters: fresh ids and today's date. Entry ids are opaque integers, and their arithmetic is not modelled.
- The signup and login pages (frontend/src/Signup.jsx, frontend/src/Login.jsx) only forward a form to the server and store the token. They are not part of this model.
