# AI Fitness: a verified model of the record store and the client's local fallback

This project models the two stateful parts of the AI Fitness web application.

- **Server.** The users collection (`server/models/User.js`) is a map from user id to a `User` record. The model keeps the schema's defaults, its required fields and its unique indexes. The routes that change this map are methods on it:
  - the profile routes (`server/routes/profile.js`): the read projection, the allow-list partial update, the unconditional BMR overwrite and the avatar upload with its generated file name;
  - the calorie accumulator (`server/routes/calories.js`);
  - the mock exercise analysis (`server/routes/exerciseAI.js`).
- **Client.** Every React component either calls the server or falls back to the browser's local storage. The local storage is a class `LocalCache.Storage` with five slots: `token`, `user` (a string-keyed JSON object), `totalCalories` (an int), `fitnessNotes` and `darkMode`. Each component is a class holding its React state. Each handler is a method that takes the server's answer as an abstract `Reply`: `Ok(data)`, `NotOk` or `Throws`. Every gated handler decides, from the stored token, whether the server is asked at all. The avatar uploads and the analysis request are sent whatever the token. A token is "real" when it is present, non-empty and not `demo-jwt-token`.

Frame conditions carry most of what is proved. Each client method's `modifies` clause names exactly the slots and state fields it may write, such as `ls`user` or `this`profileData`. For example, logout may write only `token` and `user`, so the other three slots are untouched. The server methods state the whole new collection in terms of the old one. Lemmas about the specification functions then prove these facts:
- the allow-list update touches no field outside the list;
- increments arriving in any order (any permutation of the amounts) leave the same collection;
- the generated avatar name keeps the original extension;
- the guest and demo identities have fixed shapes;
- the routes are gated on the current user.

Module layout: `Wrappers`, `Json`, `Http` and `Media` are shared helpers. The server side is `UserModel` and `UserCollection` (User.js), then `ProfileRoutes`, `CalorieRoutes` and `ExerciseAnalysis`. The client side is `LocalCache`, `ProfileScreen`, `HomeScreen`, `ExerciseScreen`, `SettingsScreen`, `LoginScreen` and `App`.

At its edges the code behaves as follows:
- PUT `/api/profile` for a user id with no record answers 200 with `null`.
- PUT `/bmr`, POST `/avatar` and POST `/calories` fail with 500 in that case, because they read a field of `null`.
- The profile update does not run the schema validators, so it can empty the required `name` (`ProfileRoutes.UpdateCanEmptyRequiredName`). The collection invariant the model keeps is therefore the unique indexes and the id keys. The `required` check is made only when a record is inserted.
- With a real token, the exercise screen posts the calories to the server and does not touch the local total.

## Model

| member | source | states |
|---|---|---|
| UserModel.NewUser | server/models/User.js:3-48 | a new record has bmr 0, totalCalories 0, the given identity fields and no optional profile field |
| UserModel.Insert | server/models/User.js:4-17 | an insert succeeds iff name and email are non-empty, the id, the email and (when present) the googleId are unused; it then adds exactly that record |
| UserModel.InsertPreservesInvariant | server/models/User.js:4-17 | a successful insert keeps emails and googleIds unique and ids matching keys, and the inserted record is valid |
| UserModel.SparseGoogleId | server/models/User.js:4-8 | two records without a googleId can both be inserted (the index is sparse) |
| UserModel.DuplicateEmailRefused | server/models/User.js:13-17 | an insert whose email is already stored is refused |
| UserModel.ReplacePreservesInvariant | server/models/User.js:4-17 | rewriting a record without changing id, email or googleId keeps the unique-index invariant |
| UserCollection.Users.Create | server/models/User.js:3-48 | saving a new document stores it with the schema defaults when validation and the indexes allow, and otherwise changes nothing and returns the error |
| ProfileRoutes.ReadProfileShowsExactlyVisibleFields | server/routes/profile.js:21-30 | two records give the same GET body iff they agree on name, email, organization, age, weight, height, profilePic and bmr, so password, googleId and totalCalories never show |
| ProfileRoutes.Allowed | server/routes/profile.js:40-46 | the filtered update holds exactly the body's keys that are allow-listed, with the body's values |
| ProfileRoutes.BuildUpdates | server/routes/profile.js:39-46 | the route's loop over the allow-list builds exactly the filtered update |
| ProfileRoutes.CastValue | server/routes/profile.js:48 | the cast fails (the 500 of PUT /) exactly for a non-empty string in a number field or a number in a string field; a value that casts fits the field's type; null clears any field; "" clears a number field and is kept in a string field; a value of the field's own type is kept |
| ProfileRoutes.WithField | server/routes/profile.js:48 | writing a cast value into one allow-listed field reads back as written, leaves the other allow-listed fields and every protected field unchanged |
| ProfileRoutes.ApplyFieldsSpec | server/routes/profile.js:42-48 | applying an update over a list of fields succeeds iff every present value casts; then present fields hold their cast value, the others and the protected fields are unchanged |
| ProfileRoutes.ApplyUpdatesSpec | server/routes/profile.js:39-48 | the update succeeds iff every allow-listed value casts; email, bmr, password, totalCalories, googleId, id and createdAt never change; an absent allow-listed field keeps its value |
| ProfileRoutes.UpdateCanEmptyRequiredName | server/routes/profile.js:48 | the update with body `{name: ""}` succeeds on a valid record and leaves it without its required name |
| ProfileRoutes.PutProfile | server/routes/profile.js:37-54 | PUT / answers 500 and changes nothing on a cast failure, 200 null for a missing record, and otherwise stores and returns the old record overridden by the filtered update |
| ProfileRoutes.PutBmr | server/routes/profile.js:56-65 | PUT /bmr sets bmr to the given number with no bounds check, changes no other field and answers with it; a missing record gives 500 and no change |
| ProfileRoutes.ExtName | server/routes/profile.js:13 | `path.extname` is empty or a dot followed by no dot or slash, and is empty when the last component has no dot |
| ProfileRoutes.ExtNameSpec | server/routes/profile.js:13 | the extension is empty iff the last component has no dot after its first character or is ".."; otherwise it is the component's suffix from its last dot, after a non-empty stem |
| ProfileRoutes.ExtNameExamples | server/routes/profile.js:13 | `photo.jpg` has extension `.jpg`; the dot file `.profile` has none |
| ProfileRoutes.ExtNameOfStemAndExt | server/routes/profile.js:13-14 | a slash-free stem followed by an extension has exactly that extension and is its own base name |
| ProfileRoutes.AvatarFileNameShape | server/routes/profile.js:11-15 | the file name starts with `<userId>-` and its extension is the original's, or `.png` when the original has none |
| ProfileRoutes.PublicPath | server/routes/profile.js:72 | the stored reference is `/uploads/` followed by the file name |
| ProfileRoutes.PostAvatar | server/routes/profile.js:67-83 | no file gives 400 "No file uploaded" and no change; otherwise only profilePic is set to the public path, and the answer's profilePic equals it |
| CalorieRoutes.Inc | server/routes/calories.js:10-14 | `$inc` adds n to the total of that user only, keeping every other field and user |
| CalorieRoutes.IncAllAddsUp | server/routes/calories.js:10-14 | a sequence of increments leaves the same collection as one increment by the sum of the amounts: only that user's total grew |
| CalorieRoutes.IncAllOrderIrrelevant | server/routes/calories.js:12 | swapping two neighbouring increments leaves the same collection |
| CalorieRoutes.IncAllPermutation | server/routes/calories.js:10-14 | two sequences of increments holding the same amounts (the same multiset), in any order, leave the same collection |
| CalorieRoutes.IncCommutes | server/routes/calories.js:12 | two increments in either order give the same collection |
| CalorieRoutes.FiftyTwiceFromZero | server/routes/calories.js:12 | 50 added twice to a total of 0 gives 100 |
| CalorieRoutes.NegativeAmountLowersTotal | server/routes/calories.js:12 | a negative amount is accepted and lowers the total |
| CalorieRoutes.PostCalories | server/routes/calories.js:7-20 | POST / stores old total + calories, changes nothing else (the label is not stored) and answers with the new total; a missing record gives 500 |
| CalorieRoutes.GetTotal | server/routes/calories.js:22-30 | GET /total answers the stored total iff the record exists, else 500, and reads only |
| ExerciseAnalysis.Analyze | server/routes/exerciseAI.js:16-21 | the result echoes the label, has reps in 5..24, calories in 20..119 and the constant feedback |
| ExerciseAnalysis.AnalyzeIgnoresFile | server/routes/exerciseAI.js:10-30 | the result is the same whatever file is uploaded |
| ExerciseAnalysis.AnalyzeCoversRanges | server/routes/exerciseAI.js:18-19 | every reps value in 5..24 and calories value in 20..119 comes out of some draw |
| LocalCache.IsRealToken | client/src/components/Profile/Profile.js:35 | the real-token gate of every gated handler: a token counts iff it is present, non-empty and not `demo-jwt-token` |
| LocalCache.Storage.UserBlob | client/src/components/Profile/Profile.js:46 | `JSON.parse(localStorage.getItem('user') \|\| '{}')`: the stored user, or the empty object when the slot is empty |
| LocalCache.Storage.LocalTotal | client/src/components/Home/Home.js:33 | `parseInt(localStorage.getItem('totalCalories') \|\| '0', 10)`: the stored total, or 0 when the slot is empty |
| Json.Merge | client/src/components/Profile/Profile.js:41-42 | the object spread is right-biased: keys of the right object take its values, other keys of the left keep theirs |
| ProfileScreen.SyncedData | client/src/components/Profile/Profile.js:18-29 | the synced form holds exactly the eight profile keys, each the user's value or its default ("" or 0) |
| ProfileScreen.InitialData | client/src/components/Profile/Profile.js:5-14 | the initial form holds the eight keys, with age, weight and height empty |
| ProfileScreen.Payload | client/src/components/Profile/Profile.js:90-97 | the save payload has exactly name, organization, age, weight, height and profilePic from the form, never email or bmr |
| ProfileScreen.BmrValueDefaultsToZero | client/src/components/Profile/Profile.js:134-139 | the BMR written is 0 when the form's BMR is missing or falsy, and the form's number when it is one |
| ProfileScreen.SavedUserKeeps | client/src/components/Profile/Profile.js:109-123 | a save keeps every stored key; the fallback keeps stored keys outside the payload; the exception path writes the form's email and bmr |
| ProfileScreen.Profile.constructor | client/src/components/Profile/Profile.js:5-15 | the form starts from the user prop and editing is off |
| ProfileScreen.Profile.OnUserChange | client/src/components/Profile/Profile.js:18-30 | a new user prop overrides the eight form keys and keeps the others |
| ProfileScreen.Profile.FetchProfile | client/src/components/Profile/Profile.js:32-53 | the server is asked only with a real token; an ok answer is merged over the form and the stored user; otherwise the stored user is merged over the form and no slot changes |
| ProfileScreen.Profile.HandleAvatarUpload | client/src/components/Profile/Profile.js:64-85 | with a file the upload is sent; success sets only profilePic in the form and in the stored user; failure changes nothing |
| ProfileScreen.Profile.SaveProfile | client/src/components/Profile/Profile.js:87-127 | the payload is sent only with a real token; the stored user gets the answer, the whole form after an exception, otherwise the payload; editing ends |
| ProfileScreen.Profile.SaveBmr | client/src/components/Profile/Profile.js:130-146 | the BMR is sent only with a real token and stored unless that request failed |
| HomeScreen.ShowCalculatorIff | client/src/components/Home/Home.js:7 | the calculator shows first iff the user or its bmr is missing or the bmr is falsy |
| HomeScreen.WithBmrAndForm | client/src/components/Home/Home.js:72-78 | the saved user has the BMR and the form's age, weight, height and gender, and every other stored key |
| HomeScreen.Home.constructor | client/src/components/Home/Home.js:4-13 | the screen starts with the user's BMR (or 0), total 0, the stored notes (or "") and an empty male form |
| HomeScreen.Home.FetchTotalCalories | client/src/components/Home/Home.js:19-40 | the total is the server's (falsy as 0) with a real token and an ok answer, otherwise the local slot (0 when empty) |
| HomeScreen.Home.CalculateBmr | client/src/components/Home/Home.js:42-54 | an empty age, weight or height leaves the BMR unchanged; otherwise it becomes the rounded formula value |
| HomeScreen.Home.SaveBmr | client/src/components/Home/Home.js:56-107 | the stored user gets the server's BMR after an ok answer, else the calculator's, with the form fields; the calculator hides |
| HomeScreen.Home.EditNotes | client/src/components/Home/Home.js:133-136 | every notes edit writes the text to the fitnessNotes slot |
| ExerciseScreen.SubmitRequest | client/src/components/ExerciseAI/ExerciseAI.js:62-85 | nothing is sent without an exercise and an upload type; a request carries the selected label; an attached file is the uploaded file for an upload and the capture for the camera; an upload with a file sends it; a camera submit sends the capture, or nothing when there is none; any other type sends the label alone |
| ExerciseScreen.ExerciseAI.constructor | client/src/components/ExerciseAI/ExerciseAI.js:5-9 | nothing is selected at first |
| ExerciseScreen.ExerciseAI.SelectExercise | client/src/components/ExerciseAI/ExerciseAI.js:24-29 | selecting sets the exercise (one of the nine) and clears upload type, file and result |
| ExerciseScreen.ExerciseAI.SelectUploadType | client/src/components/ExerciseAI/ExerciseAI.js:31-38 | the upload type is set |
| ExerciseScreen.ExerciseAI.ChangeFile | client/src/components/ExerciseAI/ExerciseAI.js:58-60 | the file is set |
| ExerciseScreen.ExerciseAI.BackToExercises | client/src/components/ExerciseAI/ExerciseAI.js:156 | the back button clears the chosen exercise |
| ExerciseScreen.ExerciseAI.BackToUploadType | client/src/components/ExerciseAI/ExerciseAI.js:195-198 | the back button of the upload step clears the upload type |
| ExerciseScreen.ExerciseAI.Submit | client/src/components/ExerciseAI/ExerciseAI.js:62-85 | without a request nothing changes; a request carries one of the nine exercises; otherwise the send effect holds |
| ExerciseScreen.ExerciseAI.SendToAI | client/src/components/ExerciseAI/ExerciseAI.js:87-115 | zero calories persist nothing; with a real token the selected exercise and the calories are posted and the local total untouched; without one the local total grows by them; any failure shows the error record |
| ExerciseScreen.LocalTotalsAccumulate | client/src/components/ExerciseAI/ExerciseAI.js:106-108 | without a real token two analyses add both calorie counts to the local total (empty as 0) |
| SettingsScreen.Settings.constructor | client/src/components/Settings/Settings.js:5-7 | the BMR starts as the user's (or 0) and both password fields empty |
| SettingsScreen.Settings.OnUserChange | client/src/components/Settings/Settings.js:10-12 | a new user prop resets the BMR |
| SettingsScreen.Settings.SaveBmr | client/src/components/Settings/Settings.js:18-34 | the parsed BMR is sent only with a real token and stored unless that request failed |
| SettingsScreen.Settings.Logout | client/src/components/Settings/Settings.js:36-40 | exactly the token and user slots are removed |
| SettingsScreen.Settings.HandleProfilePic | client/src/components/Settings/Settings.js:43-63 | on success only profilePic of the stored user changes; otherwise nothing |
| SettingsScreen.Settings.HandlePasswordChange | client/src/components/Settings/Settings.js:66-87 | no request without a real token; the fields are cleared only after a successful change |
| LoginScreen.DemoUser | client/src/components/Auth/Login.js:37-43 | the demo user has id demo-user-id, the entered email, bmr 1800 and no other key beyond name and profilePic |
| LoginScreen.GuestUser | client/src/components/Auth/Login.js:57-63 | the guest has id guest, email guest@example.com, bmr 0 and no other key beyond name and profilePic |
| LoginScreen.FallbackIdentities | client/src/components/Auth/Login.js:36-65 | the guest reaches protected pages yet is not authenticated; the demo user is authenticated but its token is not real |
| LoginScreen.Login.constructor | client/src/components/Auth/Login.js:5-8 | the form starts empty |
| LoginScreen.SubmitDecidesGates | client/src/components/Auth/Login.js:14-50 | after a network error the stored token is the demo token, so every real-token gate stays closed (the avatar uploads and the analysis request are still sent, carrying that token); after a refused login the earlier token decides; after an ok login the gates open iff the answered token is non-empty and not the demo token |
| LoginScreen.Login.HandleSubmit | client/src/components/Auth/Login.js:14-50 | ok stores the token and user and sets the current user; not ok writes nothing; a network error stores the demo token and demo user |
| LoginScreen.Login.HandleGuestLogin | client/src/components/Auth/Login.js:56-66 | the guest user is stored and set and the token slot keeps its value, so a real token from an earlier login still opens the server |
| App.AuthenticatedHasUser | client/src/App.js:55-56 | an authenticated user exists; a user that exists but is not authenticated has id guest |
| App.IsAuthenticated | client/src/App.js:55 | a user is authenticated iff one exists and its `_id` is not `guest` |
| App.IsGuestOrAuthenticated | client/src/App.js:56 | the route gate passes iff a user exists, the guest included |
| App.DarkModeFromSlot | client/src/App.js:18 | dark mode is on iff the slot holds exactly "true" |
| App.DarkModeString | client/src/App.js:50 | the stored flag reads back as the flag |
| App.Route | client/src/App.js:63-68 | protected paths render iff a user exists and redirect to /login otherwise; /login and /signup redirect to / when a user exists |
| App.RoutesGateOnUser | client/src/App.js:63-68 | without a user only login and signup render; with one they never do |
| App.AppState.constructor | client/src/App.js:17-30 | the current user is the stored one and dark mode is on iff the slot holds "true" |
| App.AppState.IntakeOAuth | client/src/App.js:33-45 | token and user are stored and set only when the token parameter is non-empty and the user parameter is present |
| App.AppState.ToggleDarkMode | client/src/App.js:48-52 | the flag flips and the slot holds its new value |
| App.ToggleTwice | client/src/App.js:48-52 | toggling twice restores the flag, and the slot reads back as it |

## Left out

- The BMR formula (client/src/components/Home/Home.js:47-53) uses floating point and `Math.round`. `HomeScreen.Home.CalculateBmr` takes the rounded value as a parameter and models only the empty-input guard.
- `Math.random` and `Date.now` are inputs. The stub's draws are bounded integers. The avatar name's unique part and `createdAt` are parameters. That generated names are unique is probabilistic, so it is not stated.
- The atomicity of `$inc` under concurrent requests is a storage-layer guarantee. Only sequential increments are modelled.
- Network calls, multer disk and memory storage, file writes, static serving and the orphaned file left when the record write fails are all out. Every server answer is an input.
- The server's wiring (server/app.js), the auth middleware and the auth routes (login, signup, Google, change-password) are not part of this model. The routes take the authenticated user's id, and GET `/` reads the record the middleware resolved.
- client/src/components/Auth/AuthProvider.js and client/src/components/Navbar/Navbar.js are not part of this model. The navbar's logout does the same as `SettingsScreen.Settings.Logout`.
- Not modelled: JSX rendering, the camera (start, stop and canvas capture; the capture arrives as an input), alerts, console logging, `window.location` redirects, `history.replaceState` and the `dark` class on the body.
- The form-field change handlers (`handleInputChange`, `handleChange`, `handleBmrChange`) each set one form key and are not modelled. Form values are typed already.
- JSON (de)serialisation and `parseInt` of strings are out: slots and bodies hold parsed values. `Json.ParseIntJson` returns a number unchanged and turns any other value into NaN, which is stored as `null`.
- ProfileRoutes.CastValue: the schema's cross-type coercions are not modelled. Turning a number into a string, or a numeric string such as "25" into a number, is treated as a cast failure (500, no change).
- ProfileRoutes.PutBmr: the body's `bmr` is an integer. A missing or non-numeric `bmr` is not modelled.
- CalorieRoutes.PostCalories: the body's `calories` is an integer. A missing or non-numeric amount is not modelled.
- ExerciseAnalysis.Analyze: the route's 500 answer for a malformed request is not modelled, because the model's typed inputs cannot be malformed.
- ProfileRoutes.ExtName: only Node's POSIX rules are modelled. Windows path separators are not.
- Numbers: every JSON number and every schema `Number` field (age, weight, height, bmr, totalCalories) is an integer. JavaScript numbers are doubles, so fractional values such as a weight of 72.5 and the rounding of double sums under `$inc` are not modelled.
- Client handlers run one at a time: no other handler runs during their awaits, so an answer never arrives after a later edit or selection.
- ProfileScreen.Profile.HandleAvatarUpload: on success the source spreads the `profileData` captured when the upload began (client/src/components/Profile/Profile.js:78), so form edits made during the upload are reverted. The model's "only profilePic changes" holds only without such edits.
- ExerciseScreen.ExerciseAI.SendToAI: a late answer sets the result even after a new selection has cleared it (client/src/components/ExerciseAI/ExerciseAI.js:96). The model does not interleave the two.
- App.AppState.ToggleDarkMode: React's asynchronous state updates (a stale `darkMode` in the closure) are not modelled. Updates apply in sequence.
