# ChiStartup Hub CMS — a verified model of its core

ChiStartup Hub CMS is a content-management app for a startup hub. It covers social posts, goals, settings and a small design studio. This project models the parts of it that hold real logic:

- **The design canvas** (`design_canvas.dfy`):
  - the bounded linear undo/redo history;
  - the capture that runs on every object add, modification and removal, on every background change and once at mount;
  - the defaults of new text, rectangle and circle objects.
- **The properties panel** (`properties_panel.dfy`): how it reads an object's properties back with JavaScript `||` fallbacks, and how it writes single properties.
- **The server procedures** (`routers.ts`, modelled in `routers.dfy`):
  - the upcoming-posts query;
  - the create input rules and defaults;
  - the `{ id, ...updates }` split;
  - the asset storage key;
  - the dashboard's scheduled count.
- **The database layer** (`db.ts`, modelled in `db.dfy`):
  - the record building of the user upsert;
  - the link-first cascade of the post and asset deletes, over in-memory tables;
  - the active-platform filter.
- **Five pages**:
  - goals: submit order, progress bar, success rate, status colours and buttons;
  - create post: submit order, character counter, publish status, templates;
  - settings: loading, hashtags, per-section save;
  - design: template search and filter, sections, new-design address;
  - size-preset picker: platform tabs, preset and custom choice.

Two shared modules support them:

- `js.dfy` holds the JavaScript built-ins the code relies on: `trim`, `split`, `includes`, `toLowerCase`, `filter`, `parseInt`, `Math.round` and decimal printing.
- `json.dfy` holds `JSON.stringify` and `JSON.parse` restricted to arrays of strings, which is how the hashtag list is stored.

Each source file keeps its own form:

- **Stateful parts become classes.** The canvas component (`DesignCanvas.Canvas`), the panel (`PropertiesPanel.Panel`) and the database tables (`Db.Database`) are classes whose methods update fields.
- **The history is a value too.** It is specified by the pure functions `Capture`, `UndoHistory` and `RedoHistory`, and the lemmas are proved about those functions.
- **Field-by-field code becomes methods.** The user upsert (`Db.UpsertUser`, with a loop over the text fields) and the settings save (`Settings.HandleSave`) are methods proved against a specification.
- **Everything else stays pure.** Datatypes, functions and lemmas model the rest.

## Model

| member | source | states |
|---|---|---|
| DesignCanvas.Capture | client/src/components/design/DesignCanvas.tsx:44-56 | After a capture the history is well formed (at most 50 entries, cursor in range), not empty, and the cursor is on the new snapshot |
| DesignCanvas.CaptureKeepsNewest | client/src/components/design/DesignCanvas.tsx:44-56 | A capture keeps the newest 50 of the entries up to the cursor followed by the new snapshot |
| DesignCanvas.CaptureDropsRedoBranch | client/src/components/design/DesignCanvas.tsx:45-47 | Before the new entry stand only entries up to the old cursor (the newest 49 of them); everything after the cursor is gone |
| DesignCanvas.RedoAfterCaptureIsNoOp | client/src/components/design/DesignCanvas.tsx:45-50 | A redo right after a capture changes nothing |
| DesignCanvas.FirstCapture | client/src/components/design/DesignCanvas.tsx:36-50 | The baseline capture on the empty history (cursor -1) gives one entry with the cursor on it |
| DesignCanvas.UndoHistory | client/src/components/design/DesignCanvas.tsx:275-280 | Undo never changes the list; it is a no-op at index <= 0 and otherwise moves the cursor back exactly one |
| DesignCanvas.RedoHistory | client/src/components/design/DesignCanvas.tsx:288-293 | Redo never changes the list; it is a no-op at the last entry and otherwise moves the cursor forward exactly one |
| DesignCanvas.RedoUndoesUndo | client/src/components/design/DesignCanvas.tsx:275-299 | A redo after an undo that moved restores the history |
| DesignCanvas.UndoUndoesRedo | client/src/components/design/DesignCanvas.tsx:275-299 | An undo after a redo that moved restores the history |
| DesignCanvas.UndosIndex | client/src/components/design/DesignCanvas.tsx:275-280 | k undos keep the list and move the cursor back k places, stopping at the first entry |
| DesignCanvas.UndosThenRedos | client/src/components/design/DesignCanvas.tsx:275-299 | k undos then k redos, within bounds and with no capture between, return to the same history, hence the same snapshot |
| DesignCanvas.CaptureAllKeepsNewest | client/src/components/design/DesignCanvas.tsx:49-56 | Captures made at the newest entry keep exactly the newest 50 snapshots, with the cursor on the last |
| DesignCanvas.SixtyCapturesKeepFifty | client/src/components/design/DesignCanvas.tsx:52-56 | After a baseline and sixty captures the list holds the last fifty captures, and undoing to the start reaches the eleventh capture, not the baseline |
| DesignCanvas.NewText | client/src/components/design/DesignCanvas.tsx:143-152 | The text object merges the caller's options over centred defaults: options win, other defaults stay |
| DesignCanvas.NewRect | client/src/components/design/DesignCanvas.tsx:162-171 | The rectangle merges options over its centred defaults |
| DesignCanvas.NewCircle | client/src/components/design/DesignCanvas.tsx:181-190 | The circle merges options over its centred defaults |
| DesignCanvas.TextDefaultsWithoutOptions | client/src/components/design/DesignCanvas.tsx:143-152 | Without options, text is centred, 32px, black, "Inter, sans-serif" |
| DesignCanvas.RectDefaultsWithoutOptions | client/src/components/design/DesignCanvas.tsx:162-171 | Without options, a centred 150x100 rectangle filled #3B82F6 |
| DesignCanvas.CircleDefaultsWithoutOptions | client/src/components/design/DesignCanvas.tsx:181-190 | Without options, a centred circle of radius 60 filled #FCD34D |
| DesignCanvas.Canvas.constructor | client/src/components/design/DesignCanvas.tsx:33-37 | Before mount there is no canvas, the history is empty with cursor -1, and the flag is clear |
| DesignCanvas.Canvas.Mount | client/src/components/design/DesignCanvas.tsx:59-113 | Mounting captures the baseline immediately, or after the initial document loads; a document that fails to load captures nothing |
| DesignCanvas.Canvas.SaveHistory | client/src/components/design/DesignCanvas.tsx:39-57 | With the flag set or no canvas the history is unchanged; otherwise it becomes Capture of the old history and the current scene |
| DesignCanvas.Canvas.Replay | client/src/components/design/DesignCanvas.tsx:282-298 | A reload under the flag replaces the scene and leaves the history unchanged (the events it raises are not captured) |
| DesignCanvas.Canvas.Undo | client/src/components/design/DesignCanvas.tsx:275-286 | The history becomes UndoHistory of the old one, the list is unchanged, and the scene becomes the entry under the new cursor |
| DesignCanvas.Canvas.Redo | client/src/components/design/DesignCanvas.tsx:288-299 | The history becomes RedoHistory of the old one, the list is unchanged, and the scene becomes the entry under the new cursor |
| DesignCanvas.Canvas.AddText | client/src/components/design/DesignCanvas.tsx:140-157 | Appends NewText, makes it the active object, and captures; nothing without a canvas |
| DesignCanvas.Canvas.AddRect | client/src/components/design/DesignCanvas.tsx:159-176 | Appends NewRect, makes it active, captures |
| DesignCanvas.Canvas.AddCircle | client/src/components/design/DesignCanvas.tsx:178-194 | Appends NewCircle, makes it active, captures |
| DesignCanvas.Canvas.DeleteSelected | client/src/components/design/DesignCanvas.tsx:226-237 | Removes the active object, captures, and clears the selection; nothing without a selection |
| DesignCanvas.Canvas.ObjectModified | client/src/components/design/DesignCanvas.tsx:85-88 | A modification event captures unless replaying |
| DesignCanvas.Canvas.SetBackgroundColor | client/src/components/design/DesignCanvas.tsx:321-327 | Sets the background, keeps the objects, and captures |
| DesignCanvas.Canvas.LoadJson | client/src/components/design/DesignCanvas.tsx:244-255 | A document that loads replaces the scene and is captured; one that fails changes nothing |
| PropertiesPanel.Or | client/src/components/design/PropertiesPanel.tsx:64-72 | `o[key] \|\| d` is the stored value exactly when it is truthy, otherwise d |
| PropertiesPanel.StripSansSerif | client/src/components/design/PropertiesPanel.tsx:66 | Removes a trailing ", sans-serif" and nothing else |
| PropertiesPanel.ReadBack | client/src/components/design/PropertiesPanel.tsx:57-74 | The panel shows the nine properties; a text object's family is stripped of ", sans-serif", and a shape shows "Inter" |
| PropertiesPanel.ReadBackFallsBackToDefaults | client/src/components/design/PropertiesPanel.tsx:45-72 | Every other property reads through `\|\|` with the panel's initial value, and a shape shows the initial value for every text-only property |
| PropertiesPanel.SetProp | client/src/components/design/PropertiesPanel.tsx:79 | Setting a property changes that key only |
| PropertiesPanel.ToggleBold | client/src/components/design/PropertiesPanel.tsx:177 | Writes "normal" exactly when the weight is "bold", and "bold" for any other weight |
| PropertiesPanel.ToggleItalic | client/src/components/design/PropertiesPanel.tsx:187 | Writes "normal" exactly when the style is "italic", and "italic" otherwise |
| PropertiesPanel.ToggleUnderline | client/src/components/design/PropertiesPanel.tsx:196 | Writes the negation of the shown flag |
| PropertiesPanel.BoldTwiceRestoresOnlyTwoStates | client/src/components/design/PropertiesPanel.tsx:177 | Two presses of bold restore the weight iff it was "bold" or "normal"; "600" ends up "normal" |
| PropertiesPanel.FontRoundTrip | client/src/components/design/PropertiesPanel.tsx:66-138 | A family written by the picker reads back as that family |
| PropertiesPanel.ListedFontsRoundTrip | client/src/components/design/PropertiesPanel.tsx:33-138 | Every listed family reads back as itself |
| PropertiesPanel.WriteThenReadBack | client/src/components/design/PropertiesPanel.tsx:64-79 | Any other property written to a text object reads back as written if truthy, else as its default |
| PropertiesPanel.ZeroOpacityReadsAsOne | client/src/components/design/PropertiesPanel.tsx:71 | A stored opacity of 0 shows as 1 |
| PropertiesPanel.ShapesShowFontDefaults | client/src/components/design/PropertiesPanel.tsx:60-70 | A shape shows the default font properties whatever it stores |
| PropertiesPanel.AlignmentsReadBack | client/src/components/design/PropertiesPanel.tsx:211-227 | Each alignment button's value reads back unchanged |
| PropertiesPanel.NewTextReadsDefaults | client/src/components/design/PropertiesPanel.tsx:45-73 | Text fresh from addText without options shows exactly the panel's initial state |
| PropertiesPanel.Panel.constructor | client/src/components/design/PropertiesPanel.tsx:45-55 | The panel starts in its initial state |
| PropertiesPanel.Panel.SelectionChanged | client/src/components/design/PropertiesPanel.tsx:57-74 | No selection keeps the state; a selection shows its read-back |
| PropertiesPanel.Panel.UpdateProperty | client/src/components/design/PropertiesPanel.tsx:76-84 | Nothing without a selection or canvas; otherwise exactly that property changes on the object and that key in the panel, and the history is untouched |
| Routers.InsertByWhen | server/routers.ts:103-106 | Insertion adds exactly the one post (as a multiset) |
| Routers.InsertByWhenSorted | server/routers.ts:103-106 | Inserting into a date-sorted list keeps it sorted |
| Routers.SortByWhen | server/routers.ts:103-106 | The sort is sorted by date and a permutation of its input |
| Routers.Dated | server/routers.ts:102 | Keeps exactly the posts that have a date |
| Routers.Upcoming | server/routers.ts:101-107 | At most ten dated posts, earliest first, drawn from the input; every dated post left out is no earlier than any post returned |
| Routers.TakeEarliest | server/routers.ts:107 | The first ten of a sorted arrangement are the earliest ten |
| Routers.GetUpcoming | server/routers.ts:97-108 | Only the user's scheduled dated posts, at most ten, sorted by date |
| Routers.PostIssues | server/routers.ts:56-57 | A title issue iff the title is not 1-255 UTF-16 units, a content issue iff the content is empty |
| Routers.CreatePost | server/routers.ts:53-73 | Accepted iff the title and content pass; the row carries the caller's id, the title, content, platformId, postType and scheduledFor as given, and the status defaults to draft |
| Routers.CreateGoal | server/routers.ts:224-256 | Accepted iff the title passes; every new goal has currentValue 0 and status active, whatever the input |
| Routers.InsertedId | server/routers.ts:72 | The returned id is insertId, or 0 when it is absent or 0 |
| Routers.SplitUpdate | server/routers.ts:85-86 | The id is split off; every other accepted field passes through unchanged |
| Routers.SplitUpdateRejoins | server/routers.ts:85-86 | Putting the id back into the updates gives the accepted input again |
| Routers.Extension | server/routers.ts:144 | The extension is never empty and holds no slash |
| Routers.ExtensionOfSubtype | server/routers.ts:144 | "type/sub" gives "sub" |
| Routers.ExtensionFallsBackToBin | server/routers.ts:144 | No slash, or nothing after the first slash, gives "bin" |
| Routers.FileKeySegments | server/routers.ts:144-145 | The key is "cms-assets", the user id, and the file name, separated by slashes; the id reads back |
| Routers.FileKeysOfDifferentUsersDiffer | server/routers.ts:145 | Different uploaders never share a key |
| Routers.FilterCountsStatus | server/routers.ts:195 | The filtered list's length is the number of posts with the status |
| Routers.DashboardStats | server/routers.ts:193-204 | postsScheduled is the number of scheduled posts |
| Db.UpsertUser | server/db.ts:21-78 | Throws for a missing or empty openId, skips without a database; text fields: undefined is left out of both records, anything else (null too) is in both; role: explicit, else admin for the owner, else none; lastSignedIn is always in values; updateSet is never empty |
| Db.CopyTextFields | server/db.ts:38-49 | The loop copies each non-undefined text field into both records and changes nothing else |
| Db.StampSignIn | server/db.ts:51-69 | The lastSignedIn and role rules, and the fallbacks that always set lastSignedIn and never leave updateSet empty |
| Db.BareSignIn | server/db.ts:63-69 | A sign-in with only a non-owner openId writes openId and now, and updates lastSignedIn alone |
| Db.ActiveOnly | server/db.ts:98 | Keeps exactly the platforms with isActive = 1 |
| Db.PostsOf | server/db.ts:123-127 | A non-zero user id keeps that user's posts; 0 keeps all |
| Db.PostsWithStatus | server/db.ts:142-150 | Exactly the posts with the status (and the user, when non-zero) |
| Db.FewerLinksResolve | server/db.ts:174-230 | Deleting links keeps the remaining ones resolved |
| Db.UnlinkedPostRemovalResolves | server/db.ts:173-177 | Removing a post that no link names keeps all links resolved |
| Db.UnlinkedAssetRemovalResolves | server/db.ts:229-233 | Removing an asset that no link names keeps all links resolved |
| Db.PostFirstLeavesDanglingLink | server/db.ts:173-177 | The opposite order would fail: deleting a linked post first leaves a dangling link |
| Db.Database.constructor | server/db.ts:6-19 | The tables as given |
| Db.Database.AllPlatforms | server/db.ts:94-99 | [] without a database; otherwise exactly the active platforms |
| Db.Database.AllPosts | server/db.ts:119-128 | [] without a database; otherwise the user's posts, or all posts for 0 |
| Db.Database.PostsByStatus | server/db.ts:138-151 | [] without a database; otherwise exactly the matching posts |
| Db.Database.DeletePost | server/db.ts:169-179 | Fails without a database; otherwise removes the post's links and then the post, and the links stay resolved |
| Db.Database.DeleteAsset | server/db.ts:225-235 | The same cascade for an asset |
| Goals.Submit | client/src/pages/Goals.tsx:101-128 | Stops at a blank title, then a blank Specific, then a blank Measurable, in that order; otherwise sends the eleven fields unchanged |
| Goals.SubmittedFormPassesServerUnlessTooLong | client/src/pages/Goals.tsx:101-128 | A form the page sends is refused by goals.create only for a title over 255 units |
| Goals.PercentBounds | client/src/pages/Goals.tsx:163 | For a positive target the percentage is 0 at 0, non-negative for non-negative progress, at most 100 up to the target, and at least 100 beyond it |
| Goals.Capped | client/src/pages/Goals.tsx:163 | Math.round capped at 100: never over 100, exactly 100 from 99.5 on, and below that the integer within a half of the value, so it is pinned |
| Goals.Progress | client/src/pages/Goals.tsx:161-164 | 0 for a zero target; never over 100; 100 once current reaches a positive target; 0 for no progress; for a percentage below 99.5 exactly the rounded percentage, otherwise 100 |
| Goals.ProgressMonotone | client/src/pages/Goals.tsx:161-164 | More progress never shows a lower percentage |
| Goals.GoalProgress | client/src/pages/Goals.tsx:254 | Missing values count as 0; a missing or zero target shows 0 |
| Goals.ActiveGoalsCount | client/src/pages/Goals.tsx:166 | The active list's length is the number of active goals |
| Goals.CompletedGoalsCount | client/src/pages/Goals.tsx:167 | The completed list's length is the number of completed goals |
| Goals.Rate | client/src/pages/Goals.tsx:219-221 | Between 0 and 100; 0 with no goals or none completed; 100 with all completed; otherwise the rounded percentage completed |
| Goals.SuccessRate | client/src/pages/Goals.tsx:166-221 | The rate over the counts of completed and active goals; paused and cancelled goals do not count |
| Goals.StatusColor | client/src/pages/Goals.tsx:140-148 | The listed colour of a known status, grey for any other text |
| Goals.StatusColorsDistinct | client/src/pages/Goals.tsx:140-148 | The four statuses have four different non-grey colours |
| Goals.Actions | client/src/pages/Goals.tsx:320-357 | Complete and Pause for active, Resume for paused, no status button otherwise; Delete always |
| Goals.CompletedIsFinal | client/src/pages/Goals.tsx:320-349 | No clicks change a completed goal |
| Goals.NeverCancels | client/src/pages/Goals.tsx:320-349 | No clicks reach cancelled from any other status |
| CreatePost.Submit | client/src/pages/CreatePost.tsx:53-79 | Stops at a blank title, blank content, no platform (null or 0), then a missing date for "scheduled", in that order; otherwise sends the form with the date only for "scheduled" |
| CreatePost.LinkedGoalNotSent | client/src/pages/CreatePost.tsx:71-78 | The linked goal never changes what is sent |
| CreatePost.SubmittedPostPassesServerUnlessTooLong | client/src/pages/CreatePost.tsx:53-79 | A post the page sends is refused by posts.create only for a title over 255 units |
| CreatePost.PublishStatus | client/src/pages/CreatePost.tsx:135-141 | "scheduled" iff the scheduler is on and a date is set, "published" otherwise |
| CreatePost.PublishNeverMissesDate | client/src/pages/CreatePost.tsx:66-141 | The publish button never stops for a missing date |
| CreatePost.FindPlatform | client/src/pages/CreatePost.tsx:81 | The first platform with the id, or none when no platform has it |
| CreatePost.CharacterLimit | client/src/pages/CreatePost.tsx:81-82 | 280 exactly when the selected platform's slug is "x", 3000 otherwise |
| CreatePost.NoSelectionAllows3000 | client/src/pages/CreatePost.tsx:82 | With no platform picked the limit is 3000 |
| CreatePost.RemainingChars | client/src/pages/CreatePost.tsx:83-179 | Remaining plus length is the limit; negative (red) exactly when over the limit |
| CreatePost.ApplyTemplate | client/src/pages/CreatePost.tsx:101-102 | The content becomes the template and every other field stays |
| CreatePost.LastTemplateWins | client/src/pages/CreatePost.tsx:101-102 | A second template replaces the first entirely |
| Settings.LoadForm | client/src/pages/Settings.tsx:55-78 | Every field gets the stored column when truthy, and its initial value when the column is null, 0 or empty |
| Settings.HashtagsLoad | client/src/pages/Settings.tsx:80-85 | Unparseable text gives an empty list; a list saved as JSON reads back |
| Settings.SectionNamed | client/src/pages/Settings.tsx:102-127 | The five section names, and no other text, select a section |
| Settings.SaveSectionSendsSection | client/src/pages/Settings.tsx:99-130 | A save sends exactly its section's fields with the form's values, and the hashtags as JSON text |
| Settings.HandleSave | client/src/pages/Settings.tsx:99-130 | The field-by-field update equals the section's update; an unknown section sends an empty update |
| Settings.Merge | client/src/pages/Settings.tsx:129 | The sent columns overwrite the stored row and nothing else changes |
| Settings.SwitchValue | client/src/pages/Settings.tsx:320-324 | A switch writes a truthy value exactly when on |
| Settings.SavedFieldReadsBackOnlyIfTruthy | client/src/pages/Settings.tsx:55-130 | A saved field reads back after reload only when truthy; 0 or empty reads back as the initial value |
| Settings.SwitchedOffNotificationReloadsOn | client/src/pages/Settings.tsx:70-120 | A notification switch saved off shows on after reload |
| Settings.LoadFormKeepingSaved | client/src/pages/Settings.tsx:55-78 | With null-only fallbacks, every stored column is kept and only null columns take the initial value |
| Settings.SavedSectionReadsBack | client/src/pages/Settings.tsx:55-130 | With null-only fallbacks every saved field reads back as saved, and a switch saved off stays off |
| Settings.Tag | client/src/pages/Settings.tsx:157 | The tag starts with "#", and is the entry itself when it does |
| Settings.AddHashtag | client/src/pages/Settings.tsx:155-161 | Blank or already-listed (trimmed) input changes nothing; otherwise appends the tag and clears the input |
| Settings.PlainEntryTwiceAddsTwice | client/src/pages/Settings.tsx:156-158 | Entering "foo" twice lists "#foo" twice |
| Settings.TaggedEntryTwiceAddsOnce | client/src/pages/Settings.tsx:156-158 | Entering "#foo" twice lists it once |
| Settings.RemoveHashtag | client/src/pages/Settings.tsx:163-165 | Removes every copy of the tag and keeps every other tag exactly as often as it was listed |
| Settings.RemoveHashtagKeepsOrder | client/src/pages/Settings.tsx:163-165 | Removal distributes over concatenation, so the remaining tags keep their order |
| Settings.RemoveAbsentIsIdentity | client/src/pages/Settings.tsx:163-165 | Removing an unlisted tag changes nothing |
| Settings.RemoveUndoesAdd | client/src/pages/Settings.tsx:155-165 | Removing a newly added tag gives back the list |
| Json.Stringify | client/src/pages/Settings.tsx:125 | The JSON text of a string list is bracketed |
| Json.EscapeCharRoundTrip | client/src/pages/Settings.tsx:81-125 | Each escaped character reads back as itself |
| Json.StringBodyRoundTrip | client/src/pages/Settings.tsx:81-125 | An escaped string literal reads back as the string |
| Json.ItemsRoundTrip | client/src/pages/Settings.tsx:81-125 | A stringified list of items reads back as the items |
| Json.ParseStringify | client/src/pages/Settings.tsx:81-125 | JSON.parse of JSON.stringify of a string list is that list |
| DesignPage.MatchesSearch | client/src/pages/Design.tsx:53-55 | An empty query matches; otherwise the lower-cased name contains the lower-cased query |
| DesignPage.MatchesFilter | client/src/pages/Design.tsx:56-59 | "all" keeps everything; "system" keeps templates without an owner; "custom" keeps those with one |
| DesignPage.FilteredTemplates | client/src/pages/Design.tsx:52-61 | Nothing before loading; otherwise exactly the templates matching both search and filter |
| DesignPage.SearchIgnoresCase | client/src/pages/Design.tsx:55 | A query finds the same templates however it is capitalised |
| DesignPage.EmptySearchShowsAll | client/src/pages/Design.tsx:52-61 | An empty search under "all" shows every template in order |
| DesignPage.SectionsPartition | client/src/pages/Design.tsx:63-64 | The pre-built and custom lists split the filtered list by owner |
| DesignPage.OwnerFilterEmptiesOtherSection | client/src/pages/Design.tsx:56-64 | Under "system" the custom list is empty; under "custom" the pre-built list is |
| DesignPage.PresetPart | client/src/pages/Design.tsx:33 | "&preset=ID" only for a given, non-empty id |
| DesignPage.CreateNewUrlDetermines | client/src/pages/Design.tsx:32-34 | The address determines width, height and given preset |
| DesignPage.QuickStart | client/src/pages/Design.tsx:92 | The first five presets in order, or all when fewer |
| DesignPage.QuickStartMatchesPicker | client/src/pages/Design.tsx:92-95 | A quick-start button opens the same address as picking that preset; a custom size opens one without a preset |
| SizePresetPicker.Unique | client/src/components/design/SizePresetPicker.tsx:46 | No duplicates, and exactly the values of the input |
| SizePresetPicker.UniqueKeepsFirstAppearanceOrder | client/src/components/design/SizePresetPicker.tsx:46 | Values appear in the order of their first occurrence |
| SizePresetPicker.Platforms | client/src/components/design/SizePresetPicker.tsx:46 | No duplicate tabs, and a tab for exactly the platforms some preset has |
| SizePresetPicker.PlatformsInFirstAppearanceOrder | client/src/components/design/SizePresetPicker.tsx:46 | The tabs follow first appearance in the preset list |
| SizePresetPicker.TabHoldsItsPlatform | client/src/components/design/SizePresetPicker.tsx:87-88 | A tab lists each preset of its platform as often as the list has it, and nothing else |
| SizePresetPicker.TabKeepsOrder | client/src/components/design/SizePresetPicker.tsx:87-88 | A tab keeps the list order |
| SizePresetPicker.EveryPresetHasATab | client/src/components/design/SizePresetPicker.tsx:46-88 | Every preset's platform has a tab, and that tab lists the preset |
| SizePresetPicker.PresetSelect | client/src/components/design/SizePresetPicker.tsx:48-51 | Selects the preset's width, height and id, then closes |
| SizePresetPicker.CustomSelect | client/src/components/design/SizePresetPicker.tsx:53-58 | Selects the size with no preset and closes iff both sizes are positive; otherwise nothing changes |
| SizePresetPicker.DisabledExactlyWhenInert | client/src/components/design/SizePresetPicker.tsx:53-58 | The button is disabled exactly when a click would do nothing |
| SizePresetPicker.TypedSize | client/src/components/design/SizePresetPicker.tsx:133-146 | Non-numeric text gives 0; otherwise the parsed number |
| SizePresetPicker.NonNumericInputDisables | client/src/components/design/SizePresetPicker.tsx:133-185 | Non-numeric input sets 0 and disables the button |
| SizePresetPicker.TypedSizesSelect | client/src/components/design/SizePresetPicker.tsx:53-146 | Positive decimal sizes typed in are selected as typed |
| Js.Trim | client/src/pages/Goals.tsx:102 | trim gives the slice of the text between blank ends, with no whitespace at either end of the result |
| Js.TrimEmptyIffBlank | client/src/pages/CreatePost.tsx:54-61 | The trimmed text is empty exactly when the text is all whitespace |
| Js.Includes | client/src/pages/Design.tsx:55 | includes holds exactly when the query occurs at some position |
| Js.Split | server/routers.ts:144 | split never gives an empty list |
| Js.Filter | client/src/pages/Settings.tsx:164 | filter keeps exactly the passing elements, drawn from the input |
| Js.FilterPartition | client/src/pages/Design.tsx:63-64 | A filter and its complement split the list |
| Js.ParseInt | client/src/components/design/SizePresetPicker.tsx:133 | parseInt gives NaN exactly when there is no digit after the optional whitespace and sign |
| Js.ParseIntOfNatToString | client/src/components/design/SizePresetPicker.tsx:133 | parseInt reads back a decimal rendering |
| Js.NatToStringInjective | server/routers.ts:145 | Different numbers print differently |
| Js.Round | client/src/pages/Goals.tsx:163 | Math.round gives the integer within a half, halves rounded up |

## Left out

- Fabric rendering and serialisation: `toJSON`, `loadFromJSON`, `toDataURL`, stacking order and `clear`. These are foreign library calls. A snapshot is the text a foreign `encode` produces, and loading is a foreign `parse` that may fail. No serialisation round trip is claimed.
- Whether fabric raises object events during `loadFromJSON`. `DesignCanvas.Canvas.Replay` models a load under undo or redo as one capture attempt, which the flag suppresses. `DesignCanvas.Canvas.Mount` and `DesignCanvas.Canvas.LoadJson` load with the listeners attached and the flag clear, and model exactly one capture after the load; any per-object events fabric raises during that load are not modelled.
- The asynchronous timing of undo and redo: each is one atomic step. A load that fails leaves the flag set, as the source does, because the `.then` that clears it never runs.
- `addImage`: the image load is asynchronous and the fit-to-80% scale is floating point.
- Multi-selection: `deleteSelected` removes the one active object only.
- The canvas-size and background-prop effects (DesignCanvas.tsx:122-135): they only re-render.
- `PropertiesPanel.Panel.UpdateProperty` writes through to the selected object but raises no object event, so panel edits are not captured in the history. This is as written.
- Numbers in the panel are exact reals; fabric's float values and the slider and number inputs are not modelled.
- The drizzle and MySQL layer: the tables are in-memory sequences. `ORDER BY createdAt DESC` is not modelled; queries keep table order.
- `getUserByOpenId`, `getPlatformById`, the `...ById` queries, the create and update writes and `linkPostToAsset` are plain reads and writes of one row and are not modelled.
- zod validation of update inputs: `Routers.SplitUpdate` takes the input after zod has dropped unknown keys.
- `nanoid` and the clock: the random id and "now" are parameters.
- `Routers.Upcoming` returns dated posts in a stable sort by date. JavaScript's sort comparator returns 0 for undated posts, but the filter has already removed them, so this changes nothing.
- `Js.ParseInt`: the `0x` prefix and other radix handling of parseInt are not modelled; the input fields here only ever see typed decimal text.
- `Goals.Progress` and `Goals.Rate`: exact rational arithmetic stands in for JavaScript floating point, so results at exact .5 boundaries may differ from the browser.
- `Goals.StatusColor`: looking up a name such as "toString" from the object prototype is not modelled; any text outside the four statuses is grey.
- Goals date logic (days remaining, the 90-day default end date): it depends on the clock.
- The CreatePost template texts are constant strings; `ApplyTemplate` takes any text.
- `Json.ParseStrings` parses only JSON arrays of strings, which is all the page stores. Any other JSON value counts as unparseable and gives the empty list. The page itself would keep such a value as its list.
- `Json.Stringify`: lone surrogate characters are written as themselves, not escaped as `\uXXXX` as modern JSON.stringify does.
- Settings loading state and the server-side `settings.update`: the page's load effect waits for the row, and the server is taken to overwrite the sent columns (`Settings.Merge`).
- File upload in Settings (`handleFileUpload`): storage I/O.
- `DesignPage.NumberText`: numbers in the new-design address are printed as integers; JavaScript's printing of fractional or very large numbers is not modelled. `DesignPage.CreateNewUrlDetermines` is stated for non-negative sizes.
- `Js.ToLower` folds ASCII letters only; JavaScript's full Unicode case mapping is not modelled.
- TemplateCard, DesignEditor, ExportDialog and ElementToolbar: presentation and I/O around the canvas.
- The size picker's quick-ratio buttons set both sizes to constants and are covered by `SizePresetPicker.CustomSelect`.

## Findings

| source | as written | input that shows it | evidently intended | confidence | as-written member | corrected member |
|---|---|---|---|---|---|---|
| client/src/pages/Settings.tsx:70-72 | The load effect reads the notification switches with `\|\| 1`, so a stored 0 becomes 1 | Turn "Email Notifications" off and save the notifications section: the row stores emailNotifications = 0, and after a reload the switch shows on again | Only a missing (null) column should fall back, i.e. `?? 1`, so a switch saved off stays off | not executed | Settings.SwitchedOffNotificationReloadsOn | Settings.SavedSectionReadsBack |
