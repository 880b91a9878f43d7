# Markdown-Checkin core, modelled in Dafny

Markdown-Checkin is a Markdown editor that runs in the browser. It has two front ends:
- the Vue composables under `src/composables/`;
- the older single-page `script.js`.

This project models the parts of both that keep state.

- **The local file table** (`file_system.dfy`). This is a dictionary from file name to text, kept in localStorage under `markdownStudioFiles`. Around the dictionary are the open file, the editor text and the file-name field. The operations are open, new, save (which also renames), delete, import, and the load at mount. Both front ends have the same rules. Every "exists" test in the code is JavaScript truthiness, so a file whose text is empty counts as absent. The map's key order matters because the first key is opened at load, so it is modelled as a sequence.
- **The desktop pet** (`desktop_pet.dfy`, `pet_controller.dfy`). This is a figure you can drag and resize. Poking its top half makes it wobble like a spring. Three pokes in quick succession make it cry.
  - `DesktopPet` holds the pure transitions and their properties.
  - Time is explicit. Pending `setTimeout` callbacks are deadlines, and `Tick` fires the ones that fall due. Pending `requestAnimationFrame` callbacks are handles that the environment fires.
  - `PetComposable.PetController` is the composable as an object. Its refs and closure variables are fields, and each handler is a method. Each method is proved to perform its `DesktopPet` transition.
- **Upload statistics and the upload** (`github.dfy`). A per-day success count is kept in localStorage under `uploadStats`. From it come today's count and a seven-day chart. The upload itself has a validation step, a lookup of the existing `sha`, and a PUT. The calendar and the two network calls are parameters.
- **Sidebars** (`sidebar.dfy`). Two collapse flags, persisted as '1' or '0'.
- **Theme** (`theme.dfy`). The colour theme, the document attribute, the stored key and the two highlight stylesheets.
- **Custom highlight colours** (`highlight_colors.dfy`, `script.js` only). These are per-theme colour overrides for fourteen syntax classes. A typed colour is only accepted if it passes the six-digit hex check. There are two colour lookups, one for the settings panel and one for the generated stylesheet.

`text.dfy` models the pieces of the JavaScript runtime that the code relies on:
- `trim`;
- `includes`;
- the decimal text of a counter in a template literal;
- the ASCII case folding behind the `/i` flag.

`wrappers.dfy` holds `Option`, which stands for `null` and `undefined`.

Where the two front ends differ, both variants are modelled:
- The composable's theme falls back to 'dark'; `script.js` falls back to 'light'.
- `script.js` toggles the theme from the document attribute.
- `script.js` has a separate close button for the right sidebar.

Three behaviours of the code that are easy to misread:
- **Poke window.** The three-second window restarts at every poke, so it trails the last poke, not the first. See `DesktopPet.PokeWindowTrailsLastPoke`.
- **Resize minimum.** After the 50-pixel minimum is applied, the size is capped at the window's edge. A resize can therefore leave the pet narrower than 50 pixels. See `DesktopPet.ResizeCanUndercutMinimum`.
- **Unmount.** It does not clear every timer. See Findings.

## Model

| member | source | states |
|---|---|---|
| Text.LeadingSpaces | src/composables/useFileSystem.js:66 | the white space `trim` drops at the front: every character it counts is ECMAScript white space and the next one is not |
| Text.TrailingSpaces | src/composables/useFileSystem.js:66 | symmetric for the white space `trim` drops at the end |
| Text.TrimEmptyIffBlank | src/composables/useGitHub.js:26-31 | a trimmed setting is empty exactly when every character of it is white space |
| Text.TrimIsSlice | src/composables/useFileSystem.js:66 | the trimmed name is the contiguous part of the typed name that starts after its leading white space |
| Text.TrimEndsNotSpace | src/composables/useFileSystem.js:66 | the trimmed name has no white space at either end |
| Text.TrimIdempotent | src/composables/useGitHub.js:26-29 | trimming a trimmed value changes nothing |
| Text.Decimal | src/composables/useFileSystem.js:55 | the counter's decimal text is non-empty and made of digits |
| Text.DecimalRoundTrip | src/composables/useFileSystem.js:55 | reading back the decimal text of the counter gives the counter |
| Text.DecimalInjective | src/composables/useFileSystem.js:136 | different counters give different suffixes |
| Text.LowerAscii | src/composables/useFileSystem.js:131 | case folding for the `/i` flag maps exactly the ASCII capitals to small letters |
| Text.LowerAsciiString | src/composables/useFileSystem.js:131 | case folding a string folds each character in place, leaves no ASCII capital and keeps every other character |
| FileSystem.Without | src/composables/useFileSystem.js:81 | after `delete`, the key order holds exactly the other keys, with no duplicates |
| FileSystem.CandidateInjective | src/composables/useFileSystem.js:54-57 | the names the loop tries (base, base1, base2, ...) are pairwise distinct |
| FileSystem.CandidatesCount | src/composables/useFileSystem.js:54-57 | the first n candidates are n different names |
| FileSystem.PresentPrefixBound | src/composables/useFileSystem.js:54-57 | no more candidates can be taken than there are files, so the loop ends |
| FileSystem.FreeIndex | src/composables/useFileSystem.js:135-138 | the search stops at the first candidate that is not present, after at most one more step than there are files |
| FileSystem.FirstFreeUnique | src/composables/useFileSystem.js:135-138 | the first free candidate is the only one with every earlier candidate taken |
| FileSystem.FindFreeName | src/composables/useFileSystem.js:51-57 | the `while (files[name])` loop returns the first free candidate and its final counter |
| FileSystem.FirstFreeAfterEmptyEntry | src/composables/useFileSystem.js:54-59 | storing an empty text under the chosen name leaves that name the first free one |
| FileSystem.StripMdSplitsName | src/composables/useFileSystem.js:131 | the base name plus what was stripped rebuilds the file name; what was stripped is `.md` in some case, and it is stripped exactly when the last three characters fold to `.md` |
| FileSystem.OpenAbsentIsNoop | src/composables/useFileSystem.js:34 | opening a name whose text is missing or empty changes nothing |
| FileSystem.OpenWritesBackThenLoads | src/composables/useFileSystem.js:33-47 | opening first writes the editor text back under the open name and persists, then loads the file's text, name and name field |
| FileSystem.NewFileAddsEmptyEntry | src/composables/useFileSystem.js:50-62 | a new file is the first free 新文件 name with empty text and is persisted; its empty text is falsy, so the open file does not change |
| FileSystem.NewFileIdempotent | src/composables/useFileSystem.js:50-62 | a second new-file without an edit in between picks the same name and changes nothing |
| FileSystem.SaveBlankNameIsNoop | src/composables/useFileSystem.js:65-70 | saving with a blank name changes nothing |
| FileSystem.SaveDeclinedIsNoop | src/composables/useFileSystem.js:73-77 | declining to overwrite another present file changes nothing |
| FileSystem.RenameKeepsBothNames | src/composables/useFileSystem.js:79-87 | renaming open file a (non-empty text) to b ends with both names holding the text and b open: `openFile` writes a back, and a moves to the end of the key order |
| FileSystem.SaveStoresAndOpens | src/composables/useFileSystem.js:65-88 | an accepted save of non-empty text stores it under the trimmed name, persists and opens that file; with no file open, that entry is the only change to the files |
| FileSystem.SaveSameNameWritesText | src/composables/useFileSystem.js:84-87 | saving under the open name writes the editor text to it and persists |
| FileSystem.SaveEmptyTextKeepsOpenFile | src/composables/useFileSystem.js:85-87 | saving empty text never moves the open file, even after a rename |
| FileSystem.DeleteNoopCases | src/composables/useFileSystem.js:91-101 | with no truthy target, a target that is not present, or a declined confirm, delete changes nothing |
| FileSystem.DeleteRemovesOnlyTarget | src/composables/useFileSystem.js:103-114 | a confirmed delete removes exactly the target key and persists; the editor is cleared exactly when the target was open |
| FileSystem.DeleteCurrentClearsEditor | src/composables/useFileSystem.js:92-112 | deleting with no argument targets the open file and clears the open name, the text and the name field |
| FileSystem.ImportUsesFreeName | src/composables/useFileSystem.js:130-142 | an import goes to the first free name built from the file name without `.md`. Unless that name is the open file, it stores the imported text there and, when the text is non-empty, opens and shows it. Opening writes the editor text back to the open file; other files keep their text; the table is persisted |
| FileSystem.ImportOverEmptyOpenFileLosesText | src/composables/useFileSystem.js:130-142 | as written, importing over an open file saved empty loses the imported text |
| FileSystem.ImportIntendedKeepsText | src/composables/useFileSystem.js:130-142 | with the open name reserved, imported text is stored, opened and shown |
| FileSystem.MountIsSynced | src/composables/useFileSystem.js:14-23 | after the load at mount, the persisted copy and the table agree |
| FileSystem.OpenKeepsSynced | src/composables/useFileSystem.js:33-47 | open keeps the persisted copy equal to the table |
| FileSystem.NewFileKeepsSynced | src/composables/useFileSystem.js:50-62 | new file keeps the persisted copy equal to the table |
| FileSystem.SaveKeepsSynced | src/composables/useFileSystem.js:65-88 | save keeps the persisted copy equal to the table |
| FileSystem.DeleteKeepsSynced | src/composables/useFileSystem.js:91-117 | delete keeps the persisted copy equal to the table |
| FileSystem.ImportKeepsSynced | src/composables/useFileSystem.js:130-144 | import keeps the persisted copy equal to the table |
| FileSystem.PutKeepsWellFormed | src/composables/useFileSystem.js:59 | an assignment keeps the key order duplicate-free and equal to the key set |
| FileSystem.RemoveKeepsWellFormed | src/composables/useFileSystem.js:81 | a delete does the same |
| FileSystem.PersistKeepsWellFormed | src/composables/useFileSystem.js:152-154 | persisting stores a well-formed copy |
| FileSystem.OpenKeepsWellFormed | src/composables/useFileSystem.js:33-47 | open keeps both key orders well formed |
| FileSystem.NewFileKeepsWellFormed | src/composables/useFileSystem.js:50-62 | creating a file keeps the key orders in step with the keys |
| FileSystem.SaveKeepsWellFormed | src/composables/useFileSystem.js:65-88 | saving keeps the key orders in step with the keys |
| FileSystem.DeleteKeepsWellFormed | src/composables/useFileSystem.js:91-117 | deleting keeps the key orders in step with the keys |
| FileSystem.ImportKeepsWellFormed | src/composables/useFileSystem.js:120-144 | importing keeps the key orders in step with the keys |
| FileSystem.OperationsKeepWellFormed | src/composables/useFileSystem.js:33-144 | every operation keeps the live and persisted key orders in step with their keys |
| FileSystem.MountKeepsWellFormed | src/composables/useFileSystem.js:14-23 | a well-formed stored copy gives a well-formed table at mount |
| FileSystem.LocalFiles.constructor | src/composables/useFileSystem.js:7-23 | the refs' initial values followed by `initFileSystem` give the mount state |
| FileSystem.LocalFiles.InitFileSystem | src/composables/useFileSystem.js:14-23 | loads the stored dictionary and opens its first key |
| FileSystem.LocalFiles.SetEntry | src/composables/useFileSystem.js:59 | `files[k] = v`; a new key goes to the end of the order |
| FileSystem.LocalFiles.DeleteEntry | src/composables/useFileSystem.js:81 | `delete files[k]` |
| FileSystem.LocalFiles.SaveFilesToStorage | src/composables/useFileSystem.js:152-154 | the stored copy becomes the live dictionary |
| FileSystem.LocalFiles.OpenFile | src/composables/useFileSystem.js:33-47 | performs `Open` on the refs |
| FileSystem.LocalFiles.NewFile | src/composables/useFileSystem.js:50-62 | performs `NewEntry` on the refs |
| FileSystem.LocalFiles.SaveFile | src/composables/useFileSystem.js:65-88 | performs `Save` on the refs, given the user's answer to the overwrite question |
| FileSystem.LocalFiles.DeleteFile | src/composables/useFileSystem.js:91-117 | performs `Delete` on the refs, given the user's answer to the delete question |
| FileSystem.LocalFiles.ImportFile | src/composables/useFileSystem.js:130-144 | performs `Import` on the refs once the picked file's name and text have been read |
| FileSystem.LocalFiles.SetContent | src/composables/useFileSystem.js:9 | binding the editor changes only the text |
| FileSystem.LocalFiles.SetFileNameInput | src/composables/useFileSystem.js:10 | binding the name field changes only the field |
| GitHub.Record | src/composables/useGitHub.js:17-21 | recording a success adds today's key and no other |
| GitHub.Slice5 | src/composables/useGitHub.js:91 | a label is the key with its first five characters dropped |
| GitHub.WeekChart | src/composables/useGitHub.js:85-95 | the chart has seven labels and seven counts |
| GitHub.RecordCountsOnce | src/composables/useGitHub.js:17-21 | a success raises today's count by one and no other day's count |
| GitHub.RecordRaisesTodaysBar | src/composables/useGitHub.js:17-22 | after a success, the last bar of the chart (today's) is one higher and the labels are unchanged |
| GitHub.RecordTimesCounts | src/composables/useGitHub.js:17-21 | n successes raise today's count by exactly n |
| GitHub.UploadCases | src/composables/useGitHub.js:25-79 | incomplete settings send nothing and fail; otherwise the PUT goes to the trimmed contents URL with the text and the looked-up `sha` when the lookup answered ok; success exactly when the PUT answers ok; a failed lookup never stops the upload |
| GitHub.BlankSettingRejected | src/composables/useGitHub.js:26-34 | an owner, repository, path or token that is empty or all white space makes the settings incomplete |
| GitHub.Uploader.constructor | src/composables/useGitHub.js:4-9 | the refs' initial values |
| GitHub.Uploader.UpdateStats | src/composables/useGitHub.js:81-96 | the loop from six days ago to today fills the chart with `WeekChart`, and today's count is set; nothing else changes |
| GitHub.Uploader.RecordUploadSuccess | src/composables/useGitHub.js:17-23 | the stats become `Record` of the old stats and the display is recomputed from them |
| GitHub.Uploader.UploadToGitHub | src/composables/useGitHub.js:25-79 | returns what `UploadOutcome` predicts; the stats change only on success, and then by one success today |
| Sidebar.RestoreEncodeRoundTrip | src/composables/useSidebar.js:9 | the stored '1'/'0' decodes to the flag it encodes |
| Sidebar.SettersTouchOnlyTheirOwn | src/composables/useSidebar.js:7-15 | each setter sets its own flag and key and nothing else |
| Sidebar.ToggleTwiceRestores | src/composables/useSidebar.js:17-23 | a toggle negates the flag, and two toggles restore it |
| Sidebar.MountRestores | src/composables/useSidebar.js:25-41 | at mount each flag is collapsed when its key is missing and otherwise collapsed exactly when it is '1'; both are written back |
| Sidebar.PersistRoundTrip | src/composables/useSidebar.js:7-41 | what a setter stores is what the next page load restores |
| Sidebar.MountIdempotent | src/composables/useSidebar.js:25-41 | mounting again changes nothing |
| Sidebar.Sidebars.constructor | src/composables/useSidebar.js:4-5 | both flags start collapsed |
| Sidebar.Sidebars.SetLeftSidebar | src/composables/useSidebar.js:7-10 | performs `SetLeft` |
| Sidebar.Sidebars.SetRightSidebar | script.js:308-311 | performs `SetRight` |
| Sidebar.Sidebars.ToggleLeftSidebar | script.js:76-78 | performs `ToggleLeft` |
| Sidebar.Sidebars.ToggleRightSidebar | src/composables/useSidebar.js:21-23 | performs `ToggleRight` |
| Sidebar.Sidebars.CloseRightSidebar | script.js:323-325 | collapses the right sidebar |
| Sidebar.Sidebars.OnMounted | src/composables/useSidebar.js:25-41 | performs `Mount` |
| Theme.InitialTheme | src/composables/useTheme.js:4 | a stored non-empty theme is used, otherwise the fallback |
| Theme.SetThemeAgrees | src/composables/useTheme.js:6-18 | `setTheme(t)` makes the value, the attribute and the stored key all `t`; when both sheets exist, the light sheet is disabled exactly for 'dark' and the dark sheet exactly otherwise |
| Theme.ExactlyOneSheetEnabled | script.js:38-40 | after any `setTheme`, exactly one highlight sheet is enabled |
| Theme.ToggleTwice | src/composables/useTheme.js:20-22 | a toggle always changes the theme; two toggles restore 'dark' or 'light' and turn any other value into 'light' |
| Theme.TogglesAgreeAfterSet | script.js:51-55 | once a theme is applied, the attribute-driven toggle agrees with the value-driven toggle; before that it picks 'dark' |
| Theme.ScriptStartup | script.js:49 | at page load the stored theme, or 'light', is applied to the attribute, the key and the sheets |
| Theme.MountIdempotent | src/composables/useTheme.js:24-26 | re-applying at mount keeps the theme and is idempotent |
| Theme.PersistRoundTrip | src/composables/useTheme.js:4-9 | what `setTheme` stores is the theme of the next page load |
| Theme.ThemeSwitch.constructor | src/composables/useTheme.js:4 | the initial theme from storage or the fallback; the document is untouched |
| Theme.ThemeSwitch.SetThemeTo | script.js:34-47 | performs `SetTheme` |
| Theme.ThemeSwitch.Toggle | src/composables/useTheme.js:20-22 | performs `ToggleTheme` |
| Theme.ThemeSwitch.ToggleByAttribute | script.js:51-55 | performs `ToggleFromAttribute` |
| Theme.ThemeSwitch.OnMounted | src/composables/useTheme.js:24-26 | performs `Mount` |
| HighlightColors.HexDigitValue | script.js:591 | a hex digit has a value below 16 |
| HighlightColors.HexChar | script.js:584-586 | the lower-case digit a picker reports for a value: a hex digit with that value |
| HighlightColors.HexDigitsAreLower | script.js:584-586 | the digits written for a picked colour are hex digits and none is a capital |
| HighlightColors.FormatHex | script.js:584-586 | every colour a picker reports passes the hex check |
| HighlightColors.HexDigitsRoundTrip | script.js:584-586 | reading the digits of a value back gives the value |
| HighlightColors.HexNumberBound | script.js:591 | n hex digits denote a value below 16^n |
| HighlightColors.HexNumberRoundTrip | script.js:591 | writing out the value of some digits gives those digits in lower case |
| HighlightColors.FormatHexRoundTrip | script.js:584-591 | every 24-bit colour is accepted and reads back as itself |
| HighlightColors.HexValueRoundTrip | script.js:590-593 | every accepted colour is a 24-bit value whose lower-case spelling is its formatted form |
| HighlightColors.HexColorsAreFormatted | script.js:591 | the hex check accepts exactly the strings that are, up to case, a formatted 24-bit value |
| HighlightColors.DefaultsCoverClasses | script.js:503-555 | each built-in palette has a colour for exactly the fourteen highlighted classes |
| HighlightColors.DefaultsAreHexColors | script.js:503-555 | both themes have a colour for every one of the fourteen classes, and each one passes the hex check |
| HighlightColors.GetUserColors | script.js:621-624 | with nothing stored, empty palettes for both themes; otherwise the stored object |
| HighlightColors.SaveColorSetsOneEntry | script.js:627-637 | saving sets the one entry, creates the theme's palette if needed, and keeps every other entry and theme |
| HighlightColors.SaveColorKeepsAllHex | script.js:584-596 | saving a hex colour into an all-hex store keeps it all-hex |
| HighlightColors.ColorLookupsAgree | script.js:564-565 | for a built-in theme with a stored palette, the panel and the stylesheet show the same colour: the override when non-empty, else the default; it is hex when the store is |
| HighlightColors.ColorLookupErrors | script.js:656 | both lookups throw without a stored palette for the theme; the panel also throws for a theme without defaults, where the stylesheet uses an override |
| HighlightColors.ResetShowsDefaults | script.js:600-607 | after a reset every class shows its default colour |
| HighlightColors.PickerValue | script.js:571 | a colour picker holds a valid hex colour: an accepted one in lower case, anything else as black |
| HighlightColors.PanelTextsShowLookups | script.js:561-576 | for a built-in theme with a stored palette, the panel gets a field for every class showing the colour the stylesheet applies (hex when the store is); otherwise the first lookup throws and the panel is empty |
| HighlightColors.ResetPanelShowsDefaults | script.js:600-607 | after a reset both inputs of every class show its default colour, the picker in lower case |
| HighlightColors.ColorPanel.constructor | script.js:557-576 | the panel starts from the stored overrides, with each text field showing the panel colour and each picker its sanitized value |
| HighlightColors.ColorPanel.Rebuild | script.js:611-617 | after a theme switch the panel is built again for the new theme from the same store |
| HighlightColors.ColorPanel.SaveColorSetting | script.js:627-637 | the store becomes `SaveColor` of the old store |
| HighlightColors.ColorPanel.OnColorInput | script.js:584-588 | a picked colour is copied to the text field and saved; the store stays all-hex |
| HighlightColors.ColorPanel.OnHexInput | script.js:590-596 | typed text is copied (lower-cased by the picker) and saved exactly when it passes the hex check; the store stays all-hex |
| HighlightColors.ColorPanel.ResetColors | script.js:600-608 | a confirmed reset removes the stored overrides and rebuilds the panel from the defaults; a declined one changes nothing |
| DesktopPet.Clamp | src/composables/useDesktopPet.js:106 | `Math.max(lo, Math.min(hi, v))` lies in [lo, hi], is v inside it, and is lo when the range is empty |
| DesktopPet.IsBottomHalf | src/composables/useDesktopPet.js:48-51 | the pointer (a mouse event's own `clientY`, else the first touch's) lies strictly below the middle line of the element; `None` exactly when a non-mouse event has no touch, where the lookup throws |
| DesktopPet.ClampIntoView | src/composables/useDesktopPet.js:283-284 | a drag target is kept inside the window when the pet fits, and is followed exactly inside it |
| DesktopPet.Pending | src/composables/useDesktopPet.js:176-181 | the timeouts left after time passes are exactly those still in the future |
| DesktopPet.InitialInv | src/composables/useDesktopPet.js:5-46 | the state at setup and mount satisfies every invariant |
| DesktopPet.FireTimeoutsFrame | src/composables/useDesktopPet.js:176-181 | the settle and mount timeouts touch only the spring, its frames and the timer list |
| DesktopPet.AdvancePokes | src/composables/useDesktopPet.js:221 | once time passes the poke deadline the counter is zero; before that it is unchanged |
| DesktopPet.FireTimeoutsKeepsHandles | src/composables/useDesktopPet.js:440-445 | firing timeouts keeps every frame handle below the next one |
| DesktopPet.AdvanceKeepsInv | src/composables/useDesktopPet.js:135-181 | passing time keeps the poke, shake, timer and handle invariants |
| DesktopPet.PokeHandlersKeepInv | src/composables/useDesktopPet.js:212-333 | the two poke handlers keep the counter below three and zero while crying |
| DesktopPet.TimerAnimsKeepHandles | src/composables/useDesktopPet.js:176-181 | the settle and mount callbacks hand out only fresh frame handles |
| DesktopPet.FrameHandlersKeepInv | src/composables/useDesktopPet.js:65-148 | the spring and crying-shake frames and `stopRun` keep the poke, shake, timer and handle invariants |
| DesktopPet.CryingHandlersKeepInv | src/composables/useDesktopPet.js:151-182 | starting and ending the crying keep the invariants: the counter is zero while crying and the shake pending exactly then |
| DesktopPet.StartDragKeepsInv | src/composables/useDesktopPet.js:185-209 | a drag start keeps the invariants |
| DesktopPet.ResizeHandlersKeepInv | src/composables/useDesktopPet.js:357-413 | starting, moving and ending a resize keep the invariants |
| DesktopPet.DragHandlersKeepInv | src/composables/useDesktopPet.js:336-434 | moving and ending a drag, and a window resize, keep the invariants |
| DesktopPet.PokeListenersKeepInv | src/composables/useDesktopPet.js:237-252 | the move and release listeners of a mouse poke keep the invariants |
| DesktopPet.TouchDragListenersKeepInv | src/composables/useDesktopPet.js:272-291 | the listeners of a bottom-half touch keep the invariants |
| DesktopPet.TouchPokeListenersKeepInv | src/composables/useDesktopPet.js:313-328 | the listeners of a top-half touch keep the invariants |
| DesktopPet.UnmountKeepsInv | src/composables/useDesktopPet.js:449-457 | unmounting, as written and with every timer cleared, keeps the invariants |
| DesktopPet.SpringEventsKeepInv | src/composables/useDesktopPet.js:65-182 | every frame callback and every call that starts or stops the spring or the crying keeps the invariants |
| DesktopPet.PressEventsKeepInv | src/composables/useDesktopPet.js:185-413 | every press and release handler bound on the pet keeps the invariants |
| DesktopPet.GestureEventsKeepInv | src/composables/useDesktopPet.js:237-331 | every listener a poke or a touch installs keeps the invariants |
| DesktopPet.MoveEventsKeepInv | src/composables/useDesktopPet.js:336-434 | the mouse-move and window-resize listeners keep the invariants |
| DesktopPet.EventsKeepInv | src/composables/useDesktopPet.js:65-457 | every handler, frame and passage of time keeps the invariants |
| DesktopPet.AdvanceIntendedKeepsSpringInv | src/composables/useDesktopPet.js:176-181 | with the corrected settle callback, passing time keeps a running spring's frame pending |
| DesktopPet.SpringEventsKeepSpringInv | src/composables/useDesktopPet.js:65-182 | frames and spring or crying calls keep a running spring's frame pending and the pet not crying |
| DesktopPet.PressEventsKeepSpringInv | src/composables/useDesktopPet.js:185-413 | the press and release handlers keep a running spring's frame pending |
| DesktopPet.ListenerEventsKeepSpringInv | src/composables/useDesktopPet.js:237-434 | the gesture, mouse-move and window-resize listeners keep a running spring's frame pending |
| DesktopPet.IntendedEventsKeepSpringInv | src/composables/useDesktopPet.js:65-457 | with the corrected settle callback, every event keeps a running spring's next frame pending |
| DesktopPet.CryingBlocksInteraction | src/composables/useDesktopPet.js:186 | while crying, drag, resize, both poke handlers, `movePet`, `startRun` and both move handlers do nothing |
| DesktopPet.MovePetClamps | src/composables/useDesktopPet.js:103-117 | a poke makes a stopped spring: 0.05 degree per pixel up to 60, and 0.1 pixel per pixel up to 110; the transform shows it; a pending frame is not cancelled |
| DesktopPet.RunControl | src/composables/useDesktopPet.js:119-132 | `stopRun` stops the spring and cancels its frame; `startRun` schedules exactly one fresh frame unless running or crying, and is then a no-op |
| DesktopPet.SpringFrameCases | src/composables/useDesktopPet.js:65-101 | a frame that is not pending does nothing; with the spring stopped or the pet crying, the loop ends; otherwise the spring settles below the cut and stops, or it is shown and one more frame is asked for |
| DesktopPet.ShakeAngleRange | src/composables/useDesktopPet.js:144-146 | the crying shake swings between -15 and 14.85 degrees with a period of 200 ms |
| DesktopPet.CryingGuards | src/composables/useDesktopPet.js:151-167 | `triggerCrying` changes nothing while the pet already cries, and `stopCrying` nothing while it does not |
| DesktopPet.CryCycle | src/composables/useDesktopPet.js:151-182 | crying stops the spring, clears the counter and starts the shake; stopping it ends the shake, resets the transform and sets one 300 ms timeout |
| DesktopPet.ThreeQuickPokesCry | src/composables/useDesktopPet.js:212-230 | three pokes, each within three seconds of the one before, make the pet cry; the third does not play the sound |
| DesktopPet.PokeWindowTrailsLastPoke | src/composables/useDesktopPet.js:218-221 | every poke restarts the three-second window |
| DesktopPet.SpacedPokeStaysCalm | src/composables/useDesktopPet.js:218-230 | a poke three seconds or more after a calm state counts as the first again and plays the sound |
| DesktopPet.SpacedPokesNeverCry | src/composables/useDesktopPet.js:218-226 | pokes at least three seconds apart never make the pet cry, however many there are |
| DesktopPet.DragStaysInView | src/composables/useDesktopPet.js:336-354 | a drag keeps the pet inside the window when it fits, follows the pointer inside it, and leaves the size alone |
| DesktopPet.ResizeBounds | src/composables/useDesktopPet.js:357-377 | a resize never passes the right or bottom edge; it keeps the 50-pixel minimum where the window leaves room; within the bounds it follows the pointer |
| DesktopPet.ResizeCanUndercutMinimum | src/composables/useDesktopPet.js:363-376 | 20 pixels from the window's edge, a resize leaves the pet 20 pixels wide |
| DesktopPet.WindowResizeBounds | src/composables/useDesktopPet.js:428-434 | a window resize pulls the far edges back inside without a lower bound: a window narrower than the pet pushes it past the left edge |
| DesktopPet.SettleIdempotent | src/composables/useDesktopPet.js:176-181 | several settle callbacks in a row act like one |
| DesktopPet.SettleLeavesSpringStalled | src/composables/useDesktopPet.js:176-181 | as written, the settle callback marks the spring running with no new frame; `startRun` then does nothing until a `movePet` or `stopRun` clears the flag, and `stopRun` then `startRun` schedules a frame again |
| DesktopPet.CryingLeavesSpringStalled | src/composables/useDesktopPet.js:151-181 | from setup: cry, stop crying, wait 300 ms; the spring is marked running with no frame, and the mount wobble cannot start it |
| DesktopPet.SettleIntendedResumesWobble | src/composables/useDesktopPet.js:176-181 | the corrected callback resumes the wobble from r = 5, y = 3, with its frame pending |
| DesktopPet.CryingThenSettleIntended | src/composables/useDesktopPet.js:151-181 | with the correction, crying and then settling leaves exactly one frame pending for the running spring |
| DesktopPet.UnmountLeavesSettleTimer | src/composables/useDesktopPet.js:449-457 | as written, a settle timeout set before unmount still fires after it and sets the spring running |
| DesktopPet.UnmountIntendedIsQuiet | src/composables/useDesktopPet.js:449-457 | with every timer cleared, nothing happens after unmount however much time passes |
| PetComposable.PetController.constructor | src/composables/useDesktopPet.js:5-46 | the refs' initial values, with the mount timeout pending |
| PetComposable.PetController.RequestPhysicsFrame | src/composables/useDesktopPet.js:100 | a fresh frame handle is stored in `animationFrameId` and pending |
| PetComposable.PetController.StopRun | src/composables/useDesktopPet.js:126-132 | performs `StopRun` |
| PetComposable.PetController.StartRun | src/composables/useDesktopPet.js:119-124 | performs `StartRun` |
| PetComposable.PetController.UpdatePetStyle | src/composables/useDesktopPet.js:58-63 | shows the spring's pose unless the pet is crying |
| PetComposable.PetController.MovePet | src/composables/useDesktopPet.js:103-117 | performs `MovePet` |
| PetComposable.PetController.RunPhysics | src/composables/useDesktopPet.js:65-101 | performs `SpringFrame` for the given step's values |
| PetComposable.PetController.ResetInteractCount | src/composables/useDesktopPet.js:135-138 | the counter is zero and its timeout cancelled |
| PetComposable.PetController.CryingShake | src/composables/useDesktopPet.js:141-148 | performs `CryingShake` |
| PetComposable.PetController.CryingShakeFrame | src/composables/useDesktopPet.js:147 | the pending shake frame fires |
| PetComposable.PetController.TriggerCrying | src/composables/useDesktopPet.js:151-163 | performs `TriggerCrying` |
| PetComposable.PetController.StopCrying | src/composables/useDesktopPet.js:166-182 | performs `StopCrying` |
| PetComposable.PetController.SettleTimerFires | src/composables/useDesktopPet.js:176-181 | performs `Settle`, the callback as written |
| PetComposable.PetController.MountTimerFires | src/composables/useDesktopPet.js:440-445 | performs `MountTimer` |
| PetComposable.PetController.FirePokeTimer | src/composables/useDesktopPet.js:221 | performs `FirePokeReset`: the reset fires once its deadline has come |
| PetComposable.PetController.FireDueTimeouts | src/composables/useDesktopPet.js:176-181 | performs `FireTimeouts`: the due mount and settle callbacks, in deadline order |
| PetComposable.PetController.Elapse | src/composables/useDesktopPet.js:135-181 | performs `Tick`: time passes and due timeouts fire |
| PetComposable.PetController.StartDrag | src/composables/useDesktopPet.js:185-209 | performs `StartDrag` |
| PetComposable.PetController.CountPoke | src/composables/useDesktopPet.js:218-221 | performs `CountPoke`: one more poke, with the reset timeout restarted 3000 ms ahead |
| PetComposable.PetController.StartTopHalfInteraction | src/composables/useDesktopPet.js:212-256 | performs `StartTopHalfInteraction`, and returns whether the sound plays |
| PetComposable.PetController.OnPokeMove | src/composables/useDesktopPet.js:237-246 | performs `PokeMove` |
| PetComposable.PetController.OnPokeRelease | src/composables/useDesktopPet.js:248-252 | performs `PokeRelease` |
| PetComposable.PetController.HandleTouchStart | src/composables/useDesktopPet.js:259-333 | performs `HandleTouchStart`, and returns whether the sound plays |
| PetComposable.PetController.OnTouchDragMove | src/composables/useDesktopPet.js:272-286 | performs `TouchDragMove` |
| PetComposable.PetController.OnTouchDragEnd | src/composables/useDesktopPet.js:288-291 | performs `TouchDragEnd` |
| PetComposable.PetController.OnTouchPokeMove | src/composables/useDesktopPet.js:313-322 | performs `TouchPokeMove` |
| PetComposable.PetController.OnTouchPokeEnd | src/composables/useDesktopPet.js:324-328 | performs `TouchPokeEnd` |
| PetComposable.PetController.HandleMouseMove | src/composables/useDesktopPet.js:336-354 | performs `HandleMouseMove` |
| PetComposable.PetController.HandleResizeMove | src/composables/useDesktopPet.js:357-377 | performs `HandleResizeMove` |
| PetComposable.PetController.StartResize | src/composables/useDesktopPet.js:380-397 | performs `StartResize` |
| PetComposable.PetController.StopDrag | src/composables/useDesktopPet.js:400-405 | performs `StopDrag` |
| PetComposable.PetController.StopResize | src/composables/useDesktopPet.js:408-413 | performs `StopResize` |
| PetComposable.PetController.HandleResize | src/composables/useDesktopPet.js:428-434 | performs `HandleResize` |
| PetComposable.PetController.OnUnmounted | src/composables/useDesktopPet.js:449-457 | performs `Unmount`, as written |

## Left out

- Rendering is not modelled. That covers the Markdown preview (`renderPreview`, the parser in `src/utils/markdownParser.js`), `renderFileList` and its click bindings, class toggles on elements, and inline styles other than `transform`.
- Side effects without state are not modelled: `alert`, audio (`useAudio.js`), export (`src/utils/exportUtils.js`), `e.preventDefault()` and `e.stopPropagation()`.
- `confirm` is taken as a parameter. Where the code asks, `SaveFile`, `DeleteFile` and `ResetColors` take the user's answer.
- Opening the file picker is left out (`importFile`, lines 120-128 and 145-148). So are `FileReader`, and a picker closed with no file chosen. `ImportFile` starts once the file's name and text are known.
- JSON is not modelled. The stored objects are taken as already parsed. Parse errors, non-string values and prototype keys such as `__proto__` are not modelled.
- JavaScript lists integer-like keys first in `Object.keys`. The key order here is plain insertion order, which matches only for names that are not array indices.
- In `script.js`, the delete button has two click listeners, at lines 99-107 and 316. The second passes the click event as the file name, so it only reports that the file does not exist. The model treats a click as one `deleteFile` call.
- The `script.js` upload handler (lines 444-474) is not modelled separately. It shares `Complete`, `ContentsUrl` and `Record` with the composable. Its lookup is not wrapped in `try`, so a network error there aborts the upload instead of dropping the `sha`.
- Base64 encoding of the upload (`btoa(unescape(encodeURIComponent(...)))`) is left out. `PutRequest.content` is the text before encoding.
- The calendar is a parameter. `keyOf(i)` stands for `new Date()` moved back `i` days and rendered as an ISO date. Time zones and month lengths are not modelled.
- The Chart.js instance in `script.js` (lines 476-499) is not modelled as a class. Its data is `WeekChart`.
- `applyColorSettings` is modelled only through the colour it picks (`AppliedColor`). The generated CSS text and the 100 ms re-apply after a theme change are left out.
- Each panel build adds one more reset listener and one more theme-switch listener (script.js:600 and 611), so one later click can run the handler several times and a reset click can ask for confirmation more than once. The model runs each handler once; rebuilding again from the same store gives the same panel.
- `HighlightColors.ColorPanel`: the labels, the language tags and the HTML built around the inputs are left out. The panel is the two maps of input values.
- `DesktopPet.SpringFrame`: the spring's integration (inertia, decay, `originRotate`, frame timing, lines 68-84) is a `Step` parameter, so floating-point arithmetic is not modelled. Only the rule that decides whether the loop ends, and everything around it, is modelled. Coordinates and sizes are reals.
- `DesktopPet.ShakeAngle`: `Date.now()` is the model's clock, taken at the moment `cryingShake` runs.
- `DesktopPet.IsBottomHalf`: the element, `getBoundingClientRect()` and `window.innerWidth/innerHeight` are parameters (`Rect`, `Viewport`). The guards for a missing `element` are not modelled; the element is always present while the pet is mounted.
- Listener bookkeeping is not modelled:
  - `mouseMoveHandler`, `mouseUpHandler` and `removeEventListeners`;
  - the window `resize` listener;
  - a second drag or resize started before the first ends, which leaks the first listeners;
  - touch listeners that outlive an unmount.

  The model keeps one poke or touch gesture of each kind, with its start point.
- When a touch drag and a touch poke are both live, the order in which their `transform` writes land is not modelled.
- The 7-second `cryDuration` constant is never read by the code. Crying ends only through an outside call to `stopCrying`, and the model does the same.
- `useAnotherDeskPet.js` and `vite.config.js` are not part of this model.
- `Theme.Initial`: if only one of the two highlight stylesheets exists, the composable changes neither. `script.js` would throw on the missing one. Both cases are modelled as `Missing`, and `ScriptStartup` assumes both sheets exist.

## Findings

| source | as written | input that shows it | evidently intended | confidence | as-written member | corrected member |
|---|---|---|---|---|---|---|
| src/composables/useFileSystem.js:130-142 | the unique-name loop skips only names with non-empty text, and the `openFile` that follows first writes the editor text back under the open name | files {"a": ""}, "a" open with empty text, import "a.md" with text "hello": the import is stored as "a" and then overwritten with "" | the imported text is kept and shown | not executed | FileSystem.ImportOverEmptyOpenFileLosesText | FileSystem.ImportIntendedKeepsText |
| src/composables/useDesktopPet.js:176-181 | the settle timeout sets `running = true` and then calls `startRun`, which returns at once because `running` is set | from setup: trigger crying, stop crying, wait 300 ms; the spring is marked running with no frame scheduled; `startRun` does nothing until a `movePet` or `stopRun` clears the flag, so a plain click or the mount timeout cannot restart it | the wobble resumes from r = 5, y = 3 | not executed | DesktopPet.CryingLeavesSpringStalled | DesktopPet.CryingThenSettleIntended |
| src/composables/useDesktopPet.js:449-457 | the unmount hook, whose comment says it clears every timer, leaves the settle timeout of `stopCrying` pending | stop crying, then unmount within 300 ms; the timeout still fires and sets the spring running | nothing happens after unmount | not executed | DesktopPet.UnmountLeavesSettleTimer | DesktopPet.UnmountIntendedIsQuiet |
