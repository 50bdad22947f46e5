# music-player core in Dafny

A model of the core of a desktop music player built from a React/TypeScript client and a Rust (Tauri) backend. Each source file becomes one module:

- **Client: remote collection caches.**
  - `Tracks` models `useTracks`.
  - `LocalFolders` models `useLocalFolders`.
  - `Playlists` models `usePlaylists`, over the `PlaylistState` store.

  Each is a class whose fields are the hook's state slots. Every setter also appends to a ghost write history. Each operation is proved to:
  - append exactly its brackets (`loading` on, `error` cleared, the call, the result or the error, `loading` off) to that history;
  - log exactly the backend calls the source makes;
  - leave the fields equal to the history's replay.

  Separate `...Outcome` lemmas state what the fields then hold.
- **Client: playback.**
  - `Audio` is the audio store.
  - `PlayerSync` is the reconciler from player events to store fields.
  - `AudioController` maps intents to backend commands.
  - `TauriEvents` is the listener lifecycle of `useTauriListen`.
- **Client: UI state.**
  - `Ui` is the UI store.
  - `BottomNav` holds the reserved-playlist lookup and the click and highlight rules.
  - `LocalPage` is the add-folder form.
- **Backend.**
  - `Operations.Database` holds the table operations over in-memory tables.
  - `Db`, `TrackRows`, `SqlText` and `PlaylistOrder` hold their specification functions:
    - insert-or-ignore;
    - `LIKE '%q%'` matching;
    - the `?` placeholder list;
    - the duration conversion;
    - `ORDER BY name`.
  - `DbScenarios` restates the backend's own unit-test scenarios as verified methods over the model.
  - `Seeding` models the start-up seeding loop of the default playlists.

`Boundary` is the model backend: every `invoke` is appended to a log as a `Call(command, args)` and answered by the next response of a script. Once the script is used up, the answer is `Err("no scripted response")`. The `Types` module holds the shared entities.

## Model

| member | source | states |
|---|---|---|
| PlaylistState.Apply | src/store/playlistStore.ts:20-23 | a step changes a field only when it is that field's own setter, and then to the written value; every other field keeps its old value |
| PlaylistState.ApplyIdempotent | src/store/playlistStore.ts:20-23 | applying any setter twice with the same value equals applying it once |
| PlaylistState.PlaylistStore.constructor | src/store/playlistStore.ts:15-19 | the store starts with no playlists, no current tracks, `loading` false and no error |
| PlaylistState.PlaylistStore.SetPlaylists | src/store/playlistStore.ts:20 | replaces the whole playlist list and changes no other field; the write is recorded in the history |
| PlaylistState.PlaylistStore.SetCurrentPlaylistTracks | src/store/playlistStore.ts:21 | replaces the whole current-track list and changes no other field |
| PlaylistState.PlaylistStore.SetLoading | src/store/playlistStore.ts:22 | sets only `loading` |
| PlaylistState.PlaylistStore.SetError | src/store/playlistStore.ts:23 | sets only `error` (null allowed) |
| Playlists.Begin | src/hooks/usePlaylists.ts:19-22 | every operation writes `loading` true and clears `error`, in that order, before its one backend call, which is logged |
| Playlists.GetPlaylists | src/hooks/usePlaylists.ts:18-29 | logs exactly `get_playlists`; the store ends as the replay of the bracket in which a success writes the returned list and a failure writes the error |
| Playlists.FetchPlaylistsOutcome | src/hooks/usePlaylists.ts:18-29 | after getPlaylists `loading` is false; on success `playlists` is the returned list and `error` is null; on failure `playlists` is unchanged and `error` is the failure message; `currentPlaylistTracks` is never touched |
| Playlists.GetPlaylistTracks | src/hooks/usePlaylists.ts:65-79 | logs exactly `get_tracks_by_playlist{playlistId}`; a success writes only `currentPlaylistTracks` |
| Playlists.FetchTracksOutcome | src/hooks/usePlaylists.ts:65-79 | after getPlaylistTracks `loading` is false, `playlists` is unchanged, and `currentPlaylistTracks` is the result on success or unchanged with `error` set on failure |
| Playlists.CreatePlaylist | src/hooks/usePlaylists.ts:31-46 | logs `create_playlist{name}` and then `get_playlists` only after a success; a failed command is re-raised (`thrown`) and no refetch is logged; a failed refetch is not re-raised |
| Playlists.DeletePlaylist | src/hooks/usePlaylists.ts:48-63 | the same as createPlaylist, with `delete_playlist{playlistId}` |
| Playlists.RefetchPlaylistsOutcome | src/hooks/usePlaylists.ts:31-63 | after create or delete, `loading` is false. A failed command leaves `playlists` and sets the command's error. A successful command and refetch install the new list with no error. A failed refetch leaves `playlists` unchanged and sets the refetch's error. |
| Playlists.AddTracksToPlaylist | src/hooks/usePlaylists.ts:81-96 | logs exactly one call, `add_tracks_to_playlist{playlistId, trackIds}`, and no refetch of either list; a failure is re-raised |
| Playlists.AddTracksOutcome | src/hooks/usePlaylists.ts:81-96 | after addTracksToPlaylist neither list has changed, `loading` is false, and `error` is null or the failure message |
| Playlists.DeleteTracksFromPlaylist | src/hooks/usePlaylists.ts:98-113 | after a success it logs `get_tracks_by_playlist` with the same playlistId; it never refetches the playlist list; a failed command is re-raised |
| Playlists.RefetchTracksOutcome | src/hooks/usePlaylists.ts:98-113 | after deleteTracksFromPlaylist `loading` is false and `playlists` is unchanged; the current tracks are replaced only when command and refetch both succeed |
| Tracks.Apply | src/hooks/useTracks.ts:6-8 | a step changes a slot only when it is that slot's own setter, and then to the written value; every other slot keeps its old value |
| Tracks.TracksHook.constructor | src/hooks/useTracks.ts:6-8 | the hook starts with no tracks, `loading` false and no error |
| Tracks.TracksHook.SetTracks | src/hooks/useTracks.ts:6 | replaces only `tracks` |
| Tracks.TracksHook.SetLoading | src/hooks/useTracks.ts:7 | replaces only `loading` |
| Tracks.TracksHook.SetError | src/hooks/useTracks.ts:8 | replaces only `error` |
| Tracks.TracksHook.Begin | src/hooks/useTracks.ts:11-21 | `loading` on and `error` cleared before the logged call |
| Tracks.TracksHook.GetTracks | src/hooks/useTracks.ts:10-28 | logs exactly `get_tracks{titleFilter}` with the filter passed verbatim (undefined when omitted); the fields end as the replay of its bracket |
| Tracks.FetchOutcome | src/hooks/useTracks.ts:10-28 | after getTracks `loading` is false. A success stores the result and leaves `error` null, even after an earlier failure. A failure leaves `tracks` unchanged and stores the message. |
| LocalFolders.Apply | src/hooks/useLocalFolders.ts:6-8 | a step changes a slot only when it is that slot's own setter, and then to the written value; every other slot keeps its old value |
| LocalFolders.LocalFoldersHook.constructor | src/hooks/useLocalFolders.ts:6-8 | the hook starts with no folders, `loading` false and no error |
| LocalFolders.LocalFoldersHook.SetFolders | src/hooks/useLocalFolders.ts:6 | replaces only `folders` |
| LocalFolders.LocalFoldersHook.SetLoading | src/hooks/useLocalFolders.ts:7 | replaces only `loading` |
| LocalFolders.LocalFoldersHook.SetError | src/hooks/useLocalFolders.ts:8 | replaces only `error` |
| LocalFolders.LocalFoldersHook.Begin | src/hooks/useLocalFolders.ts:11-14 | `loading` on and `error` cleared before the logged call |
| LocalFolders.LocalFoldersHook.GetFolders | src/hooks/useLocalFolders.ts:10-21 | logs exactly `get_folders{nameFilter}` with the filter verbatim (undefined when omitted); the fields end as the replay of its bracket |
| LocalFolders.FetchOutcome | src/hooks/useLocalFolders.ts:13-20 | after getFolders `loading` is false; a success replaces `folders` and clears `error`; a failure leaves `folders` and stores the message |
| LocalFolders.LocalFoldersHook.Mutate | src/hooks/useLocalFolders.ts:23-55 | the shared body of the two mutations: the command, then an unfiltered `get_folders` only after a success; a failed command is re-raised and not followed by a refetch |
| LocalFolders.LocalFoldersHook.AddFolder | src/hooks/useLocalFolders.ts:23-38 | logs `add_folder{name, path}` followed by an unfiltered `get_folders` after a success; a failure is re-raised with no refetch |
| LocalFolders.LocalFoldersHook.DeleteFolders | src/hooks/useLocalFolders.ts:40-55 | logs `delete_folders{ids}` followed by an unfiltered `get_folders` after a success; a failure is re-raised with no refetch |
| LocalFolders.MutationOutcome | src/hooks/useLocalFolders.ts:23-55 | after a mutation `loading` is false. A failed command leaves `folders` and stores its error. A successful refresh installs the list. A failed refresh is absorbed and stores its own error. |
| Boundary.Backend.Invoke | src/hooks/usePlaylists.ts:22 | a backend call is appended to the log and answered by the head of the script, which it consumes |
| Audio.AudioStore.constructor | src/store/audioStore.ts:16-21 | the store starts not playing, with no track, volume 1.0, duration 0 and position 0 |
| Audio.AudioStore.SetIsPlaying | src/store/audioStore.ts:22 | changes only `isPlaying` |
| Audio.AudioStore.SetVolume | src/store/audioStore.ts:23 | stores the volume verbatim, without clamping, and changes nothing else |
| Audio.AudioStore.SetCurrentTrack | src/store/audioStore.ts:24 | changes only `currentTrack` (null allowed) |
| Audio.AudioStore.SetDuration | src/store/audioStore.ts:25 | changes only `duration`, never `currentTime` |
| Audio.AudioStore.SetCurrentTime | src/store/audioStore.ts:26 | changes only `currentTime`, never `duration` |
| Audio.AudioStore.SetPlayerStatus | src/hooks/usePlayerSync.ts:5-9 | the setter the reconciler needs (corrected model, see Findings): changes only the added `status` field |
| PlayerSync.Reconcile | src/hooks/usePlayerSync.ts:7-24 | a status event sets `status` and updates `duration` only when the payload carries one; it never changes `currentTime`. A progress event overwrites `currentTime` and `duration` and keeps `status`. An error event changes nothing. No event touches `isPlaying`, `currentTrack` or `volume`. |
| PlayerSync.LastPosition | src/hooks/usePlayerSync.ts:16 | is defined exactly when some progress event occurs and then is the position of the last one |
| PlayerSync.CurrentTimeIsLastPosition | src/hooks/usePlayerSync.ts:15-18 | after any event sequence `currentTime` is the last progress event's position (last write wins), or unchanged when there is none |
| PlayerSync.ErrorsChangeNothing | src/hooks/usePlayerSync.ts:20-24 | any sequence of error events leaves the snapshot unchanged |
| PlayerSync.OnStatus | src/hooks/usePlayerSync.ts:7-13 | the corrected status handler writes the store to `Reconcile` of the old snapshot and the status event |
| PlayerSync.OnProgress | src/hooks/usePlayerSync.ts:15-18 | the progress handler writes the store to `Reconcile` of the old snapshot and the event |
| PlayerSync.OnError | src/hooks/usePlayerSync.ts:20-24 | the error handler modifies nothing, so the store already equals `Reconcile` of itself and the error |
| PlayerSync.OnStatusAsWritten | src/hooks/usePlayerSync.ts:5-13 | as written: the call to the undeclared `setPlayerStatus` raises a TypeError before any write, so the snapshot is unchanged |
| PlayerSync.StatusEventLostAsWritten | src/hooks/usePlayerSync.ts:9-12 | for a `playing` status with duration 180 from the initial store, the as-written handler keeps duration 0 while the intended one records 180 and `playing` |
| AudioController.CommandFor | src/hooks/useAudioController.ts:3-27 | the logged command decodes back to the intent it was sent for (`IntentOf`), so the argument is passed unchanged and unclamped; exactly pause, resume and stop are sent without arguments |
| AudioController.CommandRoundTrip | src/hooks/useAudioController.ts:3-27 | the intent can be read back from the logged command |
| AudioController.IntentRoundTrip | src/hooks/useAudioController.ts:3-27 | every command that decodes to an intent is exactly the command of that intent |
| AudioController.CommandForInjective | src/hooks/useAudioController.ts:3-27 | distinct intents log distinct commands |
| AudioController.Send | src/hooks/useAudioController.ts:4-26 | a controller method logs exactly its one command and returns the backend's answer |
| TauriEvents.EventName | src/hooks/useTauriEvents.ts:27-37 | the event name decodes back to its channel (`ChannelOf`), so the three hooks bind to distinct names, each of the `player-` family |
| TauriEvents.EventNameRoundTrip | src/hooks/useTauriEvents.ts:27-37 | the channel can be recovered from its event name, so the three names are distinct |
| TauriEvents.Listener.constructor | src/hooks/useTauriEvents.ts:11-17 | effect setup registers exactly one listener, on the given event name |
| TauriEvents.Listener.Resolve | src/hooks/useTauriEvents.ts:12 | when registration resolves the unlisten token is stored and the listener is live |
| TauriEvents.Listener.Cleanup | src/hooks/useTauriEvents.ts:19-23 | cleanup calls the stored unlisten if there is one, and calls nothing while it is still undefined |
| TauriEvents.Listener.Deliver | src/hooks/useTauriEvents.ts:12-14 | a live listener hands exactly the payload to the handler; nothing else changes |
| TauriEvents.NoLeakWhenResolvedFirst | src/hooks/useTauriEvents.ts:11-23 | resolve then cleanup: the token is unlistened once and the listener is dead |
| TauriEvents.LeakWhenCleanupFirst | src/hooks/useTauriEvents.ts:9-23 | as written, cleanup then resolve: nothing is unlistened, the listener stays live and a later event still reaches the handler |
| TauriEvents.SafeListener.constructor | src/hooks/useTauriEvents.ts:11-17 | corrected lifecycle: setup registers one listener on the event name and the invariant holds |
| TauriEvents.SafeListener.Resolve | src/hooks/useTauriEvents.ts:11-23 | corrected: a registration that resolves after cleanup is unlistened at once |
| TauriEvents.SafeListener.Cleanup | src/hooks/useTauriEvents.ts:19-23 | corrected: cleanup marks the listener disposed and unlistens it if registered |
| TauriEvents.SafeListener.Deliver | src/hooks/useTauriEvents.ts:12-14 | corrected: only a live listener hands the payload to the handler |
| TauriEvents.NoLeakEitherOrder | src/hooks/useTauriEvents.ts:9-23 | with the correction, in either order the token is unlistened exactly once, the listener ends dead and a later event is not handled |
| Ui.Dispatch | src/store/uiStore.ts:25-30 | every field other than the action's own keeps its value; setView, setSelectedPlaylistId (null allowed) and setMobile store their argument, the two toggles flip their flag and closeSidebar leaves the sidebar closed |
| Ui.ToggleSidebarTwice | src/store/uiStore.ts:28 | toggling the sidebar twice restores the state |
| Ui.CloseSidebarIdempotent | src/store/uiStore.ts:29 | closeSidebar always yields a closed sidebar and is idempotent |
| Ui.SidebarParity | src/store/uiStore.ts:28 | without closeSidebar, the sidebar is open exactly when it started open xor an odd number of toggles occurred |
| Ui.UiStore.constructor | src/store/uiStore.ts:19-24 | the store starts in the library view with no selected playlist and all three flags false |
| Ui.UiStore.SetView | src/store/uiStore.ts:25 | the store becomes `Dispatch` of its old state and setView |
| Ui.UiStore.SetSelectedPlaylistId | src/store/uiStore.ts:26 | the store becomes `Dispatch` of its old state and setSelectedPlaylistId |
| Ui.UiStore.SetMobile | src/store/uiStore.ts:27 | the store becomes `Dispatch` of its old state and setMobile |
| Ui.UiStore.ToggleSidebar | src/store/uiStore.ts:28 | the store becomes `Dispatch` of its old state and toggleSidebar |
| Ui.UiStore.CloseSidebar | src/store/uiStore.ts:29 | the store becomes `Dispatch` of its old state and closeSidebar |
| Ui.UiStore.TogglePlayerExpanded | src/store/uiStore.ts:30 | flips only `isPlayerExpanded` |
| BottomNav.FindByName | src/components/BottomNav/BottomNav.tsx:11-12 | finds nothing exactly when no playlist has the name; otherwise returns the first playlist whose name equals it exactly |
| BottomNav.ReservedClick | src/components/BottomNav/BottomNav.tsx:14-52 | clicking Recent or Favorites selects the reserved playlist's id and then shows the playlist view; if that playlist is missing, nothing changes |
| BottomNav.PlainClick | src/components/BottomNav/BottomNav.tsx:28-61 | Home shows the library, Local shows the local view, and Menu only toggles the sidebar |
| BottomNav.ClickActivates | src/components/BottomNav/BottomNav.tsx:33-61 | after clicking any entry other than Menu whose target exists, that entry is highlighted |
| BottomNav.NeverActive | src/components/BottomNav/BottomNav.tsx:28-55 | Menu is never highlighted, and neither is a reserved entry whose playlist is missing |
| BottomNav.ReservedActive | src/components/BottomNav/BottomNav.tsx:11-55 | a reserved entry is highlighted when the view is the playlist view and the selected id is that of the first playlist with the reserved name |
| BottomNav.HandleClick | src/components/BottomNav/BottomNav.tsx:28-61 | a click writes the UI store to `Click` of its old state |
| BottomNav.HandlePlaylistClick | src/components/BottomNav/BottomNav.tsx:14-17 | sets the selected id, then the playlist view, and nothing else |
| LocalPage.Submit | src/components/Local/Local.tsx:12-27 | an empty name or path changes nothing. Otherwise one folder with the given name and path and song count 0 is appended; the old folders keep their order; both inputs reset and the modal closes. |
| LocalPage.SubmitTwiceAddsOnce | src/components/Local/Local.tsx:14-25 | a second submit right after a successful one adds nothing, because the inputs were reset |
| LocalPage.LocalPage.constructor | src/components/Local/Local.tsx:7-10 | the page starts with the seed folders, the modal closed and both inputs empty |
| LocalPage.LocalPage.OpenModal | src/components/Local/Local.tsx:52 | the add card opens the modal and changes nothing else |
| LocalPage.LocalPage.Cancel | src/components/Local/Local.tsx:95 | Cancel closes the modal without touching the folders or the inputs |
| LocalPage.LocalPage.EditName | src/components/Local/Local.tsx:76 | typing replaces only the name input |
| LocalPage.LocalPage.EditPath | src/components/Local/Local.tsx:87 | typing replaces only the path input |
| LocalPage.LocalPage.HandleAddFolder | src/components/Local/Local.tsx:12-27 | the form submit writes the page to `Submit` of its old state |
| TrackRows.DurationRoundTrip | src-tauri/src/database/operations.rs:37-85 | with `StoredDuration` (the i64 conversion on write) and `ReadDuration` (the u64 conversion on read): read(write(d)) = d for every d ≤ 2^63−1, and 0 above |
| TrackRows.StoredTrackReadsBack | src-tauri/src/database/operations.rs:32-96 | a track whose duration fits, written as a row and read back through `MapTrackRow`, is itself under its new rowid |
| TrackRows.InsertTrack | src-tauri/src/database/operations.rs:32-33 | insert-or-ignore on the UNIQUE path: the old rows stay in place, at most one row is added, the track's path is stored afterwards, the table is unchanged exactly when the path was already present, and an added row holds the track under the next rowid |
| TrackRows.InsertTrackOk | src-tauri/src/database/schema.rs:11-12 | an insert keeps rowids positive and increasing and paths unique |
| TrackRows.InsertAllOk | src-tauri/src/database/operations.rs:35-47 | a batch insert keeps the table constraints |
| TrackRows.InsertAllExtends | src-tauri/src/database/operations.rs:35-47 | a batch insert never replaces or reorders an existing row |
| TrackRows.InsertAllStores | src-tauri/src/database/operations.rs:35-47 | after a batch insert every path of the batch is in the table |
| TrackRows.ReinsertChangesNothing | src-tauri/src/database/operations.rs:32 | adding paths that are already present changes nothing, so they are neither duplicated nor replaced |
| TrackRows.SelectUnfiltered | src-tauri/src/database/operations.rs:57-81 | with no filter every row comes back, in table order |
| TrackRows.SelectMembers | src-tauri/src/database/operations.rs:62-73 | with a filter, exactly the rows whose title contains the filter ignoring ASCII case come back; a null title never matches |
| SqlText.Lower | src-tauri/src/database/operations.rs:63 | the result is never an ASCII upper-case letter, only `A`–`Z` are changed, and a character is a letter afterwards exactly when it was an ASCII letter before |
| SqlText.ContainsAt | src-tauri/src/database/operations.rs:62-70 | the `%q%` pattern, over the strings lowered character by character (`LowerAll`), matches exactly when the lowered filter occurs at some offset of the lowered text |
| SqlText.EmptyFilterMatchesAll | src-tauri/src/database/operations.rs:68-70 | an empty filter matches every text |
| SqlText.PlaceholdersCount | src-tauri/src/database/operations.rs:108-111 | for n ≥ 1 ids the list has length 2n−1 and holds exactly n `?` |
| SqlText.PlaceholdersAlternate | src-tauri/src/database/operations.rs:108-111 | the list alternates: `?` at every even position and `,` between consecutive `?` |
| SqlText.PlaceholdersEmpty | src-tauri/src/database/operations.rs:104-111 | with no ids the placeholder list is empty; the three deletes return before building a statement from it |
| PlaylistOrder.LexLeTotal | src-tauri/src/database/operations.rs:220 | the name order of BINARY collation is total |
| PlaylistOrder.LexLeTrans | src-tauri/src/database/operations.rs:220 | the name order is transitive |
| PlaylistOrder.LexLeAntisym | src-tauri/src/database/operations.rs:220 | the name order is antisymmetric |
| PlaylistOrder.Insert | src-tauri/src/database/operations.rs:220 | inserting into the ordering adds exactly that playlist |
| PlaylistOrder.InsertSorted | src-tauri/src/database/operations.rs:220 | insertion keeps the list ordered by name |
| PlaylistOrder.SortByNameSorted | src-tauri/src/database/operations.rs:220 | `ORDER BY name` yields the playlists ordered by name |
| PlaylistOrder.SortByNamePermutes | src-tauri/src/database/operations.rs:219-234 | the ordered result holds exactly the table's playlists, with none lost or added |
| Db.Filter | src-tauri/src/database/operations.rs:108-118 | a `DELETE ... WHERE` never adds rows |
| Db.FilterMembers | src-tauri/src/database/operations.rs:108-118 | a row survives a delete exactly when it was there and does not match the condition |
| Db.FilterAll | src-tauri/src/database/operations.rs:108-118 | a delete that matches no row leaves the table unchanged |
| Db.FilterOrdered | src-tauri/src/database/operations.rs:108-118 | the rows that survive keep their order |
| Db.FilterTracksOk | src-tauri/src/database/operations.rs:103-121 | a delete keeps the tracks table's constraints |
| Db.FilterFoldersOk | src-tauri/src/database/operations.rs:180-198 | a delete keeps folder ids unique |
| Db.FilterPlaylistsOk | src-tauri/src/database/operations.rs:314-317 | a delete keeps playlist ids and names unique |
| Db.FilterKeepsDistinct | src-tauri/src/database/operations.rs:285-307 | a delete keeps membership pairs unique |
| Db.FindRow | src-tauri/src/database/operations.rs:245 | the join finds a track row with the membership's track id, or reports that none exists |
| Db.PlaylistTracksOfOthers | src-tauri/src/database/operations.rs:246 | memberships of other playlists contribute nothing to a playlist's tracks |
| Db.AddMember | src-tauri/src/database/operations.rs:271 | insert-or-ignore of a membership pair: the old pairs stay in place, at most one is added, the table is unchanged exactly when the pair was present, and afterwards it holds exactly the old pairs and the new one |
| Db.AddMemberKeepsDistinct | src-tauri/src/database/operations.rs:271 | with the pairs of a table distinct, insert-or-ignore never duplicates a pair |
| Db.AddMembersSpec | src-tauri/src/database/operations.rs:263-278 | adding a batch keeps old memberships in place, records every pair of the batch, adds nothing else, and never duplicates a pair |
| Operations.Database.constructor | src-tauri/src/database/operations.rs:324-328 | the tests' fresh in-memory database starts with all four tables empty |
| Operations.Database.AddTracks | src-tauri/src/database/operations.rs:28-50 | the loop performs one insert-or-ignore per track, in order, and keeps the table constraints; other tables untouched |
| Operations.Database.GetTracks | src-tauri/src/database/operations.rs:57-81 | the loop returns exactly the mapped rows that pass the title filter, in table order |
| Operations.Database.DeleteTracks | src-tauri/src/database/operations.rs:103-121 | an empty id list changes nothing; otherwise exactly the rows whose id is listed are removed |
| Operations.Database.AddFolder | src-tauri/src/database/operations.rs:128-135 | succeeds with the fresh id and appends exactly the folder, or fails and leaves the table when the id is in use |
| Operations.Database.GetFolders | src-tauri/src/database/operations.rs:142-173 | the loop returns exactly the folders whose name passes the filter, in table order |
| Operations.Database.DeleteFolders | src-tauri/src/database/operations.rs:180-198 | an empty id list changes nothing; otherwise exactly the listed folders are removed |
| Operations.Database.CreatePlaylist | src-tauri/src/database/operations.rs:205-212 | fails exactly when the name or the fresh id is already used, and then changes nothing; otherwise it appends the playlist and returns its id |
| Operations.Database.GetPlaylists | src-tauri/src/database/operations.rs:219-234 | returns every playlist, ordered by name |
| Operations.Database.GetTracksByPlaylist | src-tauri/src/database/operations.rs:241-256 | the loop returns the playlist's tracks in the order their memberships were added, skipping memberships without a track row |
| Operations.Database.AddTracksToPlaylist | src-tauri/src/database/operations.rs:263-278 | the loop inserts each pair with insert-or-ignore, in order, keeping pairs unique |
| Operations.Database.DeleteTracksFromPlaylist | src-tauri/src/database/operations.rs:285-307 | an empty id list changes nothing; otherwise exactly that playlist's memberships of the listed tracks are removed |
| Operations.Database.DeletePlaylist | src-tauri/src/database/operations.rs:314-317 | removes only the playlist with the given id and leaves the other tables |
| DbScenarios.AddAndGetTracks | src-tauri/src/database/operations.rs:331-351 | one added track is listed once, with its path and title, under a positive id |
| DbScenarios.GetTracksFiltered | src-tauri/src/database/operations.rs:354-390 | "Love" matches only "Love Song"; "happy" matches "Happy Day" whatever the case; "NotFound" matches nothing |
| DbScenarios.LoveFilter | src-tauri/src/database/operations.rs:380-382 | "Love" matches "Love Song" and not "Happy Day" |
| DbScenarios.HappyFilter | src-tauri/src/database/operations.rs:384-386 | "happy" matches "Happy Day", ignoring case, and not "Love Song" |
| DbScenarios.NotFoundFilter | src-tauri/src/database/operations.rs:388-389 | "NotFound" matches neither title |
| DbScenarios.DeleteTrackById | src-tauri/src/database/operations.rs:393-414 | deleting the only track by its id leaves no track |
| DbScenarios.AddAndGetFolders | src-tauri/src/database/operations.rs:417-426 | a folder added to an empty table is listed with its name, path and song count |
| DbScenarios.MusicFilter | src-tauri/src/database/operations.rs:429-437 | "Music 1" matches the folder "Music 1" and not "Music 2" |
| DbScenarios.GetFoldersFiltered | src-tauri/src/database/operations.rs:429-437 | the "Music 1" filter returns exactly that folder |
| DbScenarios.DeleteFolderById | src-tauri/src/database/operations.rs:440-448 | deleting the added folder by its returned id leaves no folder |
| DbScenarios.PlaylistOperations | src-tauri/src/database/operations.rs:451-497 | two playlists are listed with "Favorites" among them. An added track is listed for its playlist and not for the other, and after removal for neither. Deleting the first playlist leaves only the second. |
| Seeding.CreateOrIgnore | src-tauri/src/lib.rs:46-50 | a `create_playlist` whose error is ignored keeps the old playlists in place, adds at most the given one, and changes nothing exactly when the name or id is taken |
| Seeding.CreateOrIgnoreKeepsUnique | src-tauri/src/lib.rs:46-50 | an ignored or applied create keeps playlist ids and names unique |
| Seeding.Seed | src-tauri/src/lib.rs:46-50 | the seeding loop creates each default name in turn, ignoring errors, and keeps the table constraints |
| Seeding.SeedExtends | src-tauri/src/lib.rs:46-50 | seeding never removes or reorders a playlist |
| Seeding.SeedFresh | src-tauri/src/lib.rs:46-50 | seeding an empty table creates Recent, Favorites and Default, in that order |
| Seeding.SeedAgainChangesNothing | src-tauri/src/lib.rs:48-49 | once every default name exists, seeding changes nothing |
| Seeding.StartTwice | src-tauri/src/lib.rs:46-50 | two starts of the application leave exactly the three default playlists |

## Left out

- Not modelled, because they are I/O, concurrency or foreign code:
  - the audio thread, its channel and the rodio sink (`player.rs`);
  - the Tauri command wrappers (`commands.rs`, `tests.rs`);
  - tag probing, image resizing and hashing in the scanner (`parser.rs`);
  - application setup apart from the seeding loop (`lib.rs`, `mod.rs`).

  `schema.rs` is used only for the `tracks` primary key and its UNIQUE path.
- The tables are assumed to be those of `create_tables`, which the backend's tests import (`operations.rs:322-326`) but which is not part of this model. This covers the DDL of `local_folders`, `playlists` and `playlist_tracks` and the `cover_mime` and `has_cover` columns of `tracks`. The `init_db` that application start-up calls (`schema.rs:6-22`, `lib.rs:37`) creates only `tracks`, and without those two columns. Against that schema the `add_tracks` statement would fail when it is prepared, `get_tracks` would fail the same way, and every folder and playlist operation would fail with "no such table", including the start-up seeding, whose errors are ignored. The model follows the tables the queries use, not that schema.
- Not modelled at all:
  - React effect scheduling and re-renders;
  - Promise scheduling and operations in flight together (operations run one at a time against the scripted backend);
  - `console.log`, `console.error` and `alert`;
  - rendering and markup;
  - `e.preventDefault()` in the add-folder form.
- Fresh ids and the timestamp are parameters. This covers `Uuid::new_v4`, `Math.random` and the `created_at` default, which nothing in the source shows. A clash of a fresh id is modelled as an insert error.
- SQLite:
  - `LIKE` is ASCII case-insensitive substring matching, and `%` or `_` inside a filter are taken literally.
  - Errors other than UNIQUE violations are not modelled: I/O errors, a locked database, a failing transaction and its rollback.
  - A new rowid is one past the largest remaining one. The id of a deleted last row is therefore reused, as in SQLite without `AUTOINCREMENT`, and an old membership of that id then lists the new track. Rowid overflow is not modelled: at the largest rowid SQLite picks an unused one at random.
  - Queries without `ORDER BY` (`get_tracks`, `get_folders`) are taken to return rows in rowid, that is insertion, order.
  - `BINARY` collation is code-point order.
  - The statement text is modelled only through the `?` placeholder list.
  - The `playlists.name` UNIQUE constraint is taken from the seeding loop's comment, since that DDL is not shown.
  - `playlist_tracks` is assumed unique per (playlist, track) pair, with no cascading deletes.
  - Memberships are returned in insertion order; ties between equal `added_at` values are not modelled.
- Floating point: volumes, positions and durations are only copied, so they are `real`.
- `useAudioController` always returning the same object: object identity is not modelled. The controller is a pure mapping (`AudioController.CommandFor`).
- The initial folders of the add-folder page are an opaque seed: the imported mock data is not part of this model.
- The `invoke<T>` result type is not checked at run time. The fetch operations therefore require that a successful scripted answer has the shape they expect (`GivesTracks`, `GivesFolders`, `GivesPlaylists`).
- `TauriEvents.Listener`: registration counts as live from the moment `listen` resolves. Event delivery before that is not modelled.
- The model adds no behaviour the code lacks:
  - playing a track adds nothing to a "Recent" playlist;
  - a `stopped` status does not clear the current track;
  - `addTracksToPlaylist` does not refetch;
  - after a mutation's inner refetch, `loading` is false when the outer `finally` runs.

## Findings

| source | as written | input that shows it | evidently intended | confidence | as-written member | corrected member |
|---|---|---|---|---|---|---|
| src/hooks/usePlayerSync.ts:5-12 | the status handler calls `setPlayerStatus`, which the audio store does not declare, so the call raises a TypeError before `setDuration` runs | from the initial store, a `playing` status event with duration 180 leaves duration 0 and records no status | the store has a `status` field and a setter for it; the event records `playing` and duration 180 | not executed | PlayerSync.StatusEventLostAsWritten | PlayerSync.OnStatus |
| src/hooks/useTauriEvents.ts:9-23 | if cleanup runs before `listen` resolves, `unlisten` is still undefined, so nothing is unlistened and the listener registered afterwards is never removed | cleanup, then registration resolves with token t, then an event arrives: the handler still runs and t is never unlistened | a registration that resolves after cleanup is unlistened at once, so no listener outlives the effect | not executed | TauriEvents.LeakWhenCleanupFirst | TauriEvents.NoLeakEitherOrder |
