# SmartHome Hub in Dafny

This project models the logic of SmartHome Hub, a React dashboard for a mock
smart home. Nothing in the dashboard talks to real devices: every action
changes in-memory state held in zustand stores or in component state.

The model has four parts.

- **The stores.** There are six: device, routine, room, notification, voice and
  authentication. Each is a `class` whose fields are the store's state (a
  `seq` of records, or a few flags). Each action is a method whose `ensures`
  ties the new field to a pure function of the old one (`devices ==
  SetPower(old(devices), id, isOn, now)`). Those functions carry pointwise
  contracts: which records change, how, and that every other record stays as
  it was. Lemmas beside them state idempotence, round trips and order
  preservation.
- **The voice-command interpreter.** A command is lower-cased and trimmed, then
  classified in a fixed priority order. Devices and routines are matched by
  keyword substring, with the first match in list order winning. The panel's
  `processCommand` effect and its two timers are methods of a `Panel` class.
- **Selectors spread across the components.** Filters, the sorts and top-k
  lists, group-by, counts, the route-to-title mapping, the status-colour
  priority, the Hue payload and brightness scaling, and the "last synced"
  label. All are functions with contracts.
- **Small UI state machines.** The three-step account-setup wizard, login
  submit, integration connect and disconnect, session termination, the
  settings toggles, tip toggling and the energy list's sort toggle. Each is a
  class whose handlers are methods specified by pure transition functions.
  The lemmas state the invariants the transitions keep.

Some things are parameters rather than part of the model:

- clocks (`Date.now()`, `new Date()`) are integer milliseconds;
- `Math.random()` is a `real` in `[0, 1)`;
- the outcome of an awaited call outside a page (`login`, a Hue bridge reply)
  is a datatype value;
- navigation (`navigate(path)`) is a returned path.

Each `await` and each `setTimeout` callback is one atomic step.

Energy amounts are whole numbers. Names are ordered by a plain character
order.

## Model

| member | source | states |
|---|---|---|
| Devices.Merge | src/stores/deviceStore.js:232-240 | `{ ...device, ...updates }`: each field takes the update's value when the update names it, and keeps the device's value otherwise. |
| Devices.MergeNothing | src/stores/deviceStore.js:232-240 | An update with no keys leaves a device as it was. |
| Devices.MergeIdempotent | src/stores/deviceStore.js:232-240 | Spreading the same updates twice gives the same device as once. |
| Devices.MergeThen | src/stores/deviceStore.js:232-240 | Two successive updates equal one update whose later keys win. |
| Devices.SetPower | src/stores/deviceStore.js:199-211 | `toggleDevice(id, isOn)` sets `isOn` (a set, not a flip) and `lastUsed` on every device with the id. Every other field and every other device is unchanged, and length and order are kept. |
| Devices.SetPowerTwice | src/stores/deviceStore.js:205 | Toggling twice with the same value equals toggling once at the later time. |
| Devices.SetFavorite | src/stores/deviceStore.js:214-222 | `favoriteDevice` changes only `isFavorite`, only on matching devices, and keeps length and order. |
| Devices.Update | src/stores/deviceStore.js:232-240 | `updateDevice` merges the updates into matching devices only and keeps length and order. |
| Devices.UnknownIdChangesNothing | src/stores/deviceStore.js:199-240 | An id no device has leaves the list unchanged under toggle, favourite and update. |
| Devices.FreshId | src/stores/deviceStore.js:227 | The generated id is the clock printed in decimal: non-empty and all digits. |
| Devices.FreshIdsDiffer | src/stores/deviceStore.js:227 | Different clock readings give different ids. |
| Devices.Add | src/stores/deviceStore.js:225-229 | `addDevice` appends exactly one device at the end and leaves earlier ones unchanged. Its id is the generated one even when the argument carried an id; every other field is the argument's. |
| Devices.Remove | src/stores/deviceStore.js:243-247 | `removeDevice` leaves no device with the id and keeps every other device. The length drops by the number of devices that had the id. |
| Devices.RemoveKeepsOrder | src/stores/deviceStore.js:243-247 | What remains after `removeDevice` is a subsequence of the old list, in the same order. |
| Devices.RemoveAdded | src/stores/deviceStore.js:225-247 | Removing a device right after adding it restores the list, provided the generated id was new. |
| Devices.SeedIdsDistinct | src/stores/deviceStore.js:5-180 | The seeded devices have pairwise distinct ids. |
| Devices.DeviceStore.constructor | src/stores/deviceStore.js:5-180 | The store starts with the seeded devices. |
| Devices.DeviceStore.FetchDevices | src/stores/deviceStore.js:182-196 | `fetchDevices` returns the current list and changes nothing. |
| Devices.DeviceStore.ToggleDevice | src/stores/deviceStore.js:199-211 | The new list is `SetPower` of the old one. |
| Devices.DeviceStore.FavoriteDevice | src/stores/deviceStore.js:214-222 | The new list is `SetFavorite` of the old one. |
| Devices.DeviceStore.AddDevice | src/stores/deviceStore.js:225-229 | The new list is `Add` of the old one. |
| Devices.DeviceStore.UpdateDevice | src/stores/deviceStore.js:232-240 | The new list is `Update` of the old one. |
| Devices.DeviceStore.RemoveDevice | src/stores/deviceStore.js:243-247 | The new list is `Remove` of the old one. |
| Routines.IconFor | src/stores/routineStore.js:205-216 | `getIconComponent` gives the icon whose name was asked for, and the sun icon for any name not in the table. |
| Routines.IconRoundTrip | src/stores/routineStore.js:205-216 | Looking up an icon's own name gives back that icon. |
| Routines.Merge | src/stores/routineStore.js:288-296 | `{ ...routine, ...updates }`: each field takes the update's value when named, and keeps the routine's value otherwise. |
| Routines.MergeIdempotent | src/stores/routineStore.js:288-296 | Spreading the same updates twice into a routine equals spreading them once. |
| Routines.Execute | src/stores/routineStore.js:244-254 | `executeRoutine` adds exactly 1 to `timesExecuted` and sets `lastRun` to 'Just now' on routines with the id. Every other field, `actions` included, and every other routine is unchanged. |
| Routines.ExecuteTwice | src/stores/routineStore.js:236-261 | Two runs of one id add 2: there is no running guard, and the actions are never touched. |
| Routines.ExecuteUnknown | src/stores/routineStore.js:236-256 | An id that matches no routine leaves the list unchanged. |
| Routines.SetFavorite | src/stores/routineStore.js:264-272 | `favoriteRoutine` changes only `isFavorite` on matching routines and keeps length and order. |
| Routines.Update | src/stores/routineStore.js:288-296 | `updateRoutine` merges the updates into matching routines only and keeps length and order. |
| Routines.Add | src/stores/routineStore.js:275-285 | `addRoutine` appends one routine with a clock-derived id, `timesExecuted` 0, `created` 'Just now' and `lastRun` 'Never', overriding any supplied values. The rest of the argument is kept and earlier routines are unchanged. |
| Routines.Remove | src/stores/routineStore.js:299-303 | `removeRoutine` removes every routine with the id and keeps all others. |
| Routines.RemoveKeepsOrder | src/stores/routineStore.js:299-303 | The routines that remain keep their relative order. |
| Routines.SeedActionsWellFormed | src/stores/routineStore.js:18-200 | Every seeded action has a non-negative delay and a non-empty device list. |
| Routines.RoutineStore.constructor | src/stores/routineStore.js:6-200 | The store starts with the seeded routines. |
| Routines.RoutineStore.FetchRoutines | src/stores/routineStore.js:219-233 | `fetchRoutines` returns the routines unchanged. |
| Routines.RoutineStore.ExecuteRoutine | src/stores/routineStore.js:236-261 | Returns true whatever the id, and the new list is `Execute` of the old one. |
| Routines.RoutineStore.FavoriteRoutine | src/stores/routineStore.js:264-272 | The new list is `SetFavorite` of the old one. |
| Routines.RoutineStore.AddRoutine | src/stores/routineStore.js:275-285 | The new list is `Add` of the old one. |
| Routines.RoutineStore.UpdateRoutine | src/stores/routineStore.js:288-296 | The new list is `Update` of the old one. |
| Routines.RoutineStore.RemoveRoutine | src/stores/routineStore.js:299-303 | The new list is `Remove` of the old one. |
| Rooms.Merge | src/stores/roomStore.js:109-117 | `{ ...room, ...updates }`: each field takes the update's value when named, and keeps the room's value otherwise. |
| Rooms.MergeKeepsCounts | src/stores/roomStore.js:109-117 | An update that does not name `deviceCount` or `activeDevices` keeps both: they are stored values, never recomputed. |
| Rooms.SetFavorite | src/stores/roomStore.js:91-99 | `favoriteRoom` changes only `isFavorite` on matching rooms and keeps length and order. |
| Rooms.SetFavoriteKeepsCounts | src/stores/roomStore.js:91-99 | Favouriting never changes any room's device counts. |
| Rooms.Update | src/stores/roomStore.js:109-117 | `updateRoom` merges the updates into matching rooms only and keeps length and order. |
| Rooms.Add | src/stores/roomStore.js:102-106 | `addRoom` appends one room with a clock-derived id and leaves earlier rooms unchanged. |
| Rooms.Remove | src/stores/roomStore.js:120-124 | `removeRoom` removes every room with the id and keeps all others. |
| Rooms.RemoveKeepsOrder | src/stores/roomStore.js:120-124 | The rooms that remain keep their relative order. |
| Rooms.RoomStore.constructor | src/stores/roomStore.js:4-72 | The store starts with the seeded rooms. |
| Rooms.RoomStore.FetchRooms | src/stores/roomStore.js:74-88 | `fetchRooms` returns the rooms unchanged. |
| Rooms.RoomStore.FavoriteRoom | src/stores/roomStore.js:91-99 | The new list is `SetFavorite` of the old one. |
| Rooms.RoomStore.AddRoom | src/stores/roomStore.js:102-106 | The new list is `Add` of the old one. |
| Rooms.RoomStore.UpdateRoom | src/stores/roomStore.js:109-117 | The new list is `Update` of the old one. |
| Rooms.RoomStore.RemoveRoom | src/stores/roomStore.js:120-124 | The new list is `Remove` of the old one. It touches the room store only. |
| Notifications.UnreadCount | src/stores/notificationStore.js:57-59 | The unread count is at most the length, and it is 0 exactly when every item is read. |
| Notifications.Build | src/stores/notificationStore.js:66-69 | The default id, timestamp and `read: false` apply only where the argument omits them, because the argument is spread last. |
| Notifications.Add | src/stores/notificationStore.js:62-74 | `addNotification` puts the new item first, with the old items following in order. |
| Notifications.AddRaisesUnread | src/stores/notificationStore.js:57-74 | Adding raises the unread count by one, unless the argument says `read: true`. |
| Notifications.MarkRead | src/stores/notificationStore.js:77-85 | `markAsRead` sets `read` on matching items only and keeps length and order. |
| Notifications.MarkReadIdempotent | src/stores/notificationStore.js:77-85 | Marking the same id twice equals marking it once. |
| Notifications.MarkReadLowersUnread | src/stores/notificationStore.js:57-85 | Marking an item read never raises the unread count. |
| Notifications.MarkAllRead | src/stores/notificationStore.js:88-92 | `markAllAsRead` makes every item read and keeps length and order. |
| Notifications.MarkAllReadSettles | src/stores/notificationStore.js:57-92 | After `markAllAsRead` the unread count is 0, and a second call changes nothing. |
| Notifications.Delete | src/stores/notificationStore.js:95-99 | `deleteNotification` removes every item with the id and keeps all others. |
| Notifications.DeleteKeepsOrder | src/stores/notificationStore.js:95-99 | The remaining items keep their order. |
| Notifications.SeedUnread | src/stores/notificationStore.js:4-59 | The seeded list has three unread notifications. |
| Notifications.UnreadOfFlags | src/stores/notificationStore.js:57-59 | Seven items with the seed's read flags count three unread. |
| Notifications.NotificationStore.constructor | src/stores/notificationStore.js:4-55 | The store starts with the seeded notifications. |
| Notifications.NotificationStore.AddNotification | src/stores/notificationStore.js:62-74 | The new list is `Add` of the old one. |
| Notifications.NotificationStore.MarkAsRead | src/stores/notificationStore.js:77-85 | The new list is `MarkRead` of the old one. |
| Notifications.NotificationStore.MarkAllAsRead | src/stores/notificationStore.js:88-92 | The new list is `MarkAllRead` of the old one, and the unread count is 0. |
| Notifications.NotificationStore.DeleteNotification | src/stores/notificationStore.js:95-99 | The new list is `Delete` of the old one. |
| Notifications.NotificationStore.ClearAll | src/stores/notificationStore.js:102-104 | `clearAll` leaves an empty list and no unread items. |
| VoiceStore.Voice.constructor | src/stores/voiceStore.js:4-5 | The store starts not listening, with an empty transcript. |
| VoiceStore.Voice.ToggleListening | src/stores/voiceStore.js:8-18 | Toggling while listening stops it and clears the transcript. Toggling while not listening starts it and keeps the transcript. |
| VoiceStore.Voice.UpdateTranscript | src/stores/voiceStore.js:21-23 | Sets the transcript and leaves `isListening` alone. |
| VoiceStore.Voice.ResetTranscript | src/stores/voiceStore.js:26-28 | Clears the transcript and leaves `isListening` alone. |
| VoiceStore.ListenCycle | src/stores/voiceStore.js:8-18 | Two toggles from not listening, with any transcript heard in between, end not listening with an empty transcript. |
| Auth.LoginUser | src/stores/authStore.js:22-28 | The signed-in user is the demo user. Its email is the one given, or the demo address when the given email is empty; it is never empty. |
| Auth.AuthStore.constructor | src/stores/authStore.js:4-10 | The store starts authenticated, with the demo user. |
| Auth.AuthStore.Login | src/stores/authStore.js:13-32 | `login` ignores the password, authenticates, stores the user for the email and returns true. |
| Auth.AuthStore.Logout | src/stores/authStore.js:40-42 | `logout` clears `isAuthenticated` and the user. |
| Auth.AuthStore.CheckAuth | src/stores/authStore.js:45-53 | `checkAuth` returns true and changes nothing. |
| VoiceControl.Command | src/components/voice/VoiceControl.jsx:25 | The command is no longer than the transcript and holds no upper-case letter. |
| VoiceControl.CommandOfNormalized | src/components/voice/VoiceControl.jsx:25 | An already lower-case, unpadded transcript is its own command. |
| VoiceControl.Classify | src/components/voice/VoiceControl.jsx:28-98 | The category follows the fixed priority: navigation, then device on/off, then routine, then help, otherwise unknown. Each category is stated as an if-and-only-if over the keyword tests. |
| VoiceControl.NavigationWins | src/components/voice/VoiceControl.jsx:28-53 | A command with both 'open' and 'turn on' is a navigation request. |
| VoiceControl.NavigationReply | src/components/voice/VoiceControl.jsx:29-49 | Dashboard or home goes to '/'. Every other outcome is a navigation or the "where to navigate" failure, and the failure happens exactly when no destination word occurs. |
| VoiceControl.Keywords | src/components/voice/VoiceControl.jsx:55-62 | The keywords are the lower-cased name followed by the lower-cased aliases. |
| VoiceControl.DeviceChoice | src/components/voice/VoiceControl.jsx:55-62 | The chosen device is the first in list order that the command mentions, and there is none exactly when no device is mentioned. |
| VoiceControl.RoutineChoice | src/components/voice/VoiceControl.jsx:74-81 | The same rule for routines. |
| VoiceControl.MentionedAt | src/components/voice/VoiceControl.jsx:55-62 | A keyword found at any position of the command counts as a mention. |
| VoiceControl.MentionsNone | src/components/voice/VoiceControl.jsx:55-62 | A command containing neither the name nor any alias does not mention the item. |
| VoiceControl.LowercaseKeyword | src/components/voice/VoiceControl.jsx:55-62 | Lower-casing an already lower-case keyword does not change whether it is found. |
| VoiceControl.SecondDeviceChosen | src/components/voice/VoiceControl.jsx:55-62 | When the first device is not mentioned and the second is, the second is chosen. |
| VoiceControl.SecondRoutineChosen | src/components/voice/VoiceControl.jsx:74-81 | The same for routines. |
| VoiceControl.Interpret | src/components/voice/VoiceControl.jsx:28-98 | The outcome and the category agree. A switch happens exactly when the category is device control and a device matches. It targets the first match, asks for on exactly when the command contains 'turn on', and answers 'Turned on/off <name>'. A run happens exactly when the category is routine and a routine matches. Otherwise the matching failure text is given. |
| VoiceControl.SwitchesChosen | src/components/voice/VoiceControl.jsx:53-69 | With a matched device, the reply is the switch of exactly that device, with the stated response. |
| VoiceControl.RunsChosen | src/components/voice/VoiceControl.jsx:73-88 | With a matched routine, the reply is the run of exactly that routine, with 'Executing routine: <name>'. |
| VoiceControl.MovieNightCommand | src/components/voice/VoiceControl.jsx:25 | 'run movie night' is already normalised. |
| VoiceControl.MovieNightAsksRoutine | src/components/voice/VoiceControl.jsx:73 | 'run movie night' is a routine request. |
| VoiceControl.MissesGoodMorning | src/components/voice/VoiceControl.jsx:74-81 | 'run movie night' does not mention Good Morning. |
| VoiceControl.MovieNightMentionsGoodNight | src/components/voice/VoiceControl.jsx:74-81 | 'run movie night' mentions Good Night through its alias 'night'. |
| VoiceControl.MovieNightChoosesGoodNight | src/components/voice/VoiceControl.jsx:74-81 | Over the seeded routines, 'run movie night' chooses Good Night, the second routine. |
| VoiceControl.GoodNightReply | src/components/voice/VoiceControl.jsx:83-88 | Good Night's id is '2', and the reply names it. |
| VoiceControl.MovieNightRunsGoodNight | src/components/voice/VoiceControl.jsx:73-88 | 'run movie night' runs routine '2' and answers 'Executing routine: Good Night'. |
| VoiceControl.KitchenSpeakerCommand | src/components/voice/VoiceControl.jsx:25 | 'turn on kitchen speaker' is already normalised. |
| VoiceControl.KitchenSpeakerNotNavigation | src/components/voice/VoiceControl.jsx:28 | 'turn on kitchen speaker' is not a navigation request. |
| VoiceControl.KitchenSpeakerAsksDevice | src/components/voice/VoiceControl.jsx:53-54 | 'turn on kitchen speaker' is a device request that asks for on. |
| VoiceControl.MissesLivingRoomLights | src/components/voice/VoiceControl.jsx:55-62 | The command does not mention Living Room Lights. |
| VoiceControl.KitchenSpeakerMentionsKitchenLights | src/components/voice/VoiceControl.jsx:55-62 | The command mentions Kitchen Lights through its alias 'kitchen'. |
| VoiceControl.KitchenLightsReply | src/components/voice/VoiceControl.jsx:64-66 | Kitchen Lights has id '2', and the reply names it. |
| VoiceControl.KitchenSpeakerChoosesKitchenLights | src/components/voice/VoiceControl.jsx:55-62 | Over the seeded devices, the first match is Kitchen Lights, not a speaker. |
| VoiceControl.KitchenSpeakerSwitchesKitchenLights | src/components/voice/VoiceControl.jsx:53-69 | 'turn on kitchen speaker' switches device '2' on and answers 'Turned on Kitchen Lights'. |
| VoiceControl.Panel.constructor | src/components/voice/VoiceControl.jsx:16-17 | The panel starts idle, with no response. |
| VoiceControl.Panel.ProcessCommand | src/components/voice/VoiceControl.jsx:20-99 | A transcript shorter than 3 characters, or one arriving while processing, changes nothing. Otherwise the panel is processing and shows the interpreter's response. The route, the device store and the routine store change exactly as the interpreter's effect says. |
| VoiceControl.Panel.Apply | src/components/voice/VoiceControl.jsx:28-98 | Navigation returns the route. A switch calls `toggleDevice` with the matched id. A run calls `executeRoutine` with it. No effect touches nothing. |
| VoiceControl.Panel.FinishProcessing | src/components/voice/VoiceControl.jsx:102-104 | The first timer clears the transcript and the processing flag and keeps listening as it was. |
| VoiceControl.Panel.AutoClose | src/components/voice/VoiceControl.jsx:107-112 | The second timer, as written, toggles listening when the flag captured at scheduling time was on, and clears the response. |
| VoiceControl.Panel.AutoCloseCurrent | src/components/voice/VoiceControl.jsx:107-112 | The second timer reading the current flag leaves listening off. |
| VoiceControl.ClosedPanelReopens | src/components/voice/VoiceControl.jsx:102-112 | As written: closing the microphone between the two timers ends with it on again. |
| VoiceControl.ClosedPanelStaysClosed | src/components/voice/VoiceControl.jsx:102-112 | Corrected: the same sequence ends with the microphone off. |
| IntegrationService.HueBri | src/services/integrationService.js:315 | `Math.round(percent * 2.54)`: `bri` is the integer nearest to 2.54 × percent, halves rounded up. |
| IntegrationService.HuePercent | src/services/integrationService.js:223 | `Math.round(bri / 2.54)`: the percentage is the integer nearest to `bri` / 2.54, halves rounded up. |
| IntegrationService.HueBriRange | src/services/integrationService.js:315 | A brightness in 0..100 gives a `bri` in 0..254. |
| IntegrationService.HueRoundTrip | src/services/integrationService.js:223-315 | Scaling a percentage to `bri` (line 315) and back (line 223) returns it, for every integer. |
| IntegrationService.HuePayload | src/services/integrationService.js:313-316 | The payload has `on` iff `isOn` is given, `bri` iff brightness is given and `ct` iff colour temperature is given, and no other key. Each value is the given one, with `bri` scaled. |
| IntegrationService.ControlPhilipsHueDevice | src/services/integrationService.js:306-337 | The request carries that payload, and the result is the bridge's `ok`. |
| IntegrationService.ControlDevice | src/services/integrationService.js:283-303 | `controlDevice` succeeds exactly for Philips Hue with an ok reply. Google Home and Amazon Alexa call undefined methods and, like unknown platforms, give false. |
| IntegrationService.HueDevice | src/services/integrationService.js:217-235 | The id is 'philips-hue-' + key and the type is 'light'. The room defaults to 'Unknown'. The status is 'online' iff reachable, else 'offline'. Colour temperature is a feature iff `ct` is truthy. Brightness is rescaled. |
| IntegrationService.HueIdsDistinct | src/services/integrationService.js:217-235 | Lights with different keys get different ids. |
| IntegrationService.HueBrightnessRange | src/services/integrationService.js:223 | A `bri` in 0..254 shows as 0..100. |
| IntegrationService.HueDevices | src/services/integrationService.js:198-241 | One device per light, in the bridge's order, and [] when the bridge answer fails. |
| IntegrationService.PlatformDevices | src/services/integrationService.js:175-195 | Hue and Google Home give their devices, and any other platform, Alexa included, gives []. A missing platform record throws from the catch handler. |
| IntegrationService.Gather | src/services/integrationService.js:153-172 | The loop throws exactly when some connected integration has no platform record; otherwise it yields the devices. |
| IntegrationService.GatherIgnoresDisconnected | src/services/integrationService.js:153-172 | Only integrations whose status is 'connected' contribute. |
| IntegrationService.GatherNoneConnected | src/services/integrationService.js:153-172 | With nothing connected the result is []. |
| IntegrationService.GatherSnoc | src/services/integrationService.js:160-165 | One loop step appends the next connected integration's devices, in integration order. |
| IntegrationService.GatherThrowsForever | src/services/integrationService.js:153-172 | Once a fetch throws, later integrations cannot recover the result. |
| IntegrationService.FetchDevices | src/services/integrationService.js:153-172 | The loop's result is the concatenation in integration order, or [] when the integration list or a fetch throws. |
| RoomDetails.FindRoom | src/components/rooms/RoomDetails.jsx:28-42 | The room is the first with the id, and an unknown id takes the not-found branch. |
| RoomDetails.RoomDevices | src/components/rooms/RoomDetails.jsx:45 | Exactly the devices whose `room` equals the room's name. |
| RoomDetails.RoomDevicesInOrder | src/components/rooms/RoomDetails.jsx:45 | They keep the store's order. |
| RoomDetails.ActiveDevices | src/components/rooms/RoomDetails.jsx:48 | The count of devices that are on: at most the room's count, 0 iff none is on, and full iff all are. |
| RoomDetails.ByType | src/components/rooms/RoomDetails.jsx:98-104 | The group keys are exactly the types present in the room, and each group holds only devices of its key's type. |
| RoomDetails.ByTypePartition | src/components/rooms/RoomDetails.jsx:98-104 | Every device lands in the group of its type. Groups are non-empty, keep relative order and hold only devices of that type. |
| RoomDetails.TypesSnoc | src/components/rooms/RoomDetails.jsx:98-104 | The group keys grow by the pushed device's type. |
| RoomDetails.TypeGroupSnoc | src/components/rooms/RoomDetails.jsx:98-104 | Pushing a device extends only its own type's group. |
| RoomDetails.ByTypeSnoc | src/components/rooms/RoomDetails.jsx:98-104 | One `reduce` step appends the device to its type's group, creating the group if needed. |
| RoomDetails.ReduceIsByType | src/components/rooms/RoomDetails.jsx:98-104 | Folding the push step over the devices from `{}` builds exactly `ByType`. |
| RoomDetails.GroupByType | src/components/rooms/RoomDetails.jsx:98-104 | The accumulating loop yields exactly `ByType`. |
| RoomDetails.TypeStat | src/components/rooms/RoomDetails.jsx:376-381 | A type's on/total figures are present iff the room has that type, and then on ≤ total with total > 0. |
| RoomDetails.TypeStatCounts | src/components/rooms/RoomDetails.jsx:98-104 | A group's size and on-count equal the counts over the room's devices. |
| RoomDetails.LightsStat | src/components/rooms/RoomDetails.jsx:362-363 | Lit lights over all lights, with 0/0 when there are none. |
| RoomDetails.LocksStat | src/components/rooms/RoomDetails.jsx:376-381 | Locked over all locks, shown only when there is a lock. |
| RoomDetails.ThermostatStat | src/components/rooms/RoomDetails.jsx:367-371 | Only the first thermostat's power is shown. |
| RoomDetails.SwitchIds | src/components/rooms/RoomDetails.jsx:107-120 | Every device whose id is targeted takes the power value and the time, and every other device is unchanged. |
| RoomDetails.ToggleAllEffect | src/components/rooms/RoomDetails.jsx:107-111 | After "all on/off", every room device has that power. With unique ids, devices of other rooms are unchanged. |
| RoomDetails.ToggleByTypeEffect | src/components/rooms/RoomDetails.jsx:114-120 | After a per-type switch, every room device of that type has that power. With unique ids, every other device is unchanged. |
| RoomDetails.ToggleEach | src/components/rooms/RoomDetails.jsx:107-111 | The `forEach` of `toggleDevice` calls equals one `SwitchIds` over the targets' ids. |
| RoomDetails.ToggleAllDevices | src/components/rooms/RoomDetails.jsx:107-111 | An unknown room changes nothing. Otherwise every device whose id is among the room's devices is switched. |
| RoomDetails.ToggleDevicesByType | src/components/rooms/RoomDetails.jsx:114-120 | The same, restricted to the room's devices of one type. |
| RoomDetails.HandleDelete | src/components/rooms/RoomDetails.jsx:92-95 | The room is removed from the room store, and the page goes to '/rooms'. |
| DeviceList.DeviceTypes | src/components/devices/DeviceList.jsx:15 | 'all' followed by each distinct device type once, in first-occurrence order. |
| DeviceList.RoomChoices | src/components/devices/DeviceList.jsx:16 | 'all' followed by each distinct room once, in first-occurrence order. |
| DeviceList.Visible | src/components/devices/DeviceList.jsx:19-26 | A device is shown iff the query occurs case-insensitively in its name or room and the type and room filters are 'all' or equal. |
| DeviceList.VisibleInOrder | src/components/devices/DeviceList.jsx:19-26 | The result is an order-preserving subsequence of the devices. |
| DeviceList.NoFilterShowsAll | src/components/devices/DeviceList.jsx:19-26 | An empty query with both filters 'all' shows every device, in order. |
| DeviceList.NarrowingShrinks | src/components/devices/DeviceList.jsx:19-26 | Extending the query or fixing a filter never enlarges the result; the narrower result is a filter of the wider one. |
| DeviceCard.StatusColor | src/components/devices/DeviceCard.jsx:60-65 | The status dot follows error > warning > on > off. |
| DeviceCard.IconColor | src/components/devices/DeviceCard.jsx:67-72 | The icon colour follows the same priority. |
| DeviceCard.BackgroundColor | src/components/devices/DeviceCard.jsx:74-79 | The background follows the same priority. |
| DeviceCard.ColoursShareBranch | src/components/devices/DeviceCard.jsx:60-79 | The three colours always come from the same branch. The detail screen's helpers at src/components/devices/DeviceDetails.jsx:74-93 are the same functions. |
| DeviceCard.PriorityOfStatus | src/components/devices/DeviceCard.jsx:60-79 | 'error' wins whatever `isOn` is, and 'warning' comes next. Any other status, 'online' and 'offline' included, is ignored, and `isOn` alone decides. |
| DeviceCard.CardIcon | src/components/devices/DeviceCard.jsx:23-56 | A lock's icon is closed iff it is on. Unknown types get the default icon. |
| DeviceCard.IconIgnoresPowerExceptLocks | src/components/devices/DeviceCard.jsx:23-56 | Only locks change icon with power. |
| DeviceDetails.FindDevice | src/components/devices/DeviceDetails.jsx:25-39 | The device is the first with the id, and an unknown id takes the not-found branch. |
| DeviceDetails.StatusLabel | src/components/devices/DeviceDetails.jsx:326-328 | 'Error', 'Warning', 'Online' or 'Offline' by the same priority as the card's colours. |
| DeviceDetails.OrDefault | src/components/devices/DeviceDetails.jsx:125 | `value \|\| fallback`: a missing value and a stored 0 both show the fallback. |
| DeviceDetails.ZeroShowsDefault | src/components/devices/DeviceDetails.jsx:125-182 | A stored 0 shows as brightness 100, colour temperature 4000 and temperature 72. |
| DeviceDetails.ShownValueNeverZero | src/components/devices/DeviceDetails.jsx:125-182 | With a non-zero fallback the shown value is never 0, and it is either the fallback or the stored value. |
| DeviceDetails.TypeLabel | src/components/devices/DeviceDetails.jsx:369 | The first character is upper-cased and the rest is kept. |
| DeviceDetails.TypeLabelKeepsLetters | src/components/devices/DeviceDetails.jsx:369 | The label differs from the type only in case, and labelling twice equals labelling once. |
| DeviceDetails.HandleDelete | src/components/devices/DeviceDetails.jsx:95-98 | `removeDevice` runs before navigating to '/devices', and no device with the id is left. |
| StatusOverview.AverageTemperature | src/components/dashboard/StatusOverview.jsx:24-27 | There is no average iff there is no thermostat. |
| StatusOverview.Summarize | src/components/dashboard/StatusOverview.jsx:11-27 | Each on-count is at most its total. The totals are the per-type counts, issues count the warnings and errors, and the average exists iff there is a thermostat. |
| StatusOverview.IssuesAreWarningsPlusErrors | src/components/dashboard/StatusOverview.jsx:21 | The issue count is the warnings plus the errors. |
| StatusOverview.LightsHighlightedIffOneOn | src/components/dashboard/StatusOverview.jsx:34 | The lights tile is highlighted iff some light is on. |
| StatusOverview.LocksGreenIffAllLocked | src/components/dashboard/StatusOverview.jsx:49 | The lock tile is green iff every lock is locked, which includes having no lock. |
| StatusOverview.AverageWithinReadings | src/components/dashboard/StatusOverview.jsx:24-27 | The average lies between the lowest and highest readings, with a missing reading counting as 0. |
| StatusOverview.AverageIsRoundedMean | src/components/dashboard/StatusOverview.jsx:24-27 | The average is `Math.round` of the sum over the count. |
| JsMath.RoundDiv | src/components/dashboard/StatusOverview.jsx:27 | `Math.round(a / b)` for a positive divisor: the nearest integer, with halves rounded up. |
| QuickAccess.FavoriteDevices | src/components/dashboard/QuickAccess.jsx:20 | Every favourite device, with no cap. |
| QuickAccess.UsedNoEarlierIsPreorder | src/components/dashboard/QuickAccess.jsx:23-25 | The comparator is a total preorder, so the sort is well defined. |
| QuickAccess.RecentDevices | src/components/dashboard/QuickAccess.jsx:23-25 | At most 4 devices, sorted by `lastUsed` descending and drawn from the store. Every device left out was used no later than every device shown. |
| QuickAccess.TiesInStoreOrder | src/components/dashboard/QuickAccess.jsx:23-25 | The sort is stable: devices used at the same time are shown in store order, and those shown are the earliest of them. |
| QuickAccess.FavoriteRooms | src/components/dashboard/QuickAccess.jsx:28 | The first 4 favourite rooms, in list order. |
| QuickAccess.FavoriteRoutines | src/components/dashboard/QuickAccess.jsx:31 | The first 4 favourite routines, in list order. |
| QuickAccess.FavoritesComeFromStore | src/components/dashboard/QuickAccess.jsx:28-31 | They are favourites from the store, in store order. |
| QuickAccess.ActiveItems | src/components/dashboard/QuickAccess.jsx:33-46 | Each tab gives its list, and an unknown tab gives nothing. |
| QuickAccess.EmptyStateIff | src/components/dashboard/QuickAccess.jsx:33-51 | The empty state shows exactly when the tab's source has no qualifying item, or the tab is unknown. |
| RoutinesList.TopRoutines | src/components/dashboard/RoutinesList.jsx:9-11 | At most 5 routines, by non-increasing run count and drawn from the store. Every routine left out has run no more often than every routine shown. |
| RoutinesList.TiesInStoreOrder | src/components/dashboard/RoutinesList.jsx:9-11 | The sort is stable: routines run equally often are shown in store order, and those shown are the earliest of them. |
| RoutinesList.FewRoutinesAllShown | src/components/dashboard/RoutinesList.jsx:9-11 | With 5 or fewer routines, all are shown. |
| RoutinesPage.Shown | src/pages/Routines.jsx:30-33 | A routine is shown iff it passes the tab's test. |
| RoutinesPage.OtherTabsShowAll | src/pages/Routines.jsx:30-33 | 'all' and any unknown tab show every routine, in order. |
| RoutinesPage.FavoritesAndScheduledTabs | src/pages/Routines.jsx:31-32 | 'favorites' is exactly the favourites. 'scheduled' excludes exactly the `null` schedules, so undefined and '' still count; both keep order. |
| RoutinesPage.HandleToggleFavorite | src/pages/Routines.jsx:25-27 | The store receives the negation of the current status. |
| RoutinesPage.HandleExecuteRoutine | src/pages/Routines.jsx:21-23 | The store's `executeRoutine` runs on the id. |
| RoutineList.Visible | src/components/routines/RoutineList.jsx:14-21 | A routine is shown iff its name contains the query case-insensitively and it passes the schedule filter. |
| RoutineList.VisibleInOrder | src/components/routines/RoutineList.jsx:14-21 | The result keeps the store's order. |
| RoutineList.ScheduledAndManualSplitAll | src/components/routines/RoutineList.jsx:14-21 | For any query, 'scheduled' and 'manual' are disjoint and together make up 'all'. |
| RoutineList.SearchIgnoresCase | src/components/routines/RoutineList.jsx:15 | Lower-casing the query changes nothing. |
| RoutineList.UnknownFilterListsNothing | src/components/routines/RoutineList.jsx:16-18 | An unknown filter value shows nothing. |
| RoomList.RoomTypes | src/components/rooms/RoomList.jsx:14 | 'all' followed by each distinct room type once, in first-occurrence order. |
| RoomList.Visible | src/components/rooms/RoomList.jsx:17-22 | A room is shown iff its name contains the query case-insensitively and the type filter is 'all' or equal. |
| RoomList.VisibleInOrder | src/components/rooms/RoomList.jsx:17-22 | The result keeps the store's order. |
| RoomList.NoFilterShowsAll | src/components/rooms/RoomList.jsx:17-22 | An empty query with 'all' shows every room. |
| RoomList.NarrowingShrinks | src/components/rooms/RoomList.jsx:17-22 | Narrowing the query or the type never enlarges the result. |
| NotificationPanel.Shown | src/components/notifications/NotificationPanel.jsx:11-16 | An item is shown iff it passes the filter. |
| NotificationPanel.OtherFiltersShowAll | src/components/notifications/NotificationPanel.jsx:12-15 | 'all' and any unknown filter show everything. |
| NotificationPanel.UnreadAndReadPartition | src/components/notifications/NotificationPanel.jsx:11-16 | 'unread' and 'read' partition the list, each in order. The unread list's length is the store's unread count. |
| Header.Title | src/components/navigation/Header.jsx:17-37 | 'Dashboard' exactly for '/'. A details title only for a path that starts with its list path and is not that path. 'SmartHome Hub' only for a path that is none of the named ones and has no list prefix. |
| Header.ListTitles | src/components/navigation/Header.jsx:20-32 | '/' gives 'Dashboard', and the three list paths give their list titles. |
| Header.DetailTitles | src/components/navigation/Header.jsx:21-32 | Any other path with a list prefix gives the details title. This includes paths such as '/devicesX', because the test is a string prefix. |
| Header.ExactTitles | src/components/navigation/Header.jsx:33-35 | '/energy', '/settings' and '/profile' give their titles. |
| Header.OtherPathsGetAppName | src/components/navigation/Header.jsx:20-36 | Every other path gives 'SmartHome Hub'. |
| Header.Badge | src/components/navigation/Header.jsx:123-127 | The badge shows iff the count is positive, and reads '9+' above 9. |
| Header.BadgeShowsSmallCounts | src/components/navigation/Header.jsx:123-127 | Counts 1 to 9 show as their single digit. |
| DeviceEnergyList.JoinOne | src/components/energy/DeviceEnergyList.jsx:19-26 | The device is kept, with the first entry for its id or 0 energy and 0 cost. |
| DeviceEnergyList.Join | src/components/energy/DeviceEnergyList.jsx:19-26 | One row per device, in order. |
| DeviceEnergyList.JoinKeepsDevices | src/components/energy/DeviceEnergyList.jsx:19-26 | Projecting the rows back gives the device list. |
| DeviceEnergyList.DeviceTypes | src/components/energy/DeviceEnergyList.jsx:16 | 'all' followed by the distinct types, each once. |
| DeviceEnergyList.BeforeIsPreorder | src/components/energy/DeviceEnergyList.jsx:37-46 | Each comparator is a total preorder. |
| DeviceEnergyList.SortedMeaning | src/components/energy/DeviceEnergyList.jsx:37-46 | Sorted means by energy or by name, in the chosen direction. |
| DeviceEnergyList.UnknownFieldKeepsOrder | src/components/energy/DeviceEnergyList.jsx:37-46 | A sort field other than usage or name keeps the filtered order. |
| DeviceEnergyList.FilteredDevices | src/components/energy/DeviceEnergyList.jsx:29-46 | The result is a permutation of the filtered rows. A row passes iff the query occurs in its name or room and the type matches. The result is ordered by the chosen field and direction. |
| DeviceEnergyList.MembersOfPermutation | src/components/energy/DeviceEnergyList.jsx:37-46 | A permutation has the same members. |
| DeviceEnergyList.DirectionKeepsRows | src/components/energy/DeviceEnergyList.jsx:37-46 | Flipping the direction shows the same rows. |
| DeviceEnergyList.NextSort | src/components/energy/DeviceEnergyList.jsx:53-60 | The field becomes the clicked one with a valid order. |
| DeviceEnergyList.SameFieldTwiceRestores | src/components/energy/DeviceEnergyList.jsx:53-60 | Clicking the current field flips the order, and clicking twice restores it. |
| DeviceEnergyList.NewFieldStartsDescending | src/components/energy/DeviceEnergyList.jsx:53-60 | A new field starts 'desc', and a second click gives 'asc'. |
| DeviceEnergyList.EnergyListView.constructor | src/components/energy/DeviceEnergyList.jsx:9-13 | The list starts with no query, type 'all' and usage descending. |
| DeviceEnergyList.EnergyListView.ToggleSort | src/components/energy/DeviceEnergyList.jsx:53-60 | The sort state becomes `NextSort` of the old one, and nothing else changes. |
| EnergySavingTips.DollarAmount | src/components/energy/EnergySavingTips.jsx:77 | `/\$(\d+)/` matches exactly when some '$' is directly followed by a digit. |
| EnergySavingTips.DollarAmountSkips | src/components/energy/EnergySavingTips.jsx:77 | The match skips text without a '$'. |
| EnergySavingTips.LeadingDigitsOfNumber | src/components/energy/EnergySavingTips.jsx:77 | `\d+` takes exactly the digits before the first non-digit. |
| EnergySavingTips.DollarThenDigits | src/components/energy/EnergySavingTips.jsx:77 | '$' followed by digits parses to their value. |
| EnergySavingTips.AmountOfSavingText | src/components/energy/EnergySavingTips.jsx:77 | Every tip text parses back to its amount. |
| EnergySavingTips.Amount | src/components/energy/EnergySavingTips.jsx:77 | Amounts are never negative. |
| EnergySavingTips.AmountOfTip | src/components/energy/EnergySavingTips.jsx:77 | A tip's amount is the number in its text. |
| EnergySavingTips.SumOfSix | src/components/energy/EnergySavingTips.jsx:73-90 | The sum over six tips is their six amounts added up. |
| EnergySavingTips.TotalOfTips | src/components/energy/EnergySavingTips.jsx:7-56 | The six tips add up to 690. |
| EnergySavingTips.SumOfWritten | src/components/energy/EnergySavingTips.jsx:7-56 | Six tips whose texts read '$' and an amount sum to those amounts. |
| EnergySavingTips.CalculateSavings | src/components/energy/EnergySavingTips.jsx:73-90 | `implemented` sums the tips whose id is listed, and `potential` sums the others. Their sum is the total, and both are non-negative. |
| EnergySavingTips.AmountsNonNegative | src/components/energy/EnergySavingTips.jsx:73-90 | Any sum of amounts is non-negative. |
| EnergySavingTips.SavingsAddUp | src/components/energy/EnergySavingTips.jsx:73-90 | For any list of implemented ids, `implemented` + `potential` is 690. |
| EnergySavingTips.InitiallyNothingSaved | src/components/energy/EnergySavingTips.jsx:5 | With nothing implemented, `implemented` is 0. |
| EnergySavingTips.FilteredTips | src/components/energy/EnergySavingTips.jsx:60-62 | 'all' gives every tip, and any other category gives exactly that category, in order. |
| EnergySavingTips.Toggled | src/components/energy/EnergySavingTips.jsx:64-70 | The id is in the result iff it was absent before, and other ids are unaffected. |
| EnergySavingTips.ToggledNoDuplicates | src/components/energy/EnergySavingTips.jsx:64-70 | Toggling never creates a duplicate. |
| EnergySavingTips.ToggleTwiceFromAbsent | src/components/energy/EnergySavingTips.jsx:64-70 | From absent, toggling twice restores the list. |
| EnergySavingTips.ToggleTwiceFromPresent | src/components/energy/EnergySavingTips.jsx:64-70 | From present, toggling twice restores the set of ids but moves the id to the end. |
| EnergySavingTips.ToggleTwiceReorders | src/components/energy/EnergySavingTips.jsx:64-70 | [1, 2] toggled twice on 1 gives [2, 1]. |
| EnergySavingTips.TipsCard.constructor | src/components/energy/EnergySavingTips.jsx:5-58 | Nothing is implemented, and the category is 'all'. |
| EnergySavingTips.TipsCard.ToggleImplemented | src/components/energy/EnergySavingTips.jsx:64-70 | The list becomes `Toggled` of the old one and stays duplicate-free. |
| EnergySavingTips.TipsCard.SelectCategory | src/components/energy/EnergySavingTips.jsx:58 | Sets the category only. |
| IntegrationsSettings.FormatLastSync | src/components/settings/IntegrationsSettings.jsx:85-103 | No date gives 'Never'. Otherwise the label is the largest whole unit of days, hours or minutes elapsed, else 'Just now'. |
| IntegrationsSettings.FutureSyncIsJustNow | src/components/settings/IntegrationsSettings.jsx:97-103 | A future timestamp shows 'Just now'. |
| IntegrationsSettings.OneDayIsSingular | src/components/settings/IntegrationsSettings.jsx:90-96 | '1 day ago' shows exactly for one to two days elapsed. |
| IntegrationsSettings.AgoInjective | src/components/settings/IntegrationsSettings.jsx:90-103 | Different counts give different labels. |
| IntegrationsSettings.AgoDigitsEnd | src/components/settings/IntegrationsSettings.jsx:90-103 | The label starts with the count's digits followed by a space. |
| IntegrationsSettings.AgoUnitsDiffer | src/components/settings/IntegrationsSettings.jsx:90-103 | Labels in different units never coincide. |
| IntegrationsSettings.Visible | src/components/settings/IntegrationsSettings.jsx:107-112 | An integration is shown iff its name contains the query case-insensitively and the filter is 'all' or its status. |
| IntegrationsSettings.StatusFiltersSplitAll | src/components/settings/IntegrationsSettings.jsx:107-112 | 'connected' and 'disconnected' are disjoint and together give 'all'. |
| IntegrationsSettings.ToggleOne | src/components/settings/IntegrationsSettings.jsx:115-132 | Connected becomes disconnected, with 0 devices and no sync. Otherwise it becomes connected, with 1 to 5 devices and a sync now. Identity fields are kept. |
| IntegrationsSettings.RandomPick | src/components/settings/IntegrationsSettings.jsx:119 | `Math.floor(Math.random() * 5)` is in 0..4. |
| IntegrationsSettings.InitialConsistent | src/components/settings/IntegrationsSettings.jsx:6-80 | Every starting integration is connected with a sync date, or disconnected with none and 0 devices. |
| IntegrationsSettings.ActionsKeepConsistent | src/components/settings/IntegrationsSettings.jsx:115-145 | Toggling keeps that invariant. Refreshing keeps it for connected integrations and breaks it for disconnected ones, which get a sync date. |
| IntegrationsSettings.ToggleConnectionEffect | src/components/settings/IntegrationsSettings.jsx:115-132 | Only integrations with the id change, and their connected status flips. |
| IntegrationsSettings.RefreshOnlyChangesSync | src/components/settings/IntegrationsSettings.jsx:134-145 | Only the matching integrations' `lastSync` changes, and it changes to now. |
| IntegrationsSettings.IntegrationsTab.constructor | src/components/settings/IntegrationsSettings.jsx:6-82 | The starting integrations, with no query and filter 'all'. |
| IntegrationsSettings.IntegrationsTab.ToggleConnection | src/components/settings/IntegrationsSettings.jsx:115-132 | The list becomes the toggled list, and nothing else changes. |
| IntegrationsSettings.IntegrationsTab.RefreshIntegration | src/components/settings/IntegrationsSettings.jsx:134-145 | The list becomes the refreshed list, and nothing else changes. |
| Text.Lower | src/components/voice/VoiceControl.jsx:25 | `toLowerCase` keeps the length, lower-cases each character and leaves no upper-case letter. |
| Text.Trim | src/components/voice/VoiceControl.jsx:25 | `trim` never lengthens the string and leaves no space at either end. |
| Text.Includes | src/components/devices/DeviceList.jsx:20-21 | `includes` holds iff the query occurs at some position. |
| Text.NatToString | src/stores/deviceStore.js:227 | `toString` of a non-negative integer is a non-empty run of digits with no leading zero. |
| Text.PrintInjective | src/stores/deviceStore.js:227 | Different numbers print differently. |
| Records.Set | src/components/settings/GeneralSettings.jsx:17-22 | `{...obj, [key]: value}` sets only that key. |
| Records.Toggle | src/components/settings/GeneralSettings.jsx:24-29 | `{...obj, [key]: !obj[key]}` sets only that key, to the negation of its truthiness. |
| Records.ToggleTwice | src/components/settings/GeneralSettings.jsx:24-29 | On a boolean key, toggling twice restores the record. |
| Records.ToggleTwiceOnString | src/components/settings/SecuritySettings.jsx:45-50 | On a non-empty string such as '30m', toggling twice gives `true`, not the string. |
| Records.SetSet | src/components/settings/GeneralSettings.jsx:17-22 | The later of two changes to one key wins. |
| Records.SetSame | src/components/settings/GeneralSettings.jsx:17-22 | Setting a key to its own value changes nothing. |
| SecuritySettings.InitialWellShaped | src/components/settings/SecuritySettings.jsx:5-13 | The starting settings have boolean switches and a string timeout. |
| SecuritySettings.ToggleSwitch | src/components/settings/SecuritySettings.jsx:45-50 | Toggling a switch keeps that shape, and toggling twice restores the settings. |
| SecuritySettings.ChangeTimeout | src/components/settings/SecuritySettings.jsx:52-57 | Changing the timeout keeps the shape and every other key. |
| SecuritySettings.WithoutSession | src/components/settings/SecuritySettings.jsx:59-61 | `terminateSession` removes exactly the sessions with the id. It does not itself protect the current session. |
| SecuritySettings.CurrentOnly | src/components/settings/SecuritySettings.jsx:63-65 | `terminateAllSessions` keeps exactly the current sessions. |
| SecuritySettings.SignOutsKeepOrder | src/components/settings/SecuritySettings.jsx:59-65 | Both keep the remaining sessions in order. |
| SecuritySettings.TerminateAllIdempotent | src/components/settings/SecuritySettings.jsx:63-65 | Signing out all twice equals once. |
| SecuritySettings.OfferedSignOutKeepsCurrent | src/components/settings/SecuritySettings.jsx:263 | The sign-out button shows only on non-current sessions, so with unique ids using it keeps every current session. |
| SecuritySettings.SignOutAllDisabled | src/components/settings/SecuritySettings.jsx:229 | "Sign Out All" is disabled exactly when there is at most one session. |
| SecuritySettings.SignOutAllFromStart | src/components/settings/SecuritySettings.jsx:229 | From the start, "Sign Out All" is enabled and leaves only the current session, after which it is disabled. |
| SecuritySettings.SecurityTab.constructor | src/components/settings/SecuritySettings.jsx:5-43 | The starting settings and sessions. |
| SecuritySettings.SecurityTab.HandleToggle | src/components/settings/SecuritySettings.jsx:45-50 | Settings become `Toggle` of the old ones, and sessions are untouched. |
| SecuritySettings.SecurityTab.HandleChange | src/components/settings/SecuritySettings.jsx:52-57 | Settings become `Set` of the old ones, and sessions are untouched. |
| SecuritySettings.SecurityTab.TerminateSession | src/components/settings/SecuritySettings.jsx:59-61 | Sessions become `WithoutSession` of the old ones, and settings are untouched. |
| SecuritySettings.SecurityTab.TerminateAllSessions | src/components/settings/SecuritySettings.jsx:63-65 | Sessions become `CurrentOnly` of the old ones, and settings are untouched. |
| GeneralSettings.InitialSettingsShape | src/components/settings/GeneralSettings.jsx:5-15 | The defaults are four string choices, light theme included, and five flags that are all true. |
| GeneralSettings.ChangeChoice | src/components/settings/GeneralSettings.jsx:17-22 | Changing a choice sets only that key and keeps the shape. |
| GeneralSettings.ToggleSwitch | src/components/settings/GeneralSettings.jsx:24-29 | Toggling a flag negates only that flag, and toggling twice restores the record. |
| GeneralSettings.GeneralTab.constructor | src/components/settings/GeneralSettings.jsx:5-15 | The tab starts with the defaults. |
| GeneralSettings.GeneralTab.HandleChange | src/components/settings/GeneralSettings.jsx:17-22 | Settings become `Set` of the old ones. |
| GeneralSettings.GeneralTab.HandleToggle | src/components/settings/GeneralSettings.jsx:24-29 | Settings become `Toggle` of the old ones. |
| AccountSettings.InitialForm | src/components/settings/AccountSettings.jsx:8-15 | Name and email come from the user, phone is '' for the demo user, and the password fields are empty. |
| AccountSettings.SetField | src/components/settings/AccountSettings.jsx:17-23 | `handleChange` updates only the named field. |
| AccountSettings.Submit | src/components/settings/AccountSettings.jsx:29-39 | A non-empty new password that differs from its confirmation stops the submit. Otherwise the update carries name, email and phone, and it fails. |
| AccountSettings.EmptyNewPasswordSkipsCheck | src/components/settings/AccountSettings.jsx:29 | An empty new password skips the check whatever the confirmation holds. |
| AccountSettings.PasswordsNeverForwarded | src/components/settings/AccountSettings.jsx:35-39 | Forms that differ only in the password fields send the same update. |
| AccountSettings.AccountTab.constructor | src/components/settings/AccountSettings.jsx:8-15 | The tab starts out of edit mode, with the initial form. |
| AccountSettings.AccountTab.ToggleEditing | src/components/settings/AccountSettings.jsx:51 | The edit button flips edit mode. |
| AccountSettings.AccountTab.HandleChange | src/components/settings/AccountSettings.jsx:17-23 | The form becomes `SetField` of the old one. |
| AccountSettings.AccountTab.HandleSubmit | src/components/settings/AccountSettings.jsx:26-43 | The outcome is `Submit` of the form, and nothing changes: the tab stays in edit mode either way. |
| AccountSetup.PopularPlatforms | src/pages/AccountSetup.jsx:111 | Exactly the popular platforms. |
| AccountSetup.OtherPlatforms | src/pages/AccountSetup.jsx:112 | Exactly the others. |
| AccountSetup.PlatformsPartition | src/pages/AccountSetup.jsx:111-112 | The two lists partition the platforms, each in order. |
| AccountSetup.PopularPrefix | src/pages/AccountSetup.jsx:111-112 | When the popular platforms come first, the lists are the prefix and the rest. |
| AccountSetup.PlatformListCounts | src/pages/AccountSetup.jsx:12-112 | On the page's twelve platforms, 4 are popular and 8 are other. |
| AccountSetup.StartValid | src/pages/AccountSetup.jsx:6-10 | The starting state satisfies the wizard's invariant: step in 1..3, at most one pending timer, flags agreeing with the timers. |
| AccountSetup.Title | src/pages/AccountSetup.jsx:152-154 | The header title for each step. |
| AccountSetup.ButtonLabel | src/pages/AccountSetup.jsx:324-345 | 'Connecting...', 'Connected' or 'Connect', and 'Connect' exactly when the button is enabled. |
| AccountSetup.SelectPlatform | src/pages/AccountSetup.jsx:114-117 | Records the platform and moves to step 2. |
| AccountSetup.HeaderBack | src/pages/AccountSetup.jsx:146 | Leaves the page at step 1, and otherwise lowers the step by one. |
| AccountSetup.FormBack | src/pages/AccountSetup.jsx:316 | Sets step 1 and nothing else. |
| AccountSetup.Submit | src/pages/AccountSetup.jsx:119-124 | With empty inputs or a disabled button nothing happens. Otherwise authentication starts and a timer is pending. |
| AccountSetup.AuthTimerFires | src/pages/AccountSetup.jsx:126-128 | Clears authenticating, sets success and schedules the step timer. |
| AccountSetup.StepTimerFires | src/pages/AccountSetup.jsx:130-132 | Moves to step 3. |
| AccountSetup.ConnectAnother | src/pages/AccountSetup.jsx:401-404 | As written: step 1 and no platform, but `isSuccess` is kept. |
| AccountSetup.ConnectAnotherReset | src/pages/AccountSetup.jsx:401-404 | Corrected: step 1, no platform, and `isSuccess` cleared. |
| AccountSetup.EventsKeepValid | src/pages/AccountSetup.jsx:114-404 | Every event keeps the invariant, so the step stays in {1, 2, 3}. |
| AccountSetup.AuthenticationOrder | src/pages/AccountSetup.jsx:119-133 | Authenticating comes first, then success, then step 3, with the button disabled throughout. |
| AccountSetup.Connected | src/pages/AccountSetup.jsx:114-133 | A full connection ends valid at step 3 with success. |
| AccountSetup.SuccessNeverCleared | src/pages/AccountSetup.jsx:119-404 | As written, no event clears `isSuccess` once it is set. |
| AccountSetup.SecondConnectBlocked | src/pages/AccountSetup.jsx:401-404 | As written, after "Connect Another Platform" the next platform's Connect button is disabled and reads 'Connected'. |
| AccountSetup.SecondConnectAllowed | src/pages/AccountSetup.jsx:401-404 | Corrected, the second platform can be connected. |
| AccountSetup.SetupPage.constructor | src/pages/AccountSetup.jsx:6-10 | The page starts at step 1 with nothing selected. |
| AccountSetup.SetupPage.Assign | src/pages/AccountSetup.jsx:6-10 | Writes a whole state. |
| AccountSetup.SetupPage.HandleSelectPlatform | src/pages/AccountSetup.jsx:114-117 | The state becomes `SelectPlatform` of the old one. |
| AccountSetup.SetupPage.HandleHeaderBack | src/pages/AccountSetup.jsx:146 | Leaves the page iff at step 1, and otherwise goes one step back. |
| AccountSetup.SetupPage.HandleFormBack | src/pages/AccountSetup.jsx:316 | The state becomes `FormBack` of the old one. |
| AccountSetup.SetupPage.HandleAuthenticate | src/pages/AccountSetup.jsx:119-124 | The state becomes `Submit` of the old one. |
| AccountSetup.SetupPage.AuthTimer | src/pages/AccountSetup.jsx:126-128 | The state becomes `AuthTimerFires` of the old one. |
| AccountSetup.SetupPage.StepTimer | src/pages/AccountSetup.jsx:130-132 | The state becomes `StepTimerFires` of the old one. |
| AccountSetup.SetupPage.HandleConnectAnother | src/pages/AccountSetup.jsx:401-404 | As written. |
| AccountSetup.SetupPage.HandleConnectAnotherReset | src/pages/AccountSetup.jsx:401-404 | Corrected. |
| Login.Submit | src/pages/Login.jsx:14-39 | Empty inputs give the "enter both" error and skip `login`. True goes home with no error. False gives "Invalid email or password". A throw gives the generic error. Loading always ends off. |
| Login.HomeOnlyOnSuccess | src/pages/Login.jsx:25-35 | The page goes home iff both inputs are filled and `login` resolves true, and iff no error shows. |
| Login.SubmitToDemoStore | src/pages/Login.jsx:25-30 | With the demo store, filled inputs always lead home with that user signed in. |
| Login.LoginPage.constructor | src/pages/Login.jsx:8-12 | Empty inputs, no error, not loading. |
| Login.LoginPage.SetEmail | src/pages/Login.jsx:72 | Changes the email only. |
| Login.LoginPage.SetPassword | src/pages/Login.jsx:85 | Changes the password only. |
| Login.LoginPage.HandleSubmit | src/pages/Login.jsx:14-39 | Step by step, the error is cleared, the inputs checked, loading raised, the outcome handled and loading lowered; the end state is `Submit`. |
| Profile.ProfileStats | src/pages/Profile.jsx:43-47 | Totals are list lengths. Active devices are at most the total, and equal to it iff all are on. Executions are the sum of run counts. |
| Profile.ExecutionsBoundEachRoutine | src/pages/Profile.jsx:47 | With non-negative counts, the total is at least each routine's count. |
| Profile.ExecuteAddsRuns | src/pages/Profile.jsx:47 | Running a routine raises the page's total by the number of routines with that id. |
| Profile.InitialForm | src/pages/Profile.jsx:15-21 | Fields are '' when the user is missing. Only name and email come from the demo user. |
| Profile.SetField | src/pages/Profile.jsx:23-29 | `handleChange` updates only the named field. |
| Profile.ProfileForm.constructor | src/pages/Profile.jsx:12-21 | Not editing, with the initial form. |
| Profile.ProfileForm.SetEditing | src/pages/Profile.jsx:67 | The edit and cancel buttons set edit mode only. |
| Profile.ProfileForm.HandleChange | src/pages/Profile.jsx:23-29 | The form becomes `SetField` of the old one. |
| Profile.ProfileForm.HandleSubmit | src/pages/Profile.jsx:31-40 | The whole form is what would be sent, and nothing changes because the call throws. |
| DashboardPage.Greeting | src/pages/Dashboard.jsx:34-37 | 'Good Morning' iff the hour is before 12, 'Good Afternoon' iff 12 to 17, 'Good Evening' iff 18 or later. |
| DashboardPage.NextStatus | src/pages/Dashboard.jsx:46 | 'On' becomes 'Off', and every other status becomes 'On'. |
| DashboardPage.NextStatusTwice | src/pages/Dashboard.jsx:46 | Twice restores 'On' and 'Off', and turns anything else, 'Locked' included, into 'Off'. |
| DashboardPage.ToggleDeviceStatus | src/pages/Dashboard.jsx:42-55 | Only favourites with the id switch status. Statistics and activity are untouched. |
| DashboardPage.UnknownIdChangesNothing | src/pages/Dashboard.jsx:44-50 | An unknown id leaves the data unchanged. |
| DashboardPage.ToggleTwiceRestores | src/pages/Dashboard.jsx:42-55 | Switching twice restores the data when the matching statuses are 'On' or 'Off'. |
| DashboardPage.LockedDoorNeverReturns | src/pages/Dashboard.jsx:6-55 | The locked front door switches to 'On', then 'Off', and never returns to 'Locked'. |
| DashboardPage.Dashboard.constructor | src/pages/Dashboard.jsx:29-31 | The page starts with the demonstration data. |
| DashboardPage.Dashboard.GreetAt | src/pages/Dashboard.jsx:34-37 | The greeting is `Greeting(hour)`, and the data is untouched. |
| DashboardPage.Dashboard.ToggleDevice | src/pages/Dashboard.jsx:42-55 | The data becomes `ToggleDeviceStatus` of the old data. |

## Left out

- Rendering: markup, Tailwind classes other than the status colours, animations and icons. An icon is a datatype tag.
- Routing and layout: the protected-route redirect, the sidebar, the mobile navigation, the settings tab switch and the thin page wrappers. Navigation is a returned path.
- Charts, floating-point totals, `toFixed` and bar widths in the energy views. Energy usage and cost are whole numbers.
- The randomly generated device and routine histories. The random device count of a newly connected integration is a parameter in 1..5.
- OAuth, credential storage and every `fetch` and database call in the integration service. What a bridge or a database would answer is a parameter.
- Timer latencies (`setTimeout`), React effect ordering and the interleaving of asynchronous handlers. Each `await` and each timer callback is one atomic step.
- `console.error` and `console.warn` logging.
- Locale: `toLocaleString`, date formatting and `localeCompare`. Names are compared by a plain character order, and clocks are integer milliseconds.
- Text.Lower: `toLowerCase` and `toUpperCase` map the ASCII letters only. Other Unicode case mappings are not modelled.
- Text.Trim: removes ASCII whitespace, no-break space and the byte-order mark. The other Unicode space separators that `trim` also removes are not modelled.
- Devices.Merge, Routines.Merge, Rooms.Merge: an `updates` object is a record of optional fields. Keys outside the record type, and an explicit `undefined` value, are not modelled.
- AccountSettings.SetField, Profile.SetField: an input name other than the form's fields is modelled as no change. The source would add an unread key.
- StatusOverview.AverageTemperature, Profile.ProfileStats: a missing `currentValue` or `timesExecuted` counts as 0, as `|| 0` does. Other non-numeric values are not modelled.
- `updateUser` is called by the profile page and the account settings tab, but the authentication store does not define it. The call is modelled as throwing, which is what a call to `undefined` does.
- `controlGoogleHomeDevice`, `controlAmazonAlexaDevice` and `fetchAmazonAlexaDevices` are called but not defined. Each call is modelled by what its surrounding `catch` returns (false from `controlDevice`, [] from `getPlatformDevices`), not as a throw of its own.
- Login.LoginPage.HandleSubmit: requires the loading flag to be off, because the submit button is disabled while loading. Two overlapping submits are not modelled.
- AccountSetup.Submit: the email and password inputs on step 2 are uncontrolled, so the browser's `required` check is a `filled` flag.
- The loading flags that `fetchDevices`, `fetchRoutines`, `fetchRooms` and the routines page set around their awaited fetches.
- RoomDetails.ToggleAllEffect, RoomDetails.ToggleByTypeEffect: "other devices unchanged" is stated only when device ids are unique. `toggleDevice` switches every device with the id, including one in another room that shares it.
- RoomDetails.ToggleEach: one clock reading is used for every `toggleDevice` call of a loop.
- Notifications.NotificationStore.MarkAllAsRead, Notifications.NotificationStore.ClearAll, NotificationPanel.UnreadAndReadPartition, Header.Badge: `unreadCount` is a getter in the store's initial object (src/stores/notificationStore.js:57-59). The store's merging `set` copies it into a plain number, the count before that first action, and the source shows that number from then on. The model computes the count afresh from the list, as the getter intends.
- EnergySavingTips.Amount: a text without '$' and a digit gives 0, where `match(...)[1]` would throw a TypeError. The six tips always match.
- EnergySavingTips.ToggleTwiceFromPresent: toggling a present id twice restores the set of implemented ids, not the list. The id moves to the end, as the code's remove-then-append does.

## Findings

| source | as written | input that shows it | evidently intended | confidence | as-written member | corrected member |
|---|---|---|---|---|---|---|
| src/components/voice/VoiceControl.jsx:107-112 | The auto-close timer tests the `isListening` captured when the command was processed. | Speak a command while listening, then close the microphone within the next four seconds. The timer toggles listening back on. | Close the microphone only if it is still listening when the timer fires. | not executed | VoiceControl.ClosedPanelReopens | VoiceControl.ClosedPanelStaysClosed |
| src/pages/AccountSetup.jsx:401-404 | "Connect Another Platform" resets the step and platform but keeps `isSuccess` true. | Connect one platform, click "Connect Another Platform", choose a second platform. Its Connect button is disabled and reads "Connected". | Clear `isSuccess` too, so that a second platform can be connected. | not executed | AccountSetup.SecondConnectBlocked | AccountSetup.SecondConnectAllowed |
