# Bluetooth A2DP sink state machine and PBAP vCard manager — a Dafny model

This project models two parts of the Android Bluetooth application.

**The A2DP sink connection state machine** (`a2dp_sink.dfy`, module `A2dpSink`).
The class `A2dpSinkStateMachine` has these fields:

- its current state: `Disconnected`, `Pending` or `Connected`;
- the three device slots: the current device, the target device and the incoming device;
- the playing device;
- the audio-focus flag;
- the audio configuration of each device;
- the machine's own message queue and its deferred messages;
- a log of effects on the outside world. The effects are connection, audio and configuration broadcasts, native calls, audio-manager requests and AVRCP pass-through commands.

Each state has one method per message it handles. `ProcessMessage` dispatches to them. Replies the machine cannot see come in as an `Environment` value: the native stack's return values, the audio manager's grant, the AVRCP controller's presence and the adapter's quiet mode, priority and bond state. The native callbacks post stack events to the queue.

A `transitionTo` takes effect after the handler returns. The new state's `enter` runs: Disconnected and Pending drop the queued REQUEST_AUDIO_FOCUS messages, and Connected announces "not playing". Then the deferred messages move to the front of the queue.

The new state each handler leaves is written once, as a two-state predicate over every field (`DisconnectedConnectPost`, `PendingConnectionEventPost` and so on). The handlers ensure them, and so do the per-state dispatchers (`DisconnectedHandles`, `PendingHandles`, `ConnectedHandles`) and `ProcessMessage` (`Handles`). `ProcessMessage` has these proved properties:

- a handled message changes every field as the handler of the current state for that message says;
- it refuses exactly the messages the source returns NOT_HANDLED for;
- a CONNECT_TIMEOUT in Pending with no target is a null dereference and changes nothing;
- it keeps the device-slot invariant written at the head of the class.

One message breaks that invariant: in Pending, with a current device and a different target, the stack reports that the target disconnected. The machine then goes to Disconnected and still holds the current device, so it refuses every later message. `TargetDropStrandsMachine` walks a fresh machine into that situation. Pending's handling of DISCONNECTED for the current device leaves the playing device unchanged, as the source does.

**The PBAP vCard manager** (`pbap_contacts.dfy`, `pbap_sim.dfy`, `pbap_vcard.dfy`). It covers:

- the contact-cursor filters `filterByRange` and `filterByOffset`, which keep the distinct contact ids of a cursor sorted by id at 1-based positions;
- the distinct-id count and the phonebook size, which counts the owner card 0.vcf;
- the "name,id" listing;
- the range and offset checks of the compose entry points;
- the call-log record selection;
- the SIM name listing with the owner first, and the SIM lookup by phone number;
- VCardFilter: the filter-bit test, `isPhotoEnabled` and `apply`;
- `StripTelephoneNumber`.

`java_text.dfy` gives the `java.lang.String` operations these rely on, with Java's edge cases. For example, `split` drops trailing empty strings, but `"".split` gives `[""]`. `wrappers.dfy` holds `Option` and `Result`.

## Model

| member | source | states |
|---|---|---|
| A2dpSink.A2dpSinkStateMachine.constructor | src/com/android/bluetooth/a2dp/A2dpSinkStateMachine.java:160-187 | a new machine is Disconnected with every slot empty, focus lost, no configs or messages, has called the native init with one sink connection and no multicast, and satisfies the slot invariant |
| A2dpSink.A2dpSinkStateMachine.RolesConsistent | src/com/android/bluetooth/a2dp/A2dpSinkStateMachine.java:126-147 | the slot invariant of the class comment: incoming excludes the other two, Disconnected holds none, Connected only the current device, Pending at least one, current differs from target; under it the machine is Disconnected exactly when no slot is set |
| A2dpSink.A2dpSinkStateMachine.Cleanup | src/com/android/bluetooth/a2dp/A2dpSinkStateMachine.java:305-318 | the native cleanup is called and every audio configuration is forgotten |
| A2dpSink.A2dpSinkStateMachine.GetAudioConfig | src/com/android/bluetooth/a2dp/A2dpSinkStateMachine.java:888-890 | a configuration is returned exactly for a device that has one, and it is that device's configuration |
| A2dpSink.A2dpSinkStateMachine.GetConnectionState | src/com/android/bluetooth/a2dp/A2dpSinkStateMachine.java:856-886 | CONNECTED iff Connected to this device; CONNECTING iff Pending and it is the target, or the incoming device and not the current one; DISCONNECTING iff Pending, current and not target; DISCONNECTED in Disconnected |
| A2dpSink.A2dpSinkStateMachine.GetConnectedDevices | src/com/android/bluetooth/a2dp/A2dpSinkStateMachine.java:892-900 | at most one device, and a device is listed iff its connection state is CONNECTED |
| A2dpSink.A2dpSinkStateMachine.GetDevicesMatchingConnectionStates | src/com/android/bluetooth/a2dp/A2dpSinkStateMachine.java:944-962 | the bonded devices with the audio-source UUID, in the adapter's order, each once per requested state equal to its connection state |
| A2dpSink.AddPerMatch | src/com/android/bluetooth/a2dp/A2dpSinkStateMachine.java:954-958 | the list grows by the device once for every requested state equal to the device's connection state, and is otherwise unchanged |
| A2dpSink.A2dpSinkStateMachine.MatchingDevicesMembers | src/com/android/bluetooth/a2dp/A2dpSinkStateMachine.java:944-962 | a device is listed iff it is bonded, offers the audio source, and its connection state is among the requested ones |
| A2dpSink.A2dpSinkStateMachine.IsPlaying | src/com/android/bluetooth/a2dp/A2dpSinkStateMachine.java:902-909 | true iff the device is the playing device |
| A2dpSink.A2dpSinkStateMachine.OkToConnect | src/com/android/bluetooth/a2dp/A2dpSinkStateMachine.java:923-942 | accepted iff the adapter service exists, it is not quiet mode with no target, and the priority is above OFF or undefined with the device bonded |
| A2dpSink.ConfigFromStack | src/com/android/bluetooth/a2dp/A2dpSinkStateMachine.java:1021-1029 | the stack's configuration keeps the sample rate, is mono iff one channel, and is 16-bit PCM |
| A2dpSink.Without | src/com/android/bluetooth/a2dp/A2dpSinkStateMachine.java:329-335 | removing the queued messages of one code never lengthens the queue |
| A2dpSink.WithoutMembers | src/com/android/bluetooth/a2dp/A2dpSinkStateMachine.java:461-467 | a message survives removeMessages(what) iff it was queued and has another code |
| A2dpSink.TimeoutStaysCancelled | src/com/android/bluetooth/a2dp/A2dpSinkStateMachine.java:496-501 | when the deferred messages are only CONNECT and DISCONNECT requests and no timeout is queued, the queue after a transition, with or without its focus requests removed, holds no CONNECT_TIMEOUT |
| A2dpSink.A2dpSinkStateMachine.TransitionTo | src/com/android/bluetooth/a2dp/A2dpSinkStateMachine.java:329-335 | the new state is set, its enter action runs on the queue and the effects, and the deferred messages go to the queue front in order |
| A2dpSink.A2dpSinkStateMachine.ProcessAudioConfigEvent | src/com/android/bluetooth/a2dp/A2dpSinkStateMachine.java:850-854 | the device's configuration is replaced, afterwards reported by getAudioConfig, and broadcast |
| A2dpSink.A2dpSinkStateMachine.ReleasePatch | src/com/android/bluetooth/a2dp/A2dpSinkStateMachine.java:188-201 | with the audio track in use, releasing the patch tells the stack focus is lost |
| A2dpSink.A2dpSinkStateMachine.PatchPorts | src/com/android/bluetooth/a2dp/A2dpSinkStateMachine.java:202-247 | with the audio track in use, patching broadcasts PLAYING for the playing device and tells the stack focus is granted |
| A2dpSink.A2dpSinkStateMachine.AbandonAudioFocus | src/com/android/bluetooth/a2dp/A2dpSinkStateMachine.java:1147-1209 | focus is abandoned with the audio manager, and the flag becomes lost only when the request is granted |
| A2dpSink.A2dpSinkStateMachine.DisconnectedConnect | src/com/android/bluetooth/a2dp/A2dpSinkStateMachine.java:347-365 | CONNECTING is broadcast and the native connect called; on success the device is the target, the machine is Pending and a 30 s timeout is queued; on failure DISCONNECTED is broadcast and nothing else changes |
| A2dpSink.A2dpSinkStateMachine.DisconnectedConnectionEvent | src/com/android/bluetooth/a2dp/A2dpSinkStateMachine.java:395-456 | an acceptable incoming CONNECTING goes to Pending with the incoming device; CONNECTED goes to Connected and starts the other profiles; a refused one disconnects natively; other states change nothing |
| A2dpSink.A2dpSinkStateMachine.DisconnectedProcessMessage | src/com/android/bluetooth/a2dp/A2dpSinkStateMachine.java:338-387 | NOT_HANDLED iff a slot is set or the message is a focus request or timeout, and then nothing changes; CONNECT, connection events and configuration events change every field as the matching handler's row says; DISCONNECT and audio-state events change nothing; the slot invariant is kept |
| A2dpSink.A2dpSinkStateMachine.PendingDisconnect | src/com/android/bluetooth/a2dp/A2dpSinkStateMachine.java:482-495 | cancelling the target while disconnecting the current device clears the target and broadcasts DISCONNECTED for it; otherwise the message is deferred |
| A2dpSink.A2dpSinkStateMachine.PendingDisconnectedEvent | src/com/android/bluetooth/a2dp/A2dpSinkStateMachine.java:520-565 | the device's configuration is dropped; every slot case (current, target, incoming, none) sets the slots, state, queue and broadcasts as the source does |
| A2dpSink.A2dpSinkStateMachine.DisconnectingCurrentGone | src/com/android/bluetooth/a2dp/A2dpSinkStateMachine.java:522-545 | the current device is gone: with a target the native connect is tried and failure returns to Disconnected; without a target every slot is cleared and the machine is Disconnected |
| A2dpSink.A2dpSinkStateMachine.PendingConnectedEvent | src/com/android/bluetooth/a2dp/A2dpSinkStateMachine.java:566-614 | the device becomes current and the machine Connected, with the broadcast of the slot it came from; from a consistent state target and incoming end empty |
| A2dpSink.A2dpSinkStateMachine.PendingConnectionEvent | src/com/android/bluetooth/a2dp/A2dpSinkStateMachine.java:499-501 | the queued timeout is removed, then DISCONNECTED and CONNECTED are handled as their rows say and other states change nothing more; with plain deferred requests no timeout is left queued |
| A2dpSink.A2dpSinkStateMachine.PendingProcessMessage | src/com/android/bluetooth/a2dp/A2dpSinkStateMachine.java:470-515 | CONNECT is deferred and nothing else changes; a timeout with a target posts DISCONNECTED for it and nothing else changes, without one it is a null dereference; DISCONNECT, connection and configuration events change every field as the matching handler's row says, after the timeout is removed for a connection event; focus requests are NOT_HANDLED; no timeout stays queued after a connection event; the invariant is kept except on the one breaking message, which strands the current device in Disconnected |
| A2dpSink.A2dpSinkStateMachine.ConnectedConnect | src/com/android/bluetooth/a2dp/A2dpSinkStateMachine.java:674-694 | connecting the current device is ignored; another device is broadcast CONNECTING, the current one disconnected natively, and on success becomes the target in Pending |
| A2dpSink.A2dpSinkStateMachine.ConnectedDisconnect | src/com/android/bluetooth/a2dp/A2dpSinkStateMachine.java:695-720 | another device is ignored; the current one is broadcast DISCONNECTING and disconnected natively; on success playing is cleared, focus released and the machine Pending; on failure CONNECTED is broadcast again |
| A2dpSink.A2dpSinkStateMachine.ConnectedConnectionEvent | src/com/android/bluetooth/a2dp/A2dpSinkStateMachine.java:748-777 | DISCONNECTED drops the device's configuration and playing status; for the current device the machine goes to Disconnected and releases focus; other states change nothing |
| A2dpSink.A2dpSinkStateMachine.CurrentDisconnected | src/com/android/bluetooth/a2dp/A2dpSinkStateMachine.java:750-773 | the current device is broadcast DISCONNECTED, the patch released, focus abandoned and the machine Disconnected with no current device |
| A2dpSink.A2dpSinkStateMachine.ConnectedAudioStateEvent | src/com/android/bluetooth/a2dp/A2dpSinkStateMachine.java:779-818 | STARTED marks the current device playing if none is; STOPPED or SUSPEND clears playing, releases the patch, broadcasts NOT_PLAYING and abandons focus unless it is a suspend during transient loss; other devices and states change nothing |
| A2dpSink.A2dpSinkStateMachine.ConnectedAudioFocusRequest | src/com/android/bluetooth/a2dp/A2dpSinkStateMachine.java:820-847 | for the current device: transient loss pauses and releases; gain patches; otherwise focus is requested and on grant patched, on refusal retried after 500 ms |
| A2dpSink.A2dpSinkStateMachine.ConnectedProcessMessage | src/com/android/bluetooth/a2dp/A2dpSinkStateMachine.java:665-745 | NOT_HANDLED iff there is no current device or the message is a timeout, and then nothing changes; CONNECT, DISCONNECT, focus requests, connection, audio-state and configuration events change every field as the matching handler's row says; the invariant is kept |
| A2dpSink.A2dpSinkStateMachine.ProcessMessage | src/com/android/bluetooth/a2dp/A2dpSinkStateMachine.java:338-745 | a handled message changes every field as the current state's dispatcher row says for that message; NOT_HANDLED iff the state refuses the message; the null dereference iff a Pending timeout has no target; neither changes anything; the slot invariant holds except after the breaking message; deferred messages stay plain requests |
| A2dpSink.A2dpSinkStateMachine.OnAudioFocusChange | src/com/android/bluetooth/a2dp/A2dpSinkStateMachine.java:1147-1209 | loss pauses (or disconnects without AVRCP), releases and abandons; transient loss does so without abandoning; duck only sets the flag; gain sends PLAY and tells the stack focus is granted, unless ducked; other changes do nothing |
| A2dpSink.A2dpSinkStateMachine.InformAvrcpStatePlaying | src/com/android/bluetooth/a2dp/A2dpSinkStateMachine.java:911-921 | only for the playing device: pause under transient loss, tell the stack focus is ready under loss |
| A2dpSink.A2dpSinkStateMachine.OnAudioFocusRequested | src/com/android/bluetooth/a2dp/A2dpSinkStateMachine.java:1031-1044 | a focus request is posted only for the playing device |
| A2dpSink.A2dpSinkStateMachine.OnConnectionStateChanged | src/com/android/bluetooth/a2dp/A2dpSinkStateMachine.java:1007-1012 | the stack's connection report is posted as a stack event |
| A2dpSink.A2dpSinkStateMachine.OnAudioStateChanged | src/com/android/bluetooth/a2dp/A2dpSinkStateMachine.java:1014-1019 | the stack's audio report is posted as a stack event |
| A2dpSink.A2dpSinkStateMachine.OnAudioConfigChanged | src/com/android/bluetooth/a2dp/A2dpSinkStateMachine.java:1021-1029 | exactly one stack event is posted, carrying the sample rate and mono iff one channel |
| A2dpSink.TargetDropStrandsMachine | src/com/android/bluetooth/a2dp/A2dpSinkStateMachine.java:520-565 | through ProcessMessage alone, from a fresh machine: the stack connects A, CONNECT B, the stack drops B; the machine then refuses CONNECT |
| PbapContacts.RunStarts | src/com/android/bluetooth/pbap/BluetoothPbapVcardManager.java:698-719 | the positions where the contact id changes, in increasing order, and all of them |
| PbapContacts.RunIds | src/com/android/bluetooth/pbap/BluetoothPbapVcardManager.java:698-719 | the contact id at each of those positions |
| PbapContacts.Window | src/com/android/bluetooth/pbap/BluetoothPbapVcardManager.java:698-719 | the elements at 1-based positions start..end, as far as the list reaches, with their length |
| PbapContacts.WindowPages | src/com/android/bluetooth/pbap/BluetoothPbapVcardManager.java:557-585 | two adjacent ranges request together what the joined range requests |
| PbapContacts.RunIdsOfPrefix | src/com/android/bluetooth/pbap/BluetoothPbapVcardManager.java:698-719 | the distinct ids of a cursor prefix are a prefix of its distinct ids |
| PbapContacts.FilterByRange | src/com/android/bluetooth/pbap/BluetoothPbapVcardManager.java:698-719 | the distinct ids at positions startPoint..endPoint, and at most endPoint-startPoint+1 of them |
| PbapContacts.FilterByOffset | src/com/android/bluetooth/pbap/BluetoothPbapVcardManager.java:686-688 | the distinct id at the offset, or none when the offset is out of range |
| PbapContacts.DistinctContactIdSize | src/com/android/bluetooth/pbap/BluetoothPbapVcardManager.java:1100-1117 | the number of id changes along the cursor |
| PbapContacts.ContactsSize | src/com/android/bluetooth/pbap/BluetoothPbapVcardManager.java:184-200 | 0 without a cursor, otherwise the distinct count plus the owner card |
| PbapContacts.StrictlyIncreasingElementsDistinct | src/com/android/bluetooth/pbap/BluetoothPbapVcardManager.java:1100-1117 | a strictly increasing list has as many distinct elements as entries |
| PbapContacts.RunIdsElements | src/com/android/bluetooth/pbap/BluetoothPbapVcardManager.java:1100-1117 | every counted id is in the cursor, and every cursor id other than -1 is counted |
| PbapContacts.DistinctCountOfSortedCursor | src/com/android/bluetooth/pbap/BluetoothPbapVcardManager.java:1100-1117 | on a cursor sorted by non-negative contact id, the count is the number of distinct ids |
| PbapContacts.ContactIds | src/com/android/bluetooth/pbap/BluetoothPbapVcardManager.java:1123-1147 | the contact id column, row by row |
| PbapContacts.NameIdEntries | src/com/android/bluetooth/pbap/BluetoothPbapVcardManager.java:1123-1147 | one "name,id" entry per distinct id, taken from the first row of that id, with the default name for an empty one |
| PbapContacts.StringList.constructor | src/com/android/bluetooth/pbap/BluetoothPbapVcardManager.java:1123-1125 | the result list starts with the given entries |
| PbapContacts.AppendDistinctNameIdList | src/com/android/bluetooth/pbap/BluetoothPbapVcardManager.java:1123-1147 | the result list gains exactly the name-id entries, after its old contents |
| PbapContacts.ComposeAndSendPhonebookVcards | src/com/android/bluetooth/pbap/BluetoothPbapVcardManager.java:557-585 | internal error iff startPoint < 1 or startPoint > endPoint; otherwise the window of distinct ids is composed |
| PbapContacts.ComposeAndSendPhonebookOneVcard | src/com/android/bluetooth/pbap/BluetoothPbapVcardManager.java:631-699 | internal error iff offset < 1; for the indexed and alphabetical orders a null cursor is dereferenced (a null-pointer failure), otherwise the contact at the offset is composed; another order composes none, cursor or not |
| PbapContacts.SimPhonebookPositions | src/com/android/bluetooth/pbap/BluetoothPbapVcardManager.java:587-625 | internal error iff the range is bad; otherwise cursor positions startPoint-1..endPoint-1 |
| PbapContacts.SimPhonebookOnePosition | src/com/android/bluetooth/pbap/BluetoothPbapVcardManager.java:738-761 | internal error iff offset < 1; otherwise the composer moves to position offset-1, sorted by name iff the order is alphabetical, and makes no move for any order other than indexed or alphabetical |
| PbapContacts.CombinedSelection | src/com/android/bluetooth/pbap/BluetoothPbapVcardManager.java:544-550 | the record selection alone, or exactly "(" type ") AND (" record ")": that prefix, that suffix and their total length |
| PbapContacts.CallLogSelection | src/com/android/bluetooth/pbap/BluetoothPbapVcardManager.java:492-550 | internal error iff the range is bad; a cursor too short for endPoint fails; otherwise the selection between the ids at the two positions, or between ids 0 and 0 when the query gave no cursor |
| PbapContacts.RecordSelectionNamesIds | src/com/android/bluetooth/pbap/BluetoothPbapVcardManager.java:535-542 | one record gives "_id=" and the start id; a range gives "_id>=" the end id, " AND _id<=" and the start id; each id reads back as the number given |
| PbapContacts.RecordSelectionSelectsWindow | src/com/android/bluetooth/pbap/BluetoothPbapVcardManager.java:535-542 | on calls sorted by descending id, the id range selects exactly the calls at positions startPoint..endPoint |
| PbapSim.SuffixMatches | src/com/android/bluetooth/pbap/BluetoothPbapVcardManager.java:409-417 | a name is listed iff some row with a number has digits ending with the search digits |
| PbapSim.PrefixMatches | src/com/android/bluetooth/pbap/BluetoothPbapVcardManager.java:418-426 | a name is listed iff some row with a number has digits starting with the search digits |
| PbapSim.AppendAbsent | src/com/android/bluetooth/pbap/BluetoothPbapVcardManager.java:434-439 | the list keeps its start, gains exactly the new names, and the added ones are absent from it and distinct |
| PbapSim.OnlyDigits | src/com/android/bluetooth/pbap/BluetoothPbapVcardManager.java:378-383 | the digits of the number, in order |
| PbapSim.SimContactNamesByNumber | src/com/android/bluetooth/pbap/BluetoothPbapVcardManager.java:374-441 | suffix matches in cursor order, then the prefix matches not yet listed |
| PbapSim.ScanSimRows | src/com/android/bluetooth/pbap/BluetoothPbapVcardManager.java:392-428 | one pass gives the suffix and the prefix matches, skipping rows with no number |
| PbapSim.AddAbsentNames | src/com/android/bluetooth/pbap/BluetoothPbapVcardManager.java:434-439 | appends each prefix match not already in the list |
| PbapSim.SimNames | src/com/android/bluetooth/pbap/BluetoothPbapVcardManager.java:294-303 | one name per row, the default name for an empty or null one |
| PbapSim.SimPhonebookNameList | src/com/android/bluetooth/pbap/BluetoothPbapVcardManager.java:285-322 | the owner name first, then the SIM names in cursor order, or sorted when alphabetical |
| PbapVcard.VCardFilter.Decisions | src/com/android/bluetooth/pbap/BluetoothPbapVcardManager.java:1057-1086 | one keep-or-drop decision per line when every line can be read |
| PbapVcard.VCardFilter.DecisionsFailWhenUnreadable | src/com/android/bluetooth/pbap/BluetoothPbapVcardManager.java:1060-1061 | the decisions exist iff every line is readable, otherwise the failure is that of an unreadable line |
| PbapVcard.VCardFilter.DecisionsLineByLine | src/com/android/bluetooth/pbap/BluetoothPbapVcardManager.java:1057-1079 | a continuation line keeps the previous decision (drop for the first line); a property line is decided by its property name |
| PbapVcard.VCardFilter.PropertyDecision | src/com/android/bluetooth/pbap/BluetoothPbapVcardManager.java:1062-1078 | the filter-bit search and the X- rule give the property's decision |
| PbapVcard.VCardFilter.Apply | src/com/android/bluetooth/pbap/BluetoothPbapVcardManager.java:1051-1089 | without a filter the vCard is returned whole; otherwise the kept lines, each newline-terminated, or the exception of the first unreadable line |
| PbapVcard.VCardFilter.FilterEachLine | src/com/android/bluetooth/pbap/BluetoothPbapVcardManager.java:1057-1088 | the line loop gives the kept lines joined, or the first failure |
| PbapVcard.VCardFilter.ProgressFollowsDecisions | src/com/android/bluetooth/pbap/BluetoothPbapVcardManager.java:1057-1088 | the loop fails iff the decisions fail, with the same error; its text is the selected lines terminated; its flag is the last decision |
| PbapVcard.VCardFilter.DecideLine | src/com/android/bluetooth/pbap/BluetoothPbapVcardManager.java:1060-1079 | an unreadable line fails with its exception, a readable one gets its decision |
| PbapVcard.VCardFilter.DecisionsFailureExtends | src/com/android/bluetooth/pbap/BluetoothPbapVcardManager.java:1057-1061 | once a line fails, the later lines do not change the failure |
| PbapVcard.FindBit | src/com/android/bluetooth/pbap/BluetoothPbapVcardManager.java:1064-1070 | the found bit is in the table and names the property; none found means no bit names it |
| PbapVcard.FindBitFirstMatch | src/com/android/bluetooth/pbap/BluetoothPbapVcardManager.java:1064-1070 | the search stops at the first bit naming the property |
| PbapVcard.UpToDelimiter | src/com/android/bluetooth/pbap/BluetoothPbapVcardManager.java:1061 | the prefix before the first ';' or ':' |
| PbapVcard.PropertyName | src/com/android/bluetooth/pbap/BluetoothPbapVcardManager.java:1061 | there is no name iff the line is made only of delimiters |
| PbapVcard.Select | src/com/android/bluetooth/pbap/BluetoothPbapVcardManager.java:1082-1085 | the kept lines never outnumber the lines |
| PbapVcard.SelectedAreLines | src/com/android/bluetooth/pbap/BluetoothPbapVcardManager.java:1082-1085 | every kept line is a line of the vCard |
| PbapVcard.BitOfBigEndian | src/com/android/bluetooth/pbap/BluetoothPbapVcardManager.java:1040 | bit k of the big-endian filter value is bit k%8 of byte length-1-k/8 |
| PbapVcard.FilteredInIsMaskBit | src/com/android/bluetooth/pbap/BluetoothPbapVcardManager.java:1034-1041 | outside the version overrides and inside the filter, a bit is filtered in iff that bit of the filter value is set |
| PbapVcard.VCardFilter.IsFilteredIn | src/com/android/bluetooth/pbap/BluetoothPbapVcardManager.java:1034-1041 | FN is always in for 3.0, NICKNAME always out for 2.1, and a bit beyond a short or absent filter is in |
| PbapVcard.PhotoEnabledIsMaskBit | src/com/android/bluetooth/pbap/BluetoothPbapVcardManager.java:1047-1049 | isPhotoEnabled holds iff there is no filter, the filter has at most one byte, or bit 3 (PHOTO) of the filter value is set |
| PbapVcard.FirstByteIgnored | src/com/android/bluetooth/pbap/BluetoothPbapVcardManager.java:1035-1040 | the first filter byte never changes a decision |
| PbapVcard.PropertyRules | src/com/android/bluetooth/pbap/BluetoothPbapVcardManager.java:1062-1078 | an X- property is kept iff it is X-IRMC-CALL-DATETIME with its bit in; an unknown property is kept; a known one follows its bit |
| PbapVcard.PropIdentifiesBit | src/com/android/bluetooth/pbap/BluetoothPbapVcardManager.java:1003-1025 | no two filter bits name the same property |
| PbapVcard.ContinuationFollowsProperty | src/com/android/bluetooth/pbap/BluetoothPbapVcardManager.java:1058-1060 | continuation lines at the start are dropped; later ones follow the property line they continue |
| PbapVcard.ApplyKeepsLines | src/com/android/bluetooth/pbap/BluetoothPbapVcardManager.java:1051-1089 | splitting the filtered vCard gives back exactly the kept lines, all of them lines of the input |
| PbapVcard.ApplyWithoutFilter | src/com/android/bluetooth/pbap/BluetoothPbapVcardManager.java:1052 | with no filter the vCard is unchanged |
| PbapVcard.ApplyEmptyVcardFails | src/com/android/bluetooth/pbap/BluetoothPbapVcardManager.java:1053-1060 | filtering the empty vCard fails reading the first character |
| PbapVcard.CleanLines | src/com/android/bluetooth/pbap/BluetoothPbapVcardManager.java:927-934 | each line cleaned on its own |
| PbapVcard.NonEmptyElements | src/com/android/bluetooth/pbap/BluetoothPbapVcardManager.java:936-940 | exactly the non-empty lines are kept |
| PbapVcard.CleanTelephoneLines | src/com/android/bluetooth/pbap/BluetoothPbapVcardManager.java:927-934 | the array holds each old line cleaned, in place |
| PbapVcard.StripTelephoneNumber | src/com/android/bluetooth/pbap/BluetoothPbapVcardManager.java:924-943 | the non-empty cleaned lines, each newline-terminated |
| PbapVcard.CleanTelephoneLine | src/com/android/bluetooth/pbap/BluetoothPbapVcardManager.java:928-933 | a TEL line stays a TEL line and loses every '(', ')', '-' and ' ' |
| PbapVcard.StrippedLinesOf | src/com/android/bluetooth/pbap/BluetoothPbapVcardManager.java:924-943 | every output line is a non-empty cleaned input line |
| PbapVcard.StrippedLines | src/com/android/bluetooth/pbap/BluetoothPbapVcardManager.java:924-943 | splitting the result gives the non-empty cleaned lines, each from an input line, or the result is empty |
| PbapVcard.StripIdempotent | src/com/android/bluetooth/pbap/BluetoothPbapVcardManager.java:924-943 | stripping twice gives what stripping once gives |
| JavaText.SplitJoinRoundTrip | src/com/android/bluetooth/pbap/BluetoothPbapVcardManager.java:1053-1084 | splitting newline-terminated non-empty lines gives them back |
| JavaText.JoinPieces | src/com/android/bluetooth/pbap/BluetoothPbapVcardManager.java:1053 | the pieces between the separators, joined again with the separator, are the text they were cut from |
| JavaText.Split | src/com/android/bluetooth/pbap/BluetoothPbapVcardManager.java:1053 | "" splits to [""]; no piece holds the separator; no trailing piece is empty; a text without the separator is its only piece; joined with the separator, the pieces are the text up to the separators dropped from its end (the same `split` serves StripTelephoneNumber at line 925) |
| JavaText.LongRoundTrip | src/com/android/bluetooth/pbap/BluetoothPbapVcardManager.java:1139 | the text Long.toString gives a contact id, sign included, reads back as that id |

## Left out

- Broadcast delivery is not modelled. This covers the intent broadcast handler, the wake lock and the permissions. A broadcast is an entry in the effects log.
- The native stack, the audio manager, the AVRCP controller and the adapter service are not modelled. Their answers come in as `Environment` fields. The device's priority and bond state are fixed for the whole message.
- Delayed messages keep their delay as a number. No clock is modelled, so the order in which delays elapse is not captured.
- The audio port and patch listener is not modelled. `releasePatch` and `patchPorts` take their audio-track branch, which the source always uses.
- The `mA2dpReceiver` AVRCP intent receiver is not modelled. It only acts on the same path as the listener above.
- Threads and `synchronized` blocks are not modelled, because each handler runs to completion.
- The adapter's bonded devices and their SDP UUIDs are not modelled. `GetDevicesMatchingConnectionStates` takes the bonded devices, without repetition and in the adapter's iteration order, and the ones offering the audio source as parameters. `MatchingDevices` and `MatchingDevicesMembers` hold for any sequence.
- Converting between a device and its address bytes is not modelled. A `Device` is its address.
- `make`, `doQuit` and `dump` are left out. They are lifecycle and logging only.
- The framework's integer codes for profile states, focus changes and channel configurations are not modelled. They are datatypes here.
- The PBAP content-provider queries, the vCard composers and the OBEX output streams are not modelled. A cursor is the list of its rows.
- The abort flag `sIsAborted` is not modelled.
- `Collections.sort` with `compareToIgnoreCase` is not modelled. It is passed in as a function.
- The platform line separator is not modelled. It is fixed to "\n".
- PbapVcard.Select: the contract gives only a length bound. What is kept is stated by `SelectedAreLines` and `ApplyKeepsLines`.
- PbapVcard.VCardFilter.Decisions: the contract gives only the length. The decision of each line is stated by `DecisionsLineByLine`.
- A2dpSink.A2dpSinkStateMachine.GetConnectionState: requires a current device in Connected. The slot invariant guarantees this, while the source would throw a null dereference.
- A2dpSink.Without: the contract gives only a length bound. Membership is stated by `WithoutMembers`.
