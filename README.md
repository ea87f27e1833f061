# decor-ar: placement, collaboration and voice logic

decor-ar is an iOS augmented-reality app for placing furniture. A user says or
picks "bookshelf". A translucent preview then follows the spot the camera points
at on the floor, and confirming the position places the real model. Several
devices can share one AR session. Each device broadcasts the anchors it places,
mirrors what the peers place, and forgets a peer's anchors when that peer leaves
or re-announces its session.

This Dafny project models the app's four pieces of sequential logic and proves
their contracts:

- **Placement state machine** (`ModelView`, class `ARViewModel`). It covers the
  `addFurniture` trigger and the per-frame anchor update. It also covers the
  preview broadcast, throttled to one every 0.5 s (500 ms), and the confirmation
  that publishes the final anchor. Its invariant `Valid` says two things:
  - at most one local preview anchor is live, and it is `currentARAnchor`;
  - successive preview broadcasts are more than 500 ms apart.
- **Collaboration** (`Collaboration`). It covers the following:
  - the `SessionID:<uuid>` message, with its UTF-8 round trip (`Utf8`, following
    RFC 3629) and the `uuidString` layout (`Uuid`, following RFC 4122 section 3);
  - the peer-to-session table `peerSessionIDs`;
  - purging a session's anchors;
  - the peer cap;
  - mirroring peers' anchors into the scene and removing them by name;
  - the send decision for collaboration data.
- **Legacy container** (`Container`, class `ARViewContainer`). It covers the
  preview/placed toggle, which gates pose updates and rotation.
- **Speech recording** (`SpeechRecognition`). It covers the authorization and
  availability labels and the record-button toggle. It also covers cancelling
  the previous task before a new recording, and the completion reset that
  forwards each transcript to `addFurniture`.

`Frameworks` holds stand-ins for what the app reads and changes in ARKit,
RealityKit and MultipeerConnectivity:
- the `ARSession` with its anchors;
- the scene's anchor entities;
- the multipeer wrapper, with its connected peers and a log of what was sent.

Poses and rotations are opaque values that are only copied. Time is an integer
number of milliseconds. The timestamp text in anchor names is an opaque string.

`findEntityWithModelComponent` exists as two identical private copies, in
`ARModelView.swift` and `ARViewContainer.swift`. `EntitySearch` defines it once.

The Swift extensions of `ARViewModel` are module-level methods that take the
view model as `vm`.

## Model

| member | source | states |
|---|---|---|
| `ModelView.BookshelfCommandSpellings` | decor-ar/ARModelView.swift:158-160 | a name triggers placement iff it is "bookshelf" in any mix of upper- and lower-case letters |
| `ModelView.ARViewModel.constructor` | decor-ar/ARModelView.swift:16-42 | the starting state: not placing, no anchors, no preview sent and the entity counter at 0, no recognition request or task, nothing cancelled and the first recognition id 0 (so recording can start), no multipeer session, the invariant established |
| `ModelView.ARViewModel.AddFurniture` | decor-ar/ARModelView.swift:157-173 | a bookshelf command starts placing "Bookshelf" with fresh clones, the full model hidden and the preview shown, overwriting a placement in progress; any other name leaves every field unchanged |
| `ModelView.LowerAscii` | decor-ar/ARModelView.swift:158 | the result has the same length; each ASCII upper-case letter becomes its lower-case letter and every other character is kept |
| `ModelView.ARViewModel.SessionDidUpdate` | decor-ar/ARModelView.swift:107-155 | the session has a current frame afterwards; only with normal tracking, a placement in progress and a hit does anything else change: a fresh anchor at the hit, with the previous anchor's rotation, replaces the previous one in the scene; a preview anchor is published only if more than 500 ms passed since the last one; the invariant is kept |
| `ModelView.ARViewModel.MoveCurrentAnchor` | decor-ar/ARModelView.swift:120-134 | the new anchor entity holds both clones at the hit pose, inherits the old anchor's rotation, and replaces the old anchor in the scene |
| `ModelView.ARViewModel.PublishPreview` | decor-ar/ARModelView.swift:136-146 | publishes `<name>-Preview <stamp>` iff more than 500 ms passed, records the time, keeps broadcasts more than 500 ms apart, and leaves exactly one local preview anchor |
| `ModelView.ARViewModel.ReplacePreviewAnchor` | decor-ar/ARModelView.swift:141-145 | the previous preview anchor is removed before the new anchor is added, so the session holds the old anchors minus the previous preview, followed by the new anchor |
| `ModelView.ARViewModel.ConfirmFurniturePosition` | decor-ar/ARModelView.swift:175-191 | ends the placement: removes the pending preview anchor, adds exactly one anchor `<name> <stamp>` at the current anchor's pose, shows the full model and hides the preview, and clears the current anchors and the name |
| `ModelView.ARViewModel.SetFurnitureRotation` | decor-ar/ARModelView.swift:193-195 | sets the current anchor's rotation to `AboutY(-angle)`, a rotation by `-angle` about the vertical axis, keeping its position; with no current anchor nothing changes |
| `ModelView.ThrottledStep` | decor-ar/ARModelView.swift:138-139 | a broadcast more than 500 ms after the last one keeps all broadcasts more than 500 ms apart |
| `ModelView.OnlyPreviewIsKept` | decor-ar/ARModelView+Collaboration.swift:161-169 | removing anchors from the session never creates a second live preview |
| `ModelView.RemovingCurrentPreview` | decor-ar/ARModelView.swift:141-143 | once the current preview anchor is removed, no local preview anchor is left |
| `ModelView.AddingAfterPreviewRemoved` | decor-ar/ARModelView.swift:144-145 | the anchor added next is the only local preview, if it is one |
| `AnchorNames.FirstComponent` | decor-ar/ARModelView+Collaboration.swift:59 | the kind is the longest space-free prefix of the name: it is a prefix, holds no space, and is followed by a space whenever it is shorter than the name |
| `AnchorNames.FirstComponentOfJoined` | decor-ar/ARModelView+Collaboration.swift:59 | splitting `kind + " " + rest` gives back `kind` whenever `kind` has no space |
| `AnchorNames.KindOfConfirmedName` | decor-ar/ARModelView.swift:180 | a receiver reads the kind of a confirmed anchor `<Kind> <stamp>` back from its name, and a confirmed bookshelf is never taken for a preview |
| `AnchorNames.KindOfPreviewName` | decor-ar/ARModelView.swift:140 | a receiver reads `<Kind>-Preview` from a preview anchor's name, and the name is a preview name |
| `EntitySearch.Visited` | decor-ar/ARModelView.swift:220-225 | the entities the search inspects are at most `limit`, starting at the given entity |
| `EntitySearch.FindEntityWithModelComponent` | decor-ar/ARModelView.swift:217-227 | (the copy in ARViewContainer.swift:120-130 is the same) descends at most `recursiveSearchLimit` first children; the result is the first inspected entity with a model component, and nil iff none of the inspected entities has one, which happens exactly when the limit is used up |
| `Utf8.DecodeEncode` | decor-ar/ARModelView+Collaboration.swift:175 | decoding the UTF-8 encoding of any string gives the string back |
| `Utf8.EncodeDecode` | decor-ar/ARModelView+Collaboration.swift:115 | bytes that decode as UTF-8 are exactly the encoding of the decoded string, so decoding is injective |
| `Utf8.InvalidByteRejected` | decor-ar/ARModelView+Collaboration.swift:115 | a byte 0xFF never starts valid UTF-8 |
| `Uuid.UuidStringFormat` | decor-ar/ARModelView+Collaboration.swift:173 | `uuidString` is 36 characters with hyphens at positions 8, 13, 18 and 23 and upper-case hex digits elsewhere |
| `Uuid.UuidStringInjective` | decor-ar/ARModelView+Collaboration.swift:165 | different sessions have different `uuidString`s |
| `Collaboration.ParseSessionIdCommand` | decor-ar/ARModelView+Collaboration.swift:114-117 | an identifier is read iff the text starts with `SessionID:`, and the text is then that prefix followed by the identifier |
| `Collaboration.ParseSessionIdCommandInverse` | decor-ar/ARModelView+Collaboration.swift:171-176 | parsing gives `id` exactly for the text `SessionID:` + `id` |
| `Collaboration.DecodeSessionIdMessage` | decor-ar/ARModelView+Collaboration.swift:115-117 | bytes yield an identifier only when they are exactly the message built for that identifier |
| `Collaboration.SessionIdMessageRoundTrip` | decor-ar/ARModelView+Collaboration.swift:171-178 | the receiver reads back exactly the identifier the sender put in the message |
| `Collaboration.MalformedMessageIgnored` | decor-ar/ARModelView+Collaboration.swift:115 | exactly the bytes that do not decode as UTF-8, or whose text does not start with `SessionID:`, are not taken for an identifier; in particular every message opening with the byte 0xFF |
| `Collaboration.AnchorsNotFrom` | decor-ar/ARModelView+Collaboration.swift:163-167 | the purge keeps, in order, exactly the anchors not tagged with the identifier; anchors without a session are kept |
| `Collaboration.AnchorsNotFromUuid` | decor-ar/ARModelView+Collaboration.swift:164-165 | for the identifier of session `u`, an anchor is kept iff its session is not `u` |
| `Collaboration.PurgeStepRemoves` | decor-ar/ARModelView+Collaboration.swift:164-167 | a loop step on an anchor of the identified session removes exactly that anchor by its identifier, leaving the purged prefix followed by the rest of the frame's anchors |
| `Collaboration.PurgeStepKeeps` | decor-ar/ARModelView+Collaboration.swift:164-165 | a loop step on any other anchor, including one without a session, keeps it |
| `Collaboration.RemoveAllAnchorsOriginatingFromSession` | decor-ar/ARModelView+Collaboration.swift:161-169 | without a current frame nothing changes; otherwise the session keeps exactly the anchors not from the identified session; the invariant is kept |
| `Collaboration.InitCollaborationSession` | decor-ar/ARModelView+Collaboration.swift:17-35 | a fresh multipeer session with no peers and nothing sent, and the invitation label |
| `Collaboration.SendSessionIdTo` | decor-ar/ARModelView+Collaboration.swift:171-178 | with a multipeer session, exactly one reliable message `SessionID:<uuidString>` in UTF-8 is sent to the given peers; without one nothing is sent |
| `Collaboration.SessionIdentifierChanged` | decor-ar/ARModelView+Collaboration.swift:19-25 | a changed session identifier is announced to every connected peer |
| `Collaboration.ReceivedData` | decor-ar/ARModelView+Collaboration.swift:108-126 | collaboration data goes to the session and nothing else changes; a session message purges the anchors of the session the peer announced before, if any, and then binds the peer to the new identifier; other data changes nothing |
| `Collaboration.AcceptsPeer` | decor-ar/ARModelView+Collaboration.swift:132-135 | a peer is accepted exactly when the session does not already have more than three connected peers |
| `Collaboration.PeerDiscovered` | decor-ar/ARModelView+Collaboration.swift:128-140 | accepts iff there is a multipeer session with at most three connected peers, with the matching label; without a session the label is unchanged |
| `Collaboration.PeerCap` | decor-ar/ARModelView+Collaboration.swift:133-136 | along any sequence of invitations and departures, at most four other peers are connected |
| `Collaboration.PeerJoined` | decor-ar/ARModelView+Collaboration.swift:142-149 | shows the hold-phones-together label and sends the new peer the local session identifier |
| `Collaboration.PeerLeft` | decor-ar/ARModelView+Collaboration.swift:151-159 | shows the departure label; a bound peer's anchors are purged and its binding dropped, with other bindings unchanged; an unbound peer changes nothing else |
| `Collaboration.SessionDidOutputCollaborationData` | decor-ar/ARModelView+Collaboration.swift:95-106 | the data goes to all connected peers, reliably iff it is critical; with no peers, or no session, nothing is sent |
| `Collaboration.ModelForKind` | decor-ar/ARModelView+Collaboration.swift:66-71 | only the kinds "Bookshelf" and "Bookshelf-Preview" get a model, and each gets its own |
| `Collaboration.EntityFor` | decor-ar/ARModelView+Collaboration.swift:39-74 | an anchor yields an entity iff it is a participant, or it comes from another session and has a name; the entity sits at the anchor's transform, a participant's is its marker, and another session's carries the anchor's name and the model for the kind before the first space, which only "Bookshelf" and "Bookshelf-Preview" have, or no model for any other kind |
| `Collaboration.EntitiesFor` | decor-ar/ARModelView+Collaboration.swift:37-76 | no more entities are added than anchors arrive |
| `Collaboration.ConfirmedBookshelfMirrored` | decor-ar/ARModelView+Collaboration.swift:54-73 | a confirmed bookshelf anchor is ignored by its own session, and every other session mirrors it under its name with the full bookshelf model |
| `Collaboration.PreviewBookshelfMirrored` | decor-ar/ARModelView+Collaboration.swift:54-73 | a preview anchor is ignored by its own session, and every other session mirrors it with the preview model |
| `Collaboration.SessionDidAdd` | decor-ar/ARModelView+Collaboration.swift:37-76 | the scene keeps its entities and gains one fresh entity per anchor the mapping gives, in order: a marker per participant, and an entity per named anchor of another session; the joint-experience label is shown iff a participant arrived |
| `Collaboration.RemoveNamed` | decor-ar/ARModelView+Collaboration.swift:85-89 | removal by name keeps every entity with another name, adds none, and shrinks the scene iff an entity of that name is present |
| `Collaboration.RemovalFor` | decor-ar/ARModelView+Collaboration.swift:80-89 | a removed anchor of the local session, or one without a name, leaves the scene alone; for another session's named anchor the scene shrinks iff an entity of that name is present; no entity is ever added |
| `Collaboration.AfterRemovals` | decor-ar/ARModelView+Collaboration.swift:78-92 | handling a batch only ever drops entities of the scene, never adds any, and a batch made only of local anchors leaves the scene as it was |
| `Collaboration.RemoveNamedExactly` | decor-ar/ARModelView+Collaboration.swift:85-89 | with unique names, removal by name drops exactly the entity with that name and keeps every other |
| `Collaboration.RemoveNamedIdempotent` | decor-ar/ARModelView+Collaboration.swift:85-89 | with unique names, removing the same name a second time changes nothing |
| `Collaboration.LocalRemovalIgnored` | decor-ar/ARModelView+Collaboration.swift:80 | a removed anchor of the local session leaves the scene alone |
| `Collaboration.SessionDidRemove` | decor-ar/ARModelView+Collaboration.swift:78-92 | the scene becomes the result of removing, for each removed anchor of another session with a name, the first entity of that name |
| `Container.ARViewContainer.constructor` | decor-ar/ARViewContainer.swift:19-49 | starts in preview mode with the full bookshelf hidden and the preview shown |
| `Container.ARViewContainer.SessionDidUpdate` | decor-ar/ARViewContainer.swift:62-87 | only with normal tracking, preview mode and a hit does the anchor move to the hit, keeping its rotation; otherwise it stays |
| `Container.ARViewContainer.ToggleFurnitures` | decor-ar/ARViewContainer.swift:89-93 | flips the mode and both models' visibility, so exactly one model shows |
| `Container.ARViewContainer.ToggleFurnituresTwice` | decor-ar/ARViewContainer.swift:89-93 | two toggles restore the mode and both models' visibility |
| `Container.ARViewContainer.SetFurnitureRotation` | decor-ar/ARViewContainer.swift:95-99 | in preview mode sets the anchor's rotation to `AboutY(-angle)`, keeping its position; otherwise the anchor stays |
| `SpeechRecognition.AuthorizationLabelsDistinct` | decor-ar/ARModelView+SpeechRecognizer.swift:25-44 | each known authorization status shows a label of its own |
| `SpeechRecognition.AuthorizationLabel` | decor-ar/ARModelView+SpeechRecognizer.swift:24-44 | every status the app knows has a non-empty label, and only an unknown status has none |
| `SpeechRecognition.AuthorizationDecided` | decor-ar/ARModelView+SpeechRecognizer.swift:20-46 | recording is enabled iff authorized; each known status shows its label, and an unknown status leaves the label unchanged |
| `SpeechRecognition.AvailabilityDidChange` | decor-ar/ARModelView+SpeechRecognizer.swift:113-121 | recording is enabled iff the recognizer is available, with "Start Recording" or "Recognition Not Available" |
| `SpeechRecognition.StartRecording` | decor-ar/ARModelView+SpeechRecognizer.swift:49-109 | the previous task is cancelled and cleared before anything else; an audio-session failure ends there; otherwise a new request and its task replace the old ones and the tap is installed; only a successful engine start runs the engine and shows the listening label; the recording invariant is kept |
| `SpeechRecognition.RecordButtonTapped` | decor-ar/ARModelView+SpeechRecognizer.swift:125-139 | while running: stops the engine, ends the request's audio, disables the button, shows "Stopping", and leaves the task, the tap and the counter alone; while stopped: cancels the previous task and starts a recording, showing "Stop Recording", or "Recording Not Available" on failure, where a failure configuring the audio session leaves no task and the old request, tap and counter, and a failure starting the engine leaves the new request and task, the tap installed and the counter advanced by one |
| `SpeechRecognition.RecognitionCallback` | decor-ar/ARModelView+SpeechRecognizer.swift:73-96 | every transcript is handed to `addFurniture`: a bookshelf command starts placing "Bookshelf" with a fresh hidden full clone and a fresh shown preview clone, anything else leaves the placement alone; an error or a final result stops the engine, removes the tap, clears the request and the task, and enables recording again with "Start Recording"; otherwise the recording state stays |
| `SpeechRecognition.EndRecognition` | decor-ar/ARModelView+SpeechRecognizer.swift:85-95 | the reset leaves no request, no task, no running engine and no tap, and enables recording |

## Left out

- Rendering: materials, transparency, the participant's coordinate axes and its sphere coloured by the session id, and scene loading. An anchor entity keeps only its name, the content it was given and its transform.
- Geometry: ray casts, matrices and quaternions are opaque `Transform` and `Rotation` values. The `-angle` rotation about the vertical axis is recorded as `AboutY(-angle)`, not computed.
- Clock: `timeIntervalSince1970` becomes an integer number of milliseconds passed in as `now`. The timestamp text in anchor names is a parameter `stamp`.
- `lowercased()`: modelled for ASCII letters only. Unicode case mapping is not modelled.
- Strings are sequences of Unicode scalar values. Swift's grapheme-cluster counting in `index(_:offsetBy:)` over the ASCII prefix `SessionID:` gives the same split.
- Collaboration.ParseSessionIdCommand: the prefix test `starts(with:)` is modelled on Unicode scalars, not on Swift Characters (grapheme clusters). A text of `SessionID:` followed by a combining mark, such as U+0301, is read as a command here, while Swift's `starts(with:)`, which compares the String's Characters, rejects it because the colon and the mark form one Character.
- `NSKeyedArchiver` and `NSKeyedUnarchiver`: a foreign codec. Unarchiving is an input `unarchived`, and the archive sent is an input `encoded`. The `fatalError` on an archiving failure is not modelled.
- `findEntity(named:)`: modelled as a search of the scene's anchor entities in order. It does not descend into their children, and the `HasAnchoring` cast always succeeds.
- `currentFrame.anchors` is taken to be the session's anchor list. The purge loop walks a snapshot of it, as the source walks the frame.
- Key-value observation of the session identifier is reduced to the callback `SessionIdentifierChanged`. `OperationQueue.main` and the asynchronous authorization request are reduced to `AuthorizationDecided`, called with the resulting status.
- The run loop that delivers events is not modelled. Each callback is a method called with the framework's arguments.
- MultipeerSession.swift is not part of this model. Connecting, inviting and delivering are outside it. `MultipeerSession` keeps only the connected peers and a log of what was sent.
- ARKit's merging of received collaboration data is not modelled: `ARSession.Update` only logs the data, and no operation adds a peer's anchors to `session.anchors`. `SessionDidAdd` and `SessionDidRemove` take the anchors ARKit reports as an input.
- Collaboration.PeerCap: it is an assumption of this model that a peer connects only after `peerDiscovered` accepted it; MultipeerSession.swift, which would decide that, is not part of this model.
- The peer cap follows the code: `connectedPeers.count > 3` rejects. Up to four other peers are therefore accepted, five devices in all, although the label speaks of "four users".
- The audio engine, the audio session, the input tap's buffers and `shouldReportPartialResults` are reduced to the flags `audioEngineRunning` and `tapInstalled`, plus an input `AudioOutcome` saying which `try` throws. Installing a second tap is not modelled.
- `RecognitionCallback`: like the source, the handler does not check which task it belongs to. A late callback from a cancelled task therefore resets the current recording too.
- ModelView.ARViewModel.AddFurniture: assumes `furnitureDict` holds both "Bookshelf" and "Bookshelf-Preview", so both optional clones exist. The dictionary is filled in `makeUIView` from the Reality file, which is not part of this model; a missing key, which would leave a clone nil, is not modelled. The preview clone is taken as enabled.
- EntitySearch.FindEntityWithModelComponent: its precondition `DescentDefined` rules out a descent that reaches a childless entity with search budget left, where Swift's `children[0]` traps. The model does not capture that crash; whether the loaded scenes avoid it depends on the Reality file, which is not part of this model.
- `initARView`, `makeUIView` and `togglePeopleOcclusion`: ARKit configuration plumbing.
- `Container.ARViewContainer.constructor`: assumes the loaded preview is enabled, since the Reality file's content is not part of this model.
- AppContentView.swift, ARContentView.swift and Furniture.swift: SwiftUI layout and gestures, and a cloning wrapper. Furniture clones are opaque ids.
