/**
 * `ARViewModel` (ARModelView.swift): the view model behind the collaborative
 * placement screen.  The class holds every field the model tracks, including
 * those the Collaboration and SpeechRecognition modules (the Swift extensions)
 * change; this module holds the placement state machine.
 */
module ModelView {
  import opened Wrappers
  import opened Uuid
  import opened Frameworks
  import opened AnchorNames

  /** Throttle interval for preview broadcasts, in milliseconds (0.5 s). */
  const PreviewInterval := 500

  /** A clone of a loaded furniture asset, and whether it is shown. */
  datatype FurnitureClone = FurnitureClone(id: EntityId, asset: string, isEnabled: bool)

  /** A speech recognition request, and whether `endAudio()` was called on it. */
  datatype RecognitionRequest = RecognitionRequest(id: nat, audioEnded: bool)

  function LowerChar(c: char): char
  {
    if 'A' <= c <= 'Z' then (c as int + 32) as char else c
  }

  /** `lowercased()`, for the ASCII letters. */
  function LowerAscii(s: string): (r: string)
    ensures |r| == |s| && forall i :: 0 <= i < |s| ==> r[i] == LowerChar(s[i])
  {
    if s == [] then [] else [LowerChar(s[0])] + LowerAscii(s[1..])
  }

  /** The voice or name trigger `addFurniture` reacts to. */
  predicate IsBookshelfCommand(name: string)
  {
    LowerAscii(name) == "bookshelf"
  }

  /** Exactly the nine-letter spellings of "bookshelf" in any mix of letter case trigger placement. */
  lemma BookshelfCommandSpellings(name: string)
    ensures IsBookshelfCommand(name) <==>
      |name| == 9 && forall i :: 0 <= i < 9 ==> name[i] == "bookshelf"[i] || name[i] == "BOOKSHELF"[i]
  {
    var w, W := "bookshelf", "BOOKSHELF";
    if IsBookshelfCommand(name) {
      forall i | 0 <= i < 9 ensures name[i] == w[i] || name[i] == W[i] {
        assert LowerChar(name[i]) == w[i];
      }
    }
    if |name| == 9 && forall i :: 0 <= i < 9 ==> name[i] == w[i] || name[i] == W[i] {
      forall i | 0 <= i < 9 ensures LowerAscii(name)[i] == w[i] {
        assert LowerChar(name[i]) == w[i];
      }
    }
  }

  /** A local anchor of session `sid` that carries a preview name. */
  predicate IsLocalPreview(a: ARAnchor, sid: Uuid)
  {
    a.sessionIdentifier == Some(sid) && a.name.Some? && IsPreviewName(a.name.value)
  }

  /** At most one preview anchor is live: every local preview anchor in `anchors` is `current`. */
  predicate OnlyPreviewIs(anchors: seq<ARAnchor>, sid: Uuid, current: Option<ARAnchor>)
  {
    forall i :: 0 <= i < |anchors| && IsLocalPreview(anchors[i], sid) ==> current == Some(anchors[i])
  }

  /** Broadcast times are more than the throttle interval apart, and the last one is `last`. */
  ghost predicate Throttled(times: seq<int>, last: int)
  {
    && (forall i :: 0 < i < |times| ==> times[i] - times[i - 1] > PreviewInterval)
    && (|times| > 0 ==> times[|times| - 1] == last)
  }

  /** Dropping anchors from the session keeps the preview invariant. */
  lemma OnlyPreviewIsKept(anchors: seq<ARAnchor>, kept: seq<ARAnchor>, sid: Uuid, current: Option<ARAnchor>)
    requires OnlyPreviewIs(anchors, sid, current)
    requires forall i :: 0 <= i < |kept| ==> kept[i] in anchors
    ensures OnlyPreviewIs(kept, sid, current)
  {
  }

  /** A broadcast later than the throttle interval keeps the broadcasts apart. */
  lemma ThrottledStep(times: seq<int>, last: int, now: int)
    requires Throttled(times, last) && now - last > PreviewInterval
    ensures Throttled(times + [now], now)
  {
  }

  /** Removing the current preview anchor leaves no local preview anchor. */
  lemma RemovingCurrentPreview(anchors: seq<ARAnchor>, sid: Uuid, current: Option<ARAnchor>)
    requires OnlyPreviewIs(anchors, sid, current)
    ensures OnlyPreviewIs(if current.None? then anchors else WithoutIdentifier(anchors, current.value.identifier), sid, None)
  {
  }

  /** Adding an anchor to a session without local preview anchors. */
  lemma AddingAfterPreviewRemoved(anchors: seq<ARAnchor>, sid: Uuid, a: ARAnchor)
    requires OnlyPreviewIs(anchors, sid, None)
    ensures IsLocalPreview(a, sid) ==> OnlyPreviewIs(anchors + [a], sid, Some(a))
    ensures !IsLocalPreview(a, sid) ==> OnlyPreviewIs(anchors + [a], sid, None)
  {
  }

  class ARViewModel {
    /** `arView.session` and `arView.scene`. */
    const session: ARSession
    const scene: Scene

    var recordEnabled: bool
    var speechInfoLabel: string
    var collaborationInfoLabel: string

    var placingFurniture: bool
    var currentFurnitureName: string
    var currentFurniture: Option<FurnitureClone>
    var currentFurniturePreview: Option<FurnitureClone>
    var currentARAnchor: Option<ARAnchor>
    var currentAnchor: AnchorEntity?
    /** Ids for the clones `clone(recursive:)` makes. */
    var nextEntityId: nat

    var recognitionRequest: Option<RecognitionRequest>
    var recognitionTask: Option<nat>
    /** Every task `cancel()` was called on, in order. */
    var cancelledTasks: seq<nat>
    var nextRecognitionId: nat
    var audioEngineRunning: bool
    var tapInstalled: bool

    /** Milliseconds since 1970 of the last preview broadcast (or of creation). */
    var lastAnchorUpdate: int
    /** The times at which preview anchors were published, oldest first. */
    ghost var publishTimes: seq<int>

    var multipeerSession: MultipeerSession?
    var peerSessionIDs: map<PeerId, string>

    ghost predicate Valid()
      reads this, session
    {
      && session.Valid()
      // the force-unwraps of the per-frame update and the name of what is placed
      && (placingFurniture ==>
            currentFurniture.Some? && currentFurniturePreview.Some? && currentFurnitureName == Bookshelf)
      && (currentAnchor != null ==> placingFurniture)
      && (currentARAnchor.Some? ==> placingFurniture)
      && OnlyPreviewIs(session.anchors, session.identifier, currentARAnchor)
      && Throttled(publishTimes, lastAnchorUpdate)
    }

    constructor (sessionId: Uuid, now: int)
      ensures Valid() && fresh(session) && fresh(scene)
      ensures session.identifier == sessionId && session.anchors == [] && scene.anchors == []
      ensures !recordEnabled && speechInfoLabel == "" && collaborationInfoLabel == ""
      ensures !placingFurniture && currentFurnitureName == "" && currentFurniture.None? && currentFurniturePreview.None?
      ensures currentARAnchor.None? && currentAnchor == null && lastAnchorUpdate == now
      ensures recognitionRequest.None? && recognitionTask.None? && !audioEngineRunning && !tapInstalled
      ensures cancelledTasks == [] && nextRecognitionId == 0
      ensures publishTimes == [] && nextEntityId == 0
      ensures multipeerSession == null && peerSessionIDs == map[]
    {
      session := new ARSession(sessionId);
      scene := new Scene();
      recordEnabled, speechInfoLabel, collaborationInfoLabel := false, "", "";
      placingFurniture, currentFurnitureName := false, "";
      currentFurniture, currentFurniturePreview := None, None;
      currentARAnchor, currentAnchor, nextEntityId := None, null, 0;
      recognitionRequest, recognitionTask, cancelledTasks, nextRecognitionId := None, None, [], 0;
      audioEngineRunning, tapInstalled := false, false;
      lastAnchorUpdate, publishTimes := now, [];
      multipeerSession, peerSessionIDs := null, map[];
    }

    /**
     * `addFurniture(called:)`: a name that lower-cases to "bookshelf" starts
     * placing a bookshelf with fresh clones (the full model hidden, the preview
     * shown), overwriting any placement in progress; any other name changes nothing.
     */
    method AddFurniture(name: string)
      requires Valid()
      modifies this`placingFurniture, this`currentFurnitureName, this`currentFurniture,
        this`currentFurniturePreview, this`nextEntityId
      ensures Valid()
      ensures IsBookshelfCommand(name) ==>
        && placingFurniture && currentFurnitureName == Bookshelf
        && currentFurniture == Some(FurnitureClone(old(nextEntityId), Bookshelf, false))
        && currentFurniturePreview == Some(FurnitureClone(old(nextEntityId) + 1, BookshelfPreview, true))
        && nextEntityId == old(nextEntityId) + 2
      ensures !IsBookshelfCommand(name) ==>
        && placingFurniture == old(placingFurniture) && currentFurnitureName == old(currentFurnitureName)
        && currentFurniture == old(currentFurniture) && currentFurniturePreview == old(currentFurniturePreview)
        && nextEntityId == old(nextEntityId)
    {
      var lowered := LowerAscii(name);
      if lowered == "bookshelf" {
        placingFurniture := true;
        currentFurnitureName := Bookshelf;
        currentFurniture := Some(FurnitureClone(nextEntityId, Bookshelf, true));
        currentFurniturePreview := Some(FurnitureClone(nextEntityId + 1, BookshelfPreview, true));
        nextEntityId := nextEntityId + 2;
        currentFurniture := Some(currentFurniture.value.(isEnabled := false));
      }
    }

    /**
     * `session(_:didUpdate:)`.  With normal tracking, a placement in progress and
     * a ray-cast hit, the current anchor is moved to the hit (MoveCurrentAnchor)
     * and the preview broadcast is offered the frame (PublishPreview).  Otherwise
     * nothing changes: the last anchor stays where it was.  Either way the session
     * now has a current frame.  `hit` is the first ray-cast result, `now` the
     * clock in milliseconds, `stamp` the timestamp text.
     */
    method SessionDidUpdate(trackingState: TrackingState, hit: Option<Transform>, now: int, stamp: string)
      requires Valid()
      modifies this`currentAnchor, this`currentARAnchor, this`lastAnchorUpdate, this`publishTimes,
        scene, session`anchors, session`nextIdentifier, session`hasCurrentFrame
      ensures Valid() && session.hasCurrentFrame
      ensures !(trackingState.Normal? && placingFurniture && hit.Some?) ==>
        && currentAnchor == old(currentAnchor) && scene.anchors == old(scene.anchors)
        && currentARAnchor == old(currentARAnchor) && session.anchors == old(session.anchors)
        && lastAnchorUpdate == old(lastAnchorUpdate) && publishTimes == old(publishTimes)
        && session.nextIdentifier == old(session.nextIdentifier)
      ensures trackingState.Normal? && placingFurniture && hit.Some? ==>
        && currentAnchor != null && fresh(currentAnchor) && currentAnchor.name == ""
        && currentAnchor.content == PlacedFurniture(currentFurniture.value.id, currentFurniturePreview.value.id)
        && currentAnchor.transform ==
             (if old(currentAnchor) == null then hit.value
              else hit.value.(rotation := old(currentAnchor.transform.rotation)))
        && scene.anchors ==
             (if old(currentAnchor) == null then old(scene.anchors)
              else WithoutEntity(old(scene.anchors), old(currentAnchor))) + [currentAnchor]
      ensures trackingState.Normal? && placingFurniture && hit.Some? && now - old(lastAnchorUpdate) > PreviewInterval ==>
        && lastAnchorUpdate == now && publishTimes == old(publishTimes) + [now]
        && currentARAnchor == Some(ARAnchor(old(session.nextIdentifier), Some(PreviewAnchorName(currentFurnitureName, stamp)),
                                            Some(session.identifier), currentAnchor.transform, false))
        && session.anchors ==
             (if old(currentARAnchor).None? then old(session.anchors)
              else WithoutIdentifier(old(session.anchors), old(currentARAnchor).value.identifier)) + [currentARAnchor.value]
      ensures trackingState.Normal? && placingFurniture && hit.Some? && now - old(lastAnchorUpdate) <= PreviewInterval ==>
        && lastAnchorUpdate == old(lastAnchorUpdate) && publishTimes == old(publishTimes)
        && currentARAnchor == old(currentARAnchor) && session.anchors == old(session.anchors)
        && session.nextIdentifier == old(session.nextIdentifier)
    {
      session.FrameProduced();
      if trackingState.Normal? && placingFurniture && hit.Some? {
        MoveCurrentAnchor(hit.value);
        PublishPreview(now, stamp);
      }
    }

    /**
     * The anchor replacement of `session(_:didUpdate:)`: a fresh anchor entity
     * holding both clones is placed at the hit, inherits the rotation of the
     * current anchor if there is one, and replaces it in the scene.
     */
    method MoveCurrentAnchor(hit: Transform)
      requires Valid() && placingFurniture
      modifies this`currentAnchor, scene
      ensures Valid()
      ensures currentAnchor != null && fresh(currentAnchor) && currentAnchor.name == ""
      ensures currentAnchor.content == PlacedFurniture(currentFurniture.value.id, currentFurniturePreview.value.id)
      ensures currentAnchor.transform ==
        if old(currentAnchor) == null then hit else hit.(rotation := old(currentAnchor.transform.rotation))
      ensures scene.anchors ==
        (if old(currentAnchor) == null then old(scene.anchors)
         else WithoutEntity(old(scene.anchors), old(currentAnchor))) + [currentAnchor]
    {
      var newAnchor := new AnchorEntity("", PlacedFurniture(currentFurniture.value.id, currentFurniturePreview.value.id), hit);
      if currentAnchor != null {
        newAnchor.transform := newAnchor.transform.(rotation := currentAnchor.transform.rotation);
        scene.RemoveAnchor(currentAnchor);
      }
      scene.AddAnchor(newAnchor);
      currentAnchor := newAnchor;
    }

    /**
     * The throttled broadcast of `session(_:didUpdate:)`: if more than 0.5 s
     * have passed since the last one, the previous preview anchor is removed from
     * the session and a new one, named `<kind>-Preview <timestamp>` and placed at
     * the current anchor, is added and recorded.
     */
    method PublishPreview(now: int, stamp: string)
      requires Valid() && placingFurniture && currentAnchor != null
      modifies this`currentARAnchor, this`lastAnchorUpdate, this`publishTimes, session`anchors, session`nextIdentifier
      ensures Valid()
      ensures now - old(lastAnchorUpdate) > PreviewInterval ==>
        && lastAnchorUpdate == now && publishTimes == old(publishTimes) + [now]
        && currentARAnchor == Some(ARAnchor(old(session.nextIdentifier), Some(PreviewAnchorName(currentFurnitureName, stamp)),
                                            Some(session.identifier), currentAnchor.transform, false))
        && session.anchors ==
             (if old(currentARAnchor).None? then old(session.anchors)
              else WithoutIdentifier(old(session.anchors), old(currentARAnchor).value.identifier)) + [currentARAnchor.value]
      ensures now - old(lastAnchorUpdate) <= PreviewInterval ==>
        && lastAnchorUpdate == old(lastAnchorUpdate) && publishTimes == old(publishTimes)
        && currentARAnchor == old(currentARAnchor) && session.anchors == old(session.anchors)
        && session.nextIdentifier == old(session.nextIdentifier)
    {
      var currentTime := now;
      if currentTime - lastAnchorUpdate > PreviewInterval {
        ThrottledStep(publishTimes, lastAnchorUpdate, currentTime);
        lastAnchorUpdate := currentTime;
        publishTimes := publishTimes + [currentTime];
        KindOfPreviewName(Bookshelf, stamp);
        var newARAnchor := session.NewAnchor(PreviewAnchorName(currentFurnitureName, stamp), currentAnchor.transform);
        ReplacePreviewAnchor(newARAnchor);
        currentARAnchor := Some(newARAnchor);
      }
    }

    /**
     * `if currentARAnchor != nil { session.remove(anchor:) }; session.add(anchor:)`,
     * shared by the preview broadcast and the confirmation.
     */
    method ReplacePreviewAnchor(a: ARAnchor)
      requires session.Valid() && OnlyPreviewIs(session.anchors, session.identifier, currentARAnchor)
      requires a.identifier < session.nextIdentifier
      requires forall i :: 0 <= i < |session.anchors| ==> session.anchors[i].identifier != a.identifier
      modifies session`anchors
      ensures session.Valid()
      ensures session.anchors ==
        (if currentARAnchor.None? then old(session.anchors)
         else WithoutIdentifier(old(session.anchors), currentARAnchor.value.identifier)) + [a]
      ensures OnlyPreviewIs(session.anchors, session.identifier, if IsLocalPreview(a, session.identifier) then Some(a) else None)
    {
      RemovingCurrentPreview(session.anchors, session.identifier, currentARAnchor);
      if currentARAnchor.Some? {
        session.Remove(currentARAnchor.value);
      }
      AddingAfterPreviewRemoved(session.anchors, session.identifier, a);
      session.Add(a);
    }

    /**
     * `confirmFurniturePosition()`: ends the placement, replaces the pending
     * preview anchor (if any) by exactly one anchor named `<kind> <timestamp>` at
     * the current anchor's transform, shows the full model instead of the
     * preview, and forgets the current anchors and kind.  The source
     * force-unwraps `currentAnchor`, hence the precondition.
     */
    method ConfirmFurniturePosition(stamp: string)
      requires Valid() && currentAnchor != null
      modifies this`placingFurniture, this`currentAnchor, this`currentARAnchor, this`currentFurnitureName,
        this`currentFurniture, this`currentFurniturePreview, session`anchors, session`nextIdentifier
      ensures Valid()
      ensures !placingFurniture && currentAnchor == null && currentARAnchor.None? && currentFurnitureName == ""
      ensures session.anchors ==
        (if old(currentARAnchor).None? then old(session.anchors)
         else WithoutIdentifier(old(session.anchors), old(currentARAnchor).value.identifier))
        + [ARAnchor(old(session.nextIdentifier), Some(ConfirmedAnchorName(old(currentFurnitureName), stamp)),
                    Some(session.identifier), old(currentAnchor.transform), false)]
      ensures forall i :: 0 <= i < |old(session.anchors)| ==> old(session.anchors)[i].identifier != old(session.nextIdentifier)
      ensures currentFurniture == Some(old(currentFurniture).value.(isEnabled := true))
      ensures currentFurniturePreview == Some(old(currentFurniturePreview).value.(isEnabled := false))
    {
      KindOfConfirmedName(Bookshelf, stamp);
      placingFurniture := false;
      var newARAnchor := session.NewAnchor(ConfirmedAnchorName(currentFurnitureName, stamp), currentAnchor.transform);
      ReplacePreviewAnchor(newARAnchor);
      if currentFurniturePreview.Some? {
        currentFurniturePreview := Some(currentFurniturePreview.value.(isEnabled := false));
      }
      if currentFurniture.Some? {
        currentFurniture := Some(currentFurniture.value.(isEnabled := true));
      }
      currentAnchor := null;
      currentARAnchor := None;
      currentFurnitureName := "";
    }

    /**
     * `setFurnitureRotation(angle:)`: sets the current anchor's rotation to
     * `AboutY(-angle)`, keeping its position; with no current anchor nothing happens.
     */
    method SetFurnitureRotation(angle: real)
      modifies currentAnchor
      ensures currentAnchor != null ==>
        currentAnchor.transform == old(currentAnchor.transform).(rotation := AboutY(-angle))
    {
      if currentAnchor != null {
        currentAnchor.transform := currentAnchor.transform.(rotation := AboutY(-angle));
      }
    }
  }
}
