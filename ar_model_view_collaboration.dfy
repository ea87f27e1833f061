/**
 * The shared-session side of the placement screen.  Peers exchange ARKit
 * collaboration data and `SessionID:<uuid>` messages; every peer keeps the
 * session identifier each other peer announced, purges that session's anchors
 * when the peer announces again or leaves, and mirrors the anchors other
 * sessions add into its own scene, deciding the furniture model from the
 * anchor's name.
 */
module Collaboration {
  import opened Wrappers
  import opened Utf8
  import opened Uuid
  import opened Frameworks
  import opened AnchorNames
  import opened ModelView
  import Seqs

  const SessionIdCommandPrefix := "SessionID:"

  const InvitationLabel := "Tap the screen to place cubes.\nInvite others to launch this app to join you."
  const JointExperienceLabel := "Established joint experience with a peer."
  const DiscoveredLabel := "Someone wants to join"
  const FullLabel := "A fifth peer wants to join the experience.\nThis app is limited to four users."
  const PeerJoinedLabel := "A peer wants to join the experience.\nHold the phones next to each other."

  function PeerLeftLabel(peer: PeerId): string
  {
    "A peer " + peer.displayName + " has left the shared experience."
  }

  /** Peers, besides the local device, that an invitation may bring the session up to. */
  const MaxConnectedPeers := 4

  // ---------------------------------------------------------------------------
  // The session-identifier message
  // ---------------------------------------------------------------------------

  predicate StartsWith(s: string, prefix: string)
  {
    |prefix| <= |s| && s[..|prefix|] == prefix
  }

  /** The command text `sendARSessionIDTo` builds. */
  function SessionIdCommand(id: string): string
  {
    SessionIdCommandPrefix + id
  }

  /** The prefix test and suffix extraction of `receivedData`, on decoded text. */
  function ParseSessionIdCommand(s: string): (r: Option<string>)
    ensures r.Some? <==> StartsWith(s, SessionIdCommandPrefix)
    ensures r.Some? ==> s == SessionIdCommand(r.value)
  {
    if StartsWith(s, SessionIdCommandPrefix) then
      var id := s[|SessionIdCommandPrefix|..];
      assert s == s[..|SessionIdCommandPrefix|] + id;
      Some(id)
    else None
  }

  /** Parsing is the exact inverse of building. */
  lemma ParseSessionIdCommandInverse(s: string, id: string)
    ensures ParseSessionIdCommand(s) == Some(id) <==> s == SessionIdCommand(id)
  {
    if s == SessionIdCommand(id) {
      assert s[..|SessionIdCommandPrefix|] == SessionIdCommandPrefix;
      assert s[|SessionIdCommandPrefix|..] == id;
    }
  }

  /** The bytes sent for a session identifier: the command's UTF-8 encoding. */
  function SessionIdMessage(id: string): seq<byte>
  {
    Encode(SessionIdCommand(id))
  }

  /** What `receivedData` reads from bytes that did not unarchive as collaboration data. */
  function DecodeSessionIdMessage(data: seq<byte>): (r: Option<string>)
    ensures r.Some? ==> data == SessionIdMessage(r.value)
  {
    match Decode(data)
    case None => None
    case Some(s) =>
      var r := ParseSessionIdCommand(s);
      EncodeDecode(data);
      r
  }

  /** A receiver reads back exactly the identifier that was sent. */
  lemma SessionIdMessageRoundTrip(id: string)
    ensures DecodeSessionIdMessage(SessionIdMessage(id)) == Some(id)
  {
    DecodeEncode(SessionIdCommand(id));
    ParseSessionIdCommandInverse(SessionIdCommand(id), id);
  }

  /**
   * Exactly the bytes that are not UTF-8, or whose text lacks the command
   * prefix, are not taken for a session identifier; among them every message
   * that opens with the byte 0xFF.
   */
  lemma MalformedMessageIgnored(data: seq<byte>)
    ensures DecodeSessionIdMessage(data).None?
            <==> Decode(data).None? || !StartsWith(Decode(data).value, SessionIdCommandPrefix)
    ensures |data| > 0 && data[0] == 0xFF ==> DecodeSessionIdMessage(data).None?
  {
    if |data| > 0 && data[0] == 0xFF {
      assert data == [0xFF] + data[1..];
      InvalidByteRejected(data[1..]);
    }
  }

  // ---------------------------------------------------------------------------
  // Anchors of a session
  // ---------------------------------------------------------------------------

  /** The anchor came from the session whose `uuidString` is `id`. */
  predicate FromSession(a: ARAnchor, id: string)
  {
    a.sessionIdentifier.Some? && UuidString(a.sessionIdentifier.value) == id
  }

  function NotFromSession(id: string): ARAnchor -> bool
  {
    (a: ARAnchor) => !FromSession(a, id)
  }

  /** The anchors left once those of session `id` are removed, in their order. */
  function AnchorsNotFrom(anchors: seq<ARAnchor>, id: string): (r: seq<ARAnchor>)
    ensures forall i :: 0 <= i < |r| ==> r[i] in anchors && !FromSession(r[i], id)
    ensures forall i :: 0 <= i < |anchors| && !FromSession(anchors[i], id) ==> anchors[i] in r
  {
    Seqs.Filter(anchors, NotFromSession(id))
  }

  /**
   * For an identifier a peer announced from its session `u`, the purge keeps
   * an anchor exactly when it did not come from `u`: different sessions have
   * different `uuidString`s.
   */
  lemma AnchorsNotFromUuid(anchors: seq<ARAnchor>, u: Uuid)
    ensures forall i :: 0 <= i < |anchors| ==>
      (anchors[i] in AnchorsNotFrom(anchors, UuidString(u)) <==> anchors[i].sessionIdentifier != Some(u))
  {
    var r := AnchorsNotFrom(anchors, UuidString(u));
    forall i | 0 <= i < |anchors|
      ensures anchors[i] in r <==> anchors[i].sessionIdentifier != Some(u)
    {
      var a := anchors[i];
      if a.sessionIdentifier.Some? {
        UuidStringInjective(a.sessionIdentifier.value, u);
      }
      if a in r {
        var j :| 0 <= j < |r| && r[j] == a;
        assert !FromSession(r[j], UuidString(u));
      }
    }
  }

  /** What `removeAllAnchorsOriginatingFromARSessionWithID` leaves: nothing changes before the first frame. */
  function Purged(anchors: seq<ARAnchor>, hasCurrentFrame: bool, id: string): seq<ARAnchor>
  {
    if hasCurrentFrame then AnchorsNotFrom(anchors, id) else anchors
  }

  /** Extending the purged prefix by one anchor. */
  lemma AnchorsNotFromSnoc(s: seq<ARAnchor>, a: ARAnchor, id: string)
    ensures AnchorsNotFrom(s + [a], id) == AnchorsNotFrom(s, id) + (if FromSession(a, id) then [] else [a])
  {
    Seqs.FilterAppend(s, [a], NotFromSession(id));
    assert Seqs.Filter([a], NotFromSession(id)) == (if FromSession(a, id) then [] else [a]);
  }

  /** Removing by identifier the one anchor that carries it. */
  lemma WithoutIdentifierOfOnly(x: seq<ARAnchor>, a: ARAnchor, y: seq<ARAnchor>)
    requires forall k :: 0 <= k < |x| ==> x[k].identifier != a.identifier
    requires forall k :: 0 <= k < |y| ==> y[k].identifier != a.identifier
    ensures WithoutIdentifier(x + ([a] + y), a.identifier) == x + y
  {
    var other := OtherIdentifier(a.identifier);
    Seqs.FilterAppend(x, [a] + y, other);
    Seqs.FilterAllKept(x, other);
    Seqs.FilterAllKept(y, other);
    assert ([a] + y)[1..] == y;
  }

  /** With unique identifiers, no anchor kept from before position `i` carries the identifier of `snapshot[i]`. */
  lemma KeptPrefixIdentifiers(snapshot: seq<ARAnchor>, i: nat, id: string)
    requires i < |snapshot| && UniqueIdentifiers(snapshot)
    ensures forall k :: 0 <= k < |AnchorsNotFrom(snapshot[..i], id)| ==>
      AnchorsNotFrom(snapshot[..i], id)[k].identifier != snapshot[i].identifier
  {
    var x := AnchorsNotFrom(snapshot[..i], id);
    forall k | 0 <= k < |x| ensures x[k].identifier != snapshot[i].identifier
    {
      var j :| 0 <= j < i && snapshot[..i][j] == x[k];
      assert snapshot[j] == x[k];
    }
  }

  /** One step of the purge loop on an anchor of session `id`: it is removed by its identifier. */
  lemma PurgeStepRemoves(snapshot: seq<ARAnchor>, i: nat, id: string)
    requires i < |snapshot| && UniqueIdentifiers(snapshot) && FromSession(snapshot[i], id)
    ensures WithoutIdentifier(AnchorsNotFrom(snapshot[..i], id) + snapshot[i..], snapshot[i].identifier)
            == AnchorsNotFrom(snapshot[..i + 1], id) + snapshot[i + 1..]
  {
    var a := snapshot[i];
    var x := AnchorsNotFrom(snapshot[..i], id);
    var y := snapshot[i + 1..];
    assert snapshot[i..] == [a] + y;
    assert snapshot[..i + 1] == snapshot[..i] + [a];
    AnchorsNotFromSnoc(snapshot[..i], a, id);
    KeptPrefixIdentifiers(snapshot, i, id);
    assert forall k :: 0 <= k < |y| ==> y[k] == snapshot[i + 1 + k];
    WithoutIdentifierOfOnly(x, a, y);
    assert x + [] == x;
  }

  /** One step of the purge loop on any other anchor: it stays. */
  lemma PurgeStepKeeps(snapshot: seq<ARAnchor>, i: nat, id: string)
    requires i < |snapshot| && !FromSession(snapshot[i], id)
    ensures AnchorsNotFrom(snapshot[..i], id) + snapshot[i..] == AnchorsNotFrom(snapshot[..i + 1], id) + snapshot[i + 1..]
  {
    var a := snapshot[i];
    assert snapshot[i..] == [a] + snapshot[i + 1..];
    assert snapshot[..i + 1] == snapshot[..i] + [a];
    AnchorsNotFromSnoc(snapshot[..i], a, id);
  }

  /**
   * `removeAllAnchorsOriginatingFromARSessionWithID`: without a current frame
   * nothing happens; otherwise every anchor of the frame whose session's
   * `uuidString` is `identifier` is removed from the session, one at a time.
   */
  method RemoveAllAnchorsOriginatingFromSession(vm: ARViewModel, identifier: string)
    requires vm.Valid()
    modifies vm.session`anchors
    ensures vm.Valid()
    ensures vm.session.anchors == Purged(old(vm.session.anchors), vm.session.hasCurrentFrame, identifier)
  {
    if !vm.session.hasCurrentFrame {
      return;
    }
    var snapshot := vm.session.anchors;
    var i := 0;
    while i < |snapshot|
      invariant 0 <= i <= |snapshot|
      invariant vm.session.Valid()
      invariant vm.session.anchors == AnchorsNotFrom(snapshot[..i], identifier) + snapshot[i..]
    {
      var anchor := snapshot[i];
      if anchor.sessionIdentifier.Some? && UuidString(anchor.sessionIdentifier.value) == identifier {
        PurgeStepRemoves(snapshot, i, identifier);
        vm.session.Remove(anchor);
      } else {
        PurgeStepKeeps(snapshot, i, identifier);
      }
      i := i + 1;
    }
    assert snapshot[..i] == snapshot;
    OnlyPreviewIsKept(snapshot, vm.session.anchors, vm.session.identifier, vm.currentARAnchor);
  }

  // ---------------------------------------------------------------------------
  // Messages and peers
  // ---------------------------------------------------------------------------

  /** `initCollaborationSession`: starts the multipeer session and shows the invitation. */
  method InitCollaborationSession(vm: ARViewModel)
    requires vm.Valid()
    modifies vm`multipeerSession, vm`collaborationInfoLabel
    ensures vm.Valid()
    ensures vm.multipeerSession != null && fresh(vm.multipeerSession)
    ensures vm.multipeerSession.connectedPeers == [] && vm.multipeerSession.sent == []
    ensures vm.collaborationInfoLabel == InvitationLabel
  {
    vm.multipeerSession := new MultipeerSession();
    vm.collaborationInfoLabel := InvitationLabel;
  }

  /** `sendARSessionIDTo(peers:)`: the local session's identifier, sent reliably. */
  method SendSessionIdTo(vm: ARViewModel, peers: seq<PeerId>)
    modifies vm.multipeerSession
    ensures vm.multipeerSession != null ==>
      && vm.multipeerSession.connectedPeers == old(vm.multipeerSession.connectedPeers)
      && vm.multipeerSession.sent
         == old(vm.multipeerSession.sent) + [Outgoing(SessionIdMessage(UuidString(vm.session.identifier)), true, peers)]
  {
    var m := vm.multipeerSession;
    if m == null {
      return;
    }
    var command := SessionIdCommandPrefix + UuidString(vm.session.identifier);
    m.SendToPeers(Encode(command), true, peers);
  }

  /** The observer of `session.identifier`: announces the new identifier to every connected peer. */
  method SessionIdentifierChanged(vm: ARViewModel)
    modifies vm.multipeerSession
    ensures vm.multipeerSession != null ==>
      && vm.multipeerSession.connectedPeers == old(vm.multipeerSession.connectedPeers)
      && vm.multipeerSession.sent
         == old(vm.multipeerSession.sent)
            + [Outgoing(SessionIdMessage(UuidString(vm.session.identifier)), true, vm.multipeerSession.connectedPeers)]
  {
    var m := vm.multipeerSession;
    if m == null {
      return;
    }
    SendSessionIdTo(vm, m.connectedPeers);
  }

  /**
   * `receivedData(_:from:)`.  Data that unarchives as collaboration data goes to
   * the session.  Otherwise a `SessionID:` message records the peer's new session
   * identifier, first purging the anchors of the one it had announced before;
   * anything else is ignored.
   */
  method ReceivedData(vm: ARViewModel, data: seq<byte>, peer: PeerId, unarchived: Option<CollaborationData>)
    requires vm.Valid()
    modifies vm`peerSessionIDs, vm.session`anchors, vm.session`collaborationUpdates
    ensures vm.Valid()
    ensures unarchived.Some? ==>
      && vm.session.collaborationUpdates == old(vm.session.collaborationUpdates) + [unarchived.value]
      && vm.peerSessionIDs == old(vm.peerSessionIDs) && vm.session.anchors == old(vm.session.anchors)
    ensures unarchived.None? ==> vm.session.collaborationUpdates == old(vm.session.collaborationUpdates)
    ensures unarchived.None? && DecodeSessionIdMessage(data).None? ==>
      vm.peerSessionIDs == old(vm.peerSessionIDs) && vm.session.anchors == old(vm.session.anchors)
    ensures unarchived.None? && DecodeSessionIdMessage(data).Some? ==>
      && vm.peerSessionIDs == old(vm.peerSessionIDs)[peer := DecodeSessionIdMessage(data).value]
      && vm.session.anchors
         == if peer in old(vm.peerSessionIDs)
            then Purged(old(vm.session.anchors), vm.session.hasCurrentFrame, old(vm.peerSessionIDs)[peer])
            else old(vm.session.anchors)
  {
    if unarchived.Some? {
      vm.session.Update(unarchived.value);
      return;
    }
    var text := Decode(data);
    if text.Some? && StartsWith(text.value, SessionIdCommandPrefix) {
      var newId := text.value[|SessionIdCommandPrefix|..];
      assert ParseSessionIdCommand(text.value) == Some(newId);
      if peer in vm.peerSessionIDs {
        RemoveAllAnchorsOriginatingFromSession(vm, vm.peerSessionIDs[peer]);
      }
      vm.peerSessionIDs := vm.peerSessionIDs[peer := newId];
    }
  }

  /** Whether `peerDiscovered` accepts a peer while `connected` peers are connected. */
  predicate AcceptsPeer(connected: nat)
    ensures AcceptsPeer(connected) <==> !(connected > 3)
  {
    connected < MaxConnectedPeers
  }

  /** `peerDiscovered(_:)`: accepts the peer unless the session is full; there is no session, nothing is accepted. */
  method PeerDiscovered(vm: ARViewModel, peer: PeerId) returns (accept: bool)
    requires vm.Valid()
    modifies vm`collaborationInfoLabel
    ensures vm.Valid()
    ensures accept <==> vm.multipeerSession != null && AcceptsPeer(|vm.multipeerSession.connectedPeers|)
    ensures vm.multipeerSession == null ==> vm.collaborationInfoLabel == old(vm.collaborationInfoLabel)
    ensures vm.multipeerSession != null ==> vm.collaborationInfoLabel == if accept then DiscoveredLabel else FullLabel
  {
    var m := vm.multipeerSession;
    if m == null {
      return false;
    }
    vm.collaborationInfoLabel := DiscoveredLabel;
    if |m.connectedPeers| > 3 {
      vm.collaborationInfoLabel := FullLabel;
      accept := false;
    } else {
      accept := true;
    }
  }

  /** What can change the number of connected peers. */
  datatype PeerEvent =
    | Invited   // a discovered peer is offered to `peerDiscovered` and connects if accepted
    | Left      // a connected peer leaves

  function ConnectedAfter(connected: nat, events: seq<PeerEvent>): nat
    decreases |events|
  {
    if events == [] then connected
    else
      var next := match events[0]
        case Invited => if AcceptsPeer(connected) then connected + 1 else connected
        case Left => if connected > 0 then connected - 1 else 0;
      ConnectedAfter(next, events[1..])
  }

  /** However peers come and go, no more than four other peers are ever connected. */
  lemma {:induction false} PeerCap(connected: nat, events: seq<PeerEvent>)
    requires connected <= MaxConnectedPeers
    ensures ConnectedAfter(connected, events) <= MaxConnectedPeers
    decreases |events|
  {
    if events != [] {
      var next := match events[0]
        case Invited => if AcceptsPeer(connected) then connected + 1 else connected
        case Left => if connected > 0 then connected - 1 else 0;
      PeerCap(next, events[1..]);
    }
  }

  /** `peerJoined(_:)`: asks the users to hold the phones together and sends the new peer the session identifier. */
  method PeerJoined(vm: ARViewModel, peer: PeerId)
    requires vm.Valid()
    modifies vm`collaborationInfoLabel, vm.multipeerSession
    ensures vm.Valid()
    ensures vm.collaborationInfoLabel == PeerJoinedLabel
    ensures vm.multipeerSession != null ==>
      && vm.multipeerSession.connectedPeers == old(vm.multipeerSession.connectedPeers)
      && vm.multipeerSession.sent
         == old(vm.multipeerSession.sent) + [Outgoing(SessionIdMessage(UuidString(vm.session.identifier)), true, [peer])]
  {
    vm.collaborationInfoLabel := PeerJoinedLabel;
    SendSessionIdTo(vm, [peer]);
  }

  /** `peerLeft(_:)`: reports the departure and, if the peer had announced a session, purges its anchors and forgets it. */
  method PeerLeft(vm: ARViewModel, peer: PeerId)
    requires vm.Valid()
    modifies vm`collaborationInfoLabel, vm`peerSessionIDs, vm.session`anchors
    ensures vm.Valid()
    ensures vm.collaborationInfoLabel == PeerLeftLabel(peer)
    ensures peer !in vm.peerSessionIDs
    ensures peer in old(vm.peerSessionIDs) ==>
      && vm.peerSessionIDs == old(vm.peerSessionIDs) - {peer}
      && vm.session.anchors == Purged(old(vm.session.anchors), vm.session.hasCurrentFrame, old(vm.peerSessionIDs)[peer])
    ensures peer !in old(vm.peerSessionIDs) ==>
      vm.peerSessionIDs == old(vm.peerSessionIDs) && vm.session.anchors == old(vm.session.anchors)
  {
    vm.collaborationInfoLabel := PeerLeftLabel(peer);
    if peer in vm.peerSessionIDs {
      RemoveAllAnchorsOriginatingFromSession(vm, vm.peerSessionIDs[peer]);
      vm.peerSessionIDs := vm.peerSessionIDs - {peer};
    }
  }

  /**
   * `session(_:didOutputCollaborationData:)`: with connected peers the archived
   * data goes to all of them, reliably exactly when it is critical; without
   * peers it is dropped.  `encoded` is the archive of `data`.
   */
  method SessionDidOutputCollaborationData(vm: ARViewModel, data: CollaborationData, encoded: seq<byte>)
    modifies vm.multipeerSession
    ensures vm.multipeerSession != null ==>
      && vm.multipeerSession.connectedPeers == old(vm.multipeerSession.connectedPeers)
      && vm.multipeerSession.sent
         == old(vm.multipeerSession.sent)
            + if vm.multipeerSession.connectedPeers == [] then []
              else [Outgoing(encoded, data.priority == Critical, vm.multipeerSession.connectedPeers)]
  {
    var m := vm.multipeerSession;
    if m == null {
      return;
    }
    if m.connectedPeers != [] {
      var dataIsCritical := data.priority == Critical;
      m.SendToAllPeers(encoded, dataIsCritical);
    }
  }

  // ---------------------------------------------------------------------------
  // Mirroring anchors into the scene
  // ---------------------------------------------------------------------------

  /** The name, content and transform of an anchor entity. */
  datatype EntityShape = EntityShape(name: string, content: AnchorContent, transform: Transform)

  function ShapeOf(e: AnchorEntity): EntityShape
    reads e
  {
    EntityShape(e.name, e.content, e.transform)
  }

  /** The furniture asset cloned for an anchor whose name starts with `kind`. */
  function ModelForKind(kind: string): (r: Option<string>)
    ensures r.Some? <==> kind == Bookshelf || kind == BookshelfPreview
    ensures r.Some? ==> r.value == kind
  {
    if kind == Bookshelf then Some(Bookshelf)
    else if kind == BookshelfPreview then Some(BookshelfPreview)
    else None
  }

  /**
   * The entity `session(_:didAdd:)` adds for one anchor of the local session
   * `local`: a marker for a participant, the named furniture for an anchor of
   * another session, and nothing for a local or unnamed anchor.
   */
  function EntityFor(a: ARAnchor, local: Uuid): (r: Option<EntityShape>)
    ensures r.Some? <==> a.isParticipant || (a.sessionIdentifier != Some(local) && a.name.Some?)
    ensures r.Some? ==> r.value.transform == a.transform
    ensures a.isParticipant ==> r.value.content == ParticipantMarker(a.sessionIdentifier)
    ensures r.Some? && !a.isParticipant ==>
      r.value.name == a.name.value && r.value.content.RemoteFurniture?
    ensures r.Some? && !a.isParticipant ==>
      (r.value.content.model.Some? <==>
        FirstComponent(a.name.value) == Bookshelf || FirstComponent(a.name.value) == BookshelfPreview)
    ensures r.Some? && !a.isParticipant && r.value.content.model.Some? ==>
      r.value.content.model.value == FirstComponent(a.name.value)
  {
    if a.isParticipant then
      Some(EntityShape("", ParticipantMarker(a.sessionIdentifier), a.transform))
    else if a.sessionIdentifier == Some(local) || a.name.None? then
      None
    else
      Some(EntityShape(a.name.value, RemoteFurniture(ModelForKind(FirstComponent(a.name.value))), a.transform))
  }

  function OptionToSeq<T>(o: Option<T>): seq<T>
  {
    if o.Some? then [o.value] else []
  }

  /** The entities added for `anchors`, in order. */
  function EntitiesFor(anchors: seq<ARAnchor>, local: Uuid): (r: seq<EntityShape>)
    ensures |r| <= |anchors|
  {
    if anchors == [] then []
    else EntitiesFor(anchors[..|anchors| - 1], local) + OptionToSeq(EntityFor(anchors[|anchors| - 1], local))
  }

  /**
   * A confirmed bookshelf the local session publishes is not mirrored by its own
   * session, and every other session shows it with the full bookshelf model.
   */
  lemma ConfirmedBookshelfMirrored(a: ARAnchor, sender: Uuid, receiver: Uuid, stamp: string)
    requires !a.isParticipant && a.sessionIdentifier == Some(sender)
    requires a.name == Some(ConfirmedAnchorName(Bookshelf, stamp))
    ensures EntityFor(a, sender).None?
    ensures sender != receiver ==>
      EntityFor(a, receiver) == Some(EntityShape(a.name.value, RemoteFurniture(Some(Bookshelf)), a.transform))
  {
    KindOfConfirmedName(Bookshelf, stamp);
  }

  /**
   * A bookshelf preview the local session publishes is not mirrored by its own
   * session, and every other session shows it with the preview model.
   */
  lemma PreviewBookshelfMirrored(a: ARAnchor, sender: Uuid, receiver: Uuid, stamp: string)
    requires !a.isParticipant && a.sessionIdentifier == Some(sender)
    requires a.name == Some(PreviewAnchorName(Bookshelf, stamp))
    ensures EntityFor(a, sender).None?
    ensures sender != receiver ==>
      EntityFor(a, receiver) == Some(EntityShape(a.name.value, RemoteFurniture(Some(BookshelfPreview)), a.transform))
  {
    KindOfPreviewName(Bookshelf, stamp);
  }

  /**
   * `session(_:didAdd:)`: appends a fresh anchor entity for each anchor that
   * `EntityFor` maps to one, and reports the joint experience once a
   * participant anchor arrives.
   */
  method SessionDidAdd(vm: ARViewModel, anchors: seq<ARAnchor>)
    requires vm.Valid()
    modifies vm`collaborationInfoLabel, vm.scene
    ensures vm.Valid()
    ensures |vm.scene.anchors| == |old(vm.scene.anchors)| + |EntitiesFor(anchors, vm.session.identifier)|
    ensures vm.scene.anchors[..|old(vm.scene.anchors)|] == old(vm.scene.anchors)
    ensures forall i :: |old(vm.scene.anchors)| <= i < |vm.scene.anchors| ==>
      fresh(vm.scene.anchors[i])
      && ShapeOf(vm.scene.anchors[i]) == EntitiesFor(anchors, vm.session.identifier)[i - |old(vm.scene.anchors)|]
    ensures (exists i :: 0 <= i < |anchors| && anchors[i].isParticipant) ==>
      vm.collaborationInfoLabel == JointExperienceLabel
    ensures (forall i :: 0 <= i < |anchors| ==> !anchors[i].isParticipant) ==>
      vm.collaborationInfoLabel == old(vm.collaborationInfoLabel)
  {
    var local := vm.session.identifier;
    var start := |vm.scene.anchors|;
    var i := 0;
    while i < |anchors|
      invariant 0 <= i <= |anchors|
      invariant |vm.scene.anchors| == start + |EntitiesFor(anchors[..i], local)|
      invariant vm.scene.anchors[..start] == old(vm.scene.anchors)
      invariant forall j :: start <= j < |vm.scene.anchors| ==>
        fresh(vm.scene.anchors[j]) && ShapeOf(vm.scene.anchors[j]) == EntitiesFor(anchors[..i], local)[j - start]
      invariant (exists j :: 0 <= j < i && anchors[j].isParticipant) ==>
        vm.collaborationInfoLabel == JointExperienceLabel
      invariant (forall j :: 0 <= j < i ==> !anchors[j].isParticipant) ==>
        vm.collaborationInfoLabel == old(vm.collaborationInfoLabel)
    {
      var anchor := anchors[i];
      assert anchors[..i + 1][..i] == anchors[..i];
      var shape := EntityFor(anchor, local);
      if anchor.isParticipant {
        vm.collaborationInfoLabel := JointExperienceLabel;
      }
      if shape.Some? {
        var e := new AnchorEntity(shape.value.name, shape.value.content, shape.value.transform);
        vm.scene.AddAnchor(e);
      }
      i := i + 1;
    }
    assert anchors[..i] == anchors;
  }

  /** The scene without the first anchor entity called `name`, if there is one. */
  function RemoveNamed(entities: seq<AnchorEntity>, name: string): (r: seq<AnchorEntity>)
    ensures forall i :: 0 <= i < |r| ==> r[i] in entities
    ensures forall i :: 0 <= i < |entities| && entities[i].name != name ==> entities[i] in r
    ensures (exists i :: 0 <= i < |entities| && entities[i].name == name) <==> |r| < |entities|
  {
    match FirstNamed(entities, name)
    case None => entities
    case Some(e) => WithoutEntity(entities, e)
  }

  /** What `session(_:didRemove:)` does for one removed anchor; local and unnamed anchors are skipped. */
  function RemovalFor(entities: seq<AnchorEntity>, a: ARAnchor, local: Uuid): (r: seq<AnchorEntity>)
    ensures forall i :: 0 <= i < |r| ==> r[i] in entities
    ensures a.sessionIdentifier == Some(local) || a.name.None? ==> r == entities
    ensures a.sessionIdentifier != Some(local) && a.name.Some? ==>
      ((exists i :: 0 <= i < |entities| && entities[i].name == a.name.value) <==> |r| < |entities|)
  {
    if a.sessionIdentifier != Some(local) && a.name.Some? then RemoveNamed(entities, a.name.value) else entities
  }

  /** The scene after `session(_:didRemove:)` has handled `anchors` in order. */
  function AfterRemovals(entities: seq<AnchorEntity>, anchors: seq<ARAnchor>, local: Uuid): (r: seq<AnchorEntity>)
    ensures |r| <= |entities|
    ensures forall i :: 0 <= i < |r| ==> r[i] in entities
    ensures (forall i :: 0 <= i < |anchors| ==> anchors[i].sessionIdentifier == Some(local)) ==> r == entities
    decreases |anchors|
  {
    if anchors == [] then entities
    else AfterRemovals(RemovalFor(entities, anchors[0], local), anchors[1..], local)
  }

  /** No two anchor entities share `name`. */
  predicate AtMostOneNamed(entities: seq<AnchorEntity>, name: string)
  {
    forall i, j :: 0 <= i < j < |entities| && entities[i].name == name ==> entities[j].name != name
  }

  /** When names are unique, removal by name drops exactly the entity with that name. */
  lemma RemoveNamedExactly(entities: seq<AnchorEntity>, name: string)
    requires AtMostOneNamed(entities, name)
    ensures forall i :: 0 <= i < |RemoveNamed(entities, name)| ==> RemoveNamed(entities, name)[i].name != name
    ensures forall i :: 0 <= i < |entities| && entities[i].name != name ==> entities[i] in RemoveNamed(entities, name)
  {
    var f := FirstNamed(entities, name);
    if f.Some? {
      var e := f.value;
      var r := WithoutEntity(entities, e);
      var k :| 0 <= k < |entities| && entities[k] == e;
      forall i | 0 <= i < |r| ensures r[i].name != name
      {
        var j :| 0 <= j < |entities| && entities[j] == r[i];
        assert OtherEntity(e)(r[i]);
        assert j != k && entities[k].name == name;
        assert entities[j].name == r[i].name;
      }
      forall i | 0 <= i < |entities| && entities[i].name != name ensures entities[i] in r
      {
        assert OtherEntity(e)(entities[i]);
      }
    }
  }

  /** Removing the same name twice is removing it once. */
  lemma RemoveNamedIdempotent(entities: seq<AnchorEntity>, name: string)
    requires AtMostOneNamed(entities, name)
    ensures RemoveNamed(RemoveNamed(entities, name), name) == RemoveNamed(entities, name)
  {
    RemoveNamedExactly(entities, name);
  }

  /** A removed anchor of the local session leaves the scene alone. */
  lemma LocalRemovalIgnored(entities: seq<AnchorEntity>, a: ARAnchor, local: Uuid)
    requires a.sessionIdentifier == Some(local)
    ensures RemovalFor(entities, a, local) == entities
  {
  }

  /**
   * `session(_:didRemove:)`: for each removed anchor of another session that
   * has a name, the first anchor entity of that name leaves the scene.
   */
  method SessionDidRemove(vm: ARViewModel, anchors: seq<ARAnchor>)
    modifies vm.scene
    ensures vm.scene.anchors == AfterRemovals(old(vm.scene.anchors), anchors, vm.session.identifier)
  {
    var local := vm.session.identifier;
    var i := 0;
    while i < |anchors|
      invariant 0 <= i <= |anchors|
      invariant AfterRemovals(vm.scene.anchors, anchors[i..], local)
                == AfterRemovals(old(vm.scene.anchors), anchors, local)
    {
      var anchor := anchors[i];
      assert anchors[i..][1..] == anchors[i + 1..];
      if anchor.sessionIdentifier != Some(local) && anchor.name.Some? {
        var found := vm.scene.FindEntity(anchor.name.value);
        if found.Some? {
          vm.scene.RemoveAnchor(found.value);
        }
      }
      i := i + 1;
    }
  }
}
