/**
 * Stand-ins for the Apple framework objects the app drives: ARKit's session and
 * anchors, RealityKit's scene and anchor entities, and the multipeer session
 * wrapper.  Only the state the app reads or changes is kept; poses are opaque
 * values that are copied, never computed with.
 */
module Frameworks {
  import opened Wrappers
  import opened Utf8
  import opened Uuid
  import Seqs

  /** A transport peer (`MCPeerID`): an opaque id and the name it shows. */
  datatype PeerId = PeerId(id: nat, displayName: string)

  /** A RealityKit entity cloned from a loaded asset, as an opaque id. */
  type EntityId = nat

  datatype Vector3 = Vector3(x: real, y: real, z: real)

  /** An orientation: one read off a ray-cast hit (opaque), or one made by the app about the vertical axis. */
  datatype Rotation = Orientation(code: int) | AboutY(radians: real)

  /** RealityKit's `Transform`: scale, rotation and translation. */
  datatype Transform = Transform(scale: Vector3, rotation: Rotation, translation: Vector3)

  /** ARKit's camera tracking quality. */
  datatype TrackingState = Normal | NotAvailable | Limited(reason: nat)

  /** An `ARAnchor` (or an `ARParticipantAnchor`, when `isParticipant`). */
  datatype ARAnchor = ARAnchor(
    identifier: nat,
    name: Option<string>,
    sessionIdentifier: Option<Uuid>,
    transform: Transform,
    isParticipant: bool)

  datatype Priority = Critical | Optional

  /** `ARSession.CollaborationData`: opaque mapping data with a delivery priority. */
  datatype CollaborationData = CollaborationData(priority: Priority, payload: seq<byte>)

  /** The test "has another identifier than `id`". */
  function OtherIdentifier(id: nat): ARAnchor -> bool
  {
    (a: ARAnchor) => a.identifier != id
  }

  function WithoutIdentifier(anchors: seq<ARAnchor>, id: nat): (r: seq<ARAnchor>)
  {
    Seqs.Filter(anchors, OtherIdentifier(id))
  }

  predicate UniqueIdentifiers(anchors: seq<ARAnchor>)
  {
    forall i, j :: 0 <= i < j < |anchors| ==> anchors[i].identifier != anchors[j].identifier
  }

  /** The local `ARSession`: its identifier, its anchors and the collaboration data it was fed. */
  class ARSession {
    var identifier: Uuid
    var anchors: seq<ARAnchor>
    var hasCurrentFrame: bool
    var collaborationUpdates: seq<CollaborationData>
    /** Anchor identifiers stand for random UUIDs; a counter keeps them fresh. */
    var nextIdentifier: nat

    ghost predicate Valid()
      reads this
    {
      UniqueIdentifiers(anchors) && forall i :: 0 <= i < |anchors| ==> anchors[i].identifier < nextIdentifier
    }

    constructor (id: Uuid)
      ensures Valid()
      ensures identifier == id && anchors == [] && !hasCurrentFrame && collaborationUpdates == []
    {
      identifier, anchors, hasCurrentFrame, collaborationUpdates, nextIdentifier := id, [], false, [], 0;
    }

    /** A frame has been produced, so `currentFrame` is no longer nil. */
    method FrameProduced()
      modifies this`hasCurrentFrame
      ensures hasCurrentFrame
    {
      hasCurrentFrame := true;
    }

    /** `ARAnchor(name:transform:)` for an anchor this session is about to add. */
    method NewAnchor(name: string, transform: Transform) returns (a: ARAnchor)
      requires Valid()
      modifies this`nextIdentifier
      ensures Valid() && nextIdentifier > old(nextIdentifier)
      ensures a == ARAnchor(old(nextIdentifier), Some(name), Some(identifier), transform, false)
      ensures forall i :: 0 <= i < |anchors| ==> anchors[i].identifier != a.identifier
    {
      a := ARAnchor(nextIdentifier, Some(name), Some(identifier), transform, false);
      nextIdentifier := nextIdentifier + 1;
    }

    /** `add(anchor:)`, for an anchor made by NewAnchor and not yet added. */
    method Add(a: ARAnchor)
      requires Valid() && a.identifier < nextIdentifier
      requires forall i :: 0 <= i < |anchors| ==> anchors[i].identifier != a.identifier
      modifies this`anchors
      ensures Valid() && anchors == old(anchors) + [a]
    {
      anchors := anchors + [a];
    }

    /** `remove(anchor:)`: drops the anchor with that identifier, if there is one. */
    method Remove(a: ARAnchor)
      requires Valid()
      modifies this`anchors
      ensures Valid() && anchors == WithoutIdentifier(old(anchors), a.identifier)
    {
      var kept := WithoutIdentifier(anchors, a.identifier);
      forall i, j | 0 <= i < j < |kept| ensures kept[i].identifier != kept[j].identifier {
        FilterKeepsUnique(anchors, a.identifier, i, j);
      }
      anchors := kept;
    }

    /** `update(with:)`: the data goes to ARKit's map merging, which is not modelled. */
    method Update(data: CollaborationData)
      modifies this`collaborationUpdates
      ensures collaborationUpdates == old(collaborationUpdates) + [data]
    {
      collaborationUpdates := collaborationUpdates + [data];
    }
  }

  lemma {:induction false} FilterKeepsUnique(anchors: seq<ARAnchor>, id: nat, i: nat, j: nat)
    requires UniqueIdentifiers(anchors)
    requires i < j < |WithoutIdentifier(anchors, id)|
    ensures WithoutIdentifier(anchors, id)[i].identifier != WithoutIdentifier(anchors, id)[j].identifier
  {
    var r := WithoutIdentifier(anchors, id);
    if OtherIdentifier(id)(anchors[0]) {
      assert r == [anchors[0]] + WithoutIdentifier(anchors[1..], id);
      assert UniqueIdentifiers(anchors[1..]);
      if i == 0 {
        assert r[j] in anchors[1..];
      } else {
        FilterKeepsUnique(anchors[1..], id, i - 1, j - 1);
      }
    } else {
      assert r == WithoutIdentifier(anchors[1..], id);
      assert UniqueIdentifiers(anchors[1..]);
      FilterKeepsUnique(anchors[1..], id, i, j);
    }
  }

  /** What an anchor entity holds besides its transform. */
  datatype AnchorContent =
    | ParticipantMarker(colorSeed: Option<Uuid>)   // coordinate axes and a sphere coloured by the peer's session
    | RemoteFurniture(model: Option<string>)      // the furniture asset cloned for a peer's anchor, if its kind is known
    | PlacedFurniture(furniture: EntityId, preview: EntityId)  // the local placement's two clones

  /** A RealityKit `AnchorEntity`; only its transform changes after creation. */
  class AnchorEntity {
    const name: string
    const content: AnchorContent
    var transform: Transform

    constructor (name: string, content: AnchorContent, transform: Transform)
      ensures this.name == name && this.content == content && this.transform == transform
    {
      this.name, this.content, this.transform := name, content, transform;
    }
  }

  /** The test "is another entity than `e`". */
  function OtherEntity(e: AnchorEntity): AnchorEntity -> bool
  {
    (x: AnchorEntity) => x != e
  }

  function WithoutEntity(anchors: seq<AnchorEntity>, e: AnchorEntity): (r: seq<AnchorEntity>)
  {
    Seqs.Filter(anchors, OtherEntity(e))
  }

  /** The first entity in `anchors` with that name. */
  function FirstNamed(anchors: seq<AnchorEntity>, name: string): (r: Option<AnchorEntity>)
    ensures r.Some? <==> exists i :: 0 <= i < |anchors| && anchors[i].name == name
    ensures r.Some? ==> r.value in anchors && r.value.name == name
  {
    if anchors == [] then None
    else if anchors[0].name == name then Some(anchors[0])
    else
      var r := FirstNamed(anchors[1..], name);
      assert forall i :: 1 <= i < |anchors| ==> anchors[i] == anchors[1..][i - 1];
      r
  }

  /** The anchor entities of `arView.scene`. */
  class Scene {
    var anchors: seq<AnchorEntity>

    constructor ()
      ensures anchors == []
    {
      anchors := [];
    }

    /** `findEntity(named:)`, searching the scene's anchor entities in order. */
    function FindEntity(name: string): (r: Option<AnchorEntity>)
      reads this
    {
      FirstNamed(anchors, name)
    }

    method AddAnchor(e: AnchorEntity)
      modifies this
      ensures anchors == old(anchors) + [e]
    {
      anchors := anchors + [e];
    }

    method RemoveAnchor(e: AnchorEntity)
      modifies this
      ensures anchors == WithoutEntity(old(anchors), e)
    {
      anchors := WithoutEntity(anchors, e);
    }
  }

  /** One call of `sendToPeers` or `sendToAllPeers`. */
  datatype Outgoing = Outgoing(data: seq<byte>, reliably: bool, peers: seq<PeerId>)

  /** The app's `MultipeerSession` wrapper: the connected peers and what was sent to them. */
  class MultipeerSession {
    var connectedPeers: seq<PeerId>
    var sent: seq<Outgoing>

    constructor ()
      ensures connectedPeers == [] && sent == []
    {
      connectedPeers, sent := [], [];
    }

    method SendToPeers(data: seq<byte>, reliably: bool, peers: seq<PeerId>)
      modifies this`sent
      ensures sent == old(sent) + [Outgoing(data, reliably, peers)]
    {
      sent := sent + [Outgoing(data, reliably, peers)];
    }

    method SendToAllPeers(data: seq<byte>, reliably: bool)
      modifies this`sent
      ensures sent == old(sent) + [Outgoing(data, reliably, connectedPeers)]
    {
      sent := sent + [Outgoing(data, reliably, connectedPeers)];
    }
  }
}
