/**
 * The anchor-name wire format `<Kind>[-Preview] <timestamp>`: built by the
 * placement code, split again by a receiving peer, which takes everything
 * before the first space as the furniture kind.
 */
module AnchorNames {

  const Bookshelf := "Bookshelf"
  const BookshelfPreview := "Bookshelf-Preview"
  const PreviewSuffix := "-Preview"

  /** `name.components(separatedBy: " ").first`: the text before the first space, or all of it. */
  function FirstComponent(name: string): (k: string)
    ensures |k| <= |name| && k == name[..|k|]
    ensures ' ' !in k
    ensures |k| < |name| ==> name[|k|] == ' '
  {
    if name == [] || name[0] == ' ' then []
    else [name[0]] + FirstComponent(name[1..])
  }

  /** The name of a preview anchor: the kind, `-Preview`, a space and the timestamp text. */
  function PreviewAnchorName(kind: string, stamp: string): string
  {
    kind + PreviewSuffix + " " + stamp
  }

  /** The name of a confirmed anchor: the kind, a space and the timestamp text. */
  function ConfirmedAnchorName(kind: string, stamp: string): string
  {
    kind + " " + stamp
  }

  predicate IsPreviewName(name: string)
  {
    var k := FirstComponent(name);
    |k| >= |PreviewSuffix| && k[|k| - |PreviewSuffix|..] == PreviewSuffix
  }

  /** Splitting `kind + " " + rest` gives back `kind` whenever `kind` has no space. */
  lemma {:induction false} FirstComponentOfJoined(kind: string, rest: string)
    requires ' ' !in kind
    ensures FirstComponent(kind + " " + rest) == kind
  {
    if kind == [] {
      assert (kind + " " + rest)[0] == ' ';
    } else {
      assert (kind + " " + rest)[1..] == kind[1..] + " " + rest;
      FirstComponentOfJoined(kind[1..], rest);
      assert kind == [kind[0]] + kind[1..];
    }
  }

  /** A receiver recovers the kind of a confirmed anchor from its name. */
  lemma KindOfConfirmedName(kind: string, stamp: string)
    requires ' ' !in kind
    ensures FirstComponent(ConfirmedAnchorName(kind, stamp)) == kind
    ensures kind == Bookshelf ==> !IsPreviewName(ConfirmedAnchorName(kind, stamp))
  {
    FirstComponentOfJoined(kind, stamp);
  }

  /** A receiver reads the kind of a preview anchor as the kind followed by `-Preview`. */
  lemma KindOfPreviewName(kind: string, stamp: string)
    requires ' ' !in kind
    ensures FirstComponent(PreviewAnchorName(kind, stamp)) == kind + PreviewSuffix
    ensures IsPreviewName(PreviewAnchorName(kind, stamp))
  {
    assert PreviewAnchorName(kind, stamp) == (kind + PreviewSuffix) + " " + stamp;
    FirstComponentOfJoined(kind + PreviewSuffix, stamp);
    var k := kind + PreviewSuffix;
    assert k[|k| - |PreviewSuffix|..] == PreviewSuffix;
  }
}
