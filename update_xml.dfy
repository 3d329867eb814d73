/**
 * The appcast patcher `add_release_notes_link`: every `item` directly under the first
 * `channel` of a Sparkle appcast that has no `sparkle:releaseNotesLink` anywhere beneath
 * it gets one, inserted right after its first `pubDate`, else after its first `title`,
 * else at the front; the file is rewritten only when something was inserted.
 *
 * Elements are values: the tree that would be written is returned instead of being
 * updated in place and serialised.
 */
module Appcast {
  import opened Wrappers

  /** An ElementTree element: tag in Clark notation (`{namespace}local`), text, children. */
  datatype Element = Element(tag: string, text: Option<string>, children: seq<Element>)

  const SparkleNamespace: string := "http://www.andymatuschak.org/xml-namespaces/sparkle"
  const LinkTag: string := "{" + SparkleNamespace + "}releaseNotesLink"

  const UpdatedPrefix: string := "Updated "
  const UpdatedSuffix: string := " with release notes links"
  const NothingToDo: string := "All items already have release notes links. No changes made."

  /** `e.find('.//sparkle:releaseNotesLink', namespaces) is not None`: some element strictly
      below `e` is a release-notes link. */
  predicate HasLinkBelow(e: Element): (b: bool)
    decreases e
    ensures e.children == [] ==> !b
    ensures forall i :: 0 <= i < |e.children| && e.children[i].tag == LinkTag ==> b
  {
    exists i :: 0 <= i < |e.children| && (e.children[i].tag == LinkTag || HasLinkBelow(e.children[i]))
  }

  /** `find(tag)` on direct children, as a position: the first child with that tag. */
  function FirstIndexOfTag(cs: seq<Element>, tag: string): (r: Option<nat>)
    ensures r.None? <==> forall j :: 0 <= j < |cs| ==> cs[j].tag != tag
    ensures r.Some? ==> r.value < |cs| && cs[r.value].tag == tag
    ensures r.Some? ==> forall j :: 0 <= j < r.value ==> cs[j].tag != tag
  {
    if cs == [] then None
    else if cs[0].tag == tag then Some(0)
    else
      match FirstIndexOfTag(cs[1..], tag)
      case None => None
      case Some(k) => Some(k + 1)
  }

  /** Where the link goes among an item's children: right after the first `pubDate`, else
      right after the first `title`, else at index 0. */
  function InsertionIndex(cs: seq<Element>): (k: nat)
    ensures k <= |cs|
    ensures (exists j :: 0 <= j < |cs| && cs[j].tag == "pubDate") ==>
      0 < k && cs[k - 1].tag == "pubDate" && forall j :: 0 <= j < k - 1 ==> cs[j].tag != "pubDate"
    ensures (forall j :: 0 <= j < |cs| ==> cs[j].tag != "pubDate") && (exists j :: 0 <= j < |cs| && cs[j].tag == "title") ==>
      0 < k && cs[k - 1].tag == "title" && forall j :: 0 <= j < k - 1 ==> cs[j].tag != "title"
    ensures (forall j :: 0 <= j < |cs| ==> cs[j].tag != "pubDate" && cs[j].tag != "title") ==> k == 0
  {
    match FirstIndexOfTag(cs, "pubDate")
    case Some(p) => p + 1
    case None =>
      match FirstIndexOfTag(cs, "title")
      case Some(t) => t + 1
      case None => 0
  }

  /** `ET.Element('{…}releaseNotesLink')` with `notes_path` as its text. */
  function LinkElement(notesPath: string): (e: Element)
    ensures e.tag == LinkTag && e.text == Some(notesPath) && e.children == []
  {
    Element(LinkTag, Some(notesPath), [])
  }

  /** `item.insert(index, release_notes_link)`: the item with a link added at the
      insertion index, all other children kept in their order. */
  function WithLink(item: Element, notesPath: string): (r: Element)
    ensures r.tag == item.tag && r.text == item.text
    ensures |r.children| == |item.children| + 1
    ensures var k := InsertionIndex(item.children);
      && r.children[k] == LinkElement(notesPath)
      && r.children[..k] + r.children[k + 1..] == item.children
    ensures HasLinkBelow(r)
  {
    var k := InsertionIndex(item.children);
    var r := Element(item.tag, item.text, item.children[..k] + [LinkElement(notesPath)] + item.children[k..]);
    assert r.children[k].tag == LinkTag;
    assert r.children[..k] + r.children[k + 1..] == item.children by {
      assert r.children[..k] == item.children[..k];
      assert r.children[k + 1..] == item.children[k..];
    }
    r
  }

  /** An `item` child that has no link beneath it. */
  predicate LacksLink(c: Element) {
    c.tag == "item" && !HasLinkBelow(c)
  }

  /** One child of the channel after the loop: items lacking a link get one. */
  function PatchChild(c: Element, notesPath: string): (r: Element)
    ensures LacksLink(c) ==> r == WithLink(c, notesPath)
    ensures !LacksLink(c) ==> r == c
    ensures r.tag == c.tag && (r.tag == "item" ==> HasLinkBelow(r))
  {
    if LacksLink(c) then WithLink(c, notesPath) else c
  }

  /** The channel's children after the loop. */
  function PatchChildren(cs: seq<Element>, notesPath: string): (rs: seq<Element>)
    ensures |rs| == |cs|
    ensures forall j :: 0 <= j < |cs| ==> rs[j] == PatchChild(cs[j], notesPath)
  {
    seq(|cs|, j requires 0 <= j < |cs| => PatchChild(cs[j], notesPath))
  }

  /** Some `item` under the channel at position `c` has no link. */
  predicate AnyLacksLink(cs: seq<Element>) {
    exists j :: 0 <= j < |cs| && LacksLink(cs[j])
  }

  /** `changes_made` after the loop: there is a channel and one of its items lacked a link. */
  predicate NeedsLinks(root: Element) {
    match FirstIndexOfTag(root.children, "channel")
    case None => false
    case Some(c) => AnyLacksLink(root.children[c].children)
  }

  /** The whole tree after the loop: the first `channel` child of the root patched, every
      other element as it was. */
  function Patched(root: Element, notesPath: string): (r: Element)
    ensures r.tag == root.tag && r.text == root.text && |r.children| == |root.children|
  {
    match FirstIndexOfTag(root.children, "channel")
    case None => root
    case Some(c) =>
      var channel := root.children[c];
      var patchedChannel := Element(channel.tag, channel.text, PatchChildren(channel.children, notesPath));
      Element(root.tag, root.text, root.children[c := patchedChannel])
  }

  /** `add_release_notes_link(xml_file, notes_path)`: walks the items of the first channel,
      inserting a link into each that lacks one. Returns the tree written back to
      `xmlFile` (none when nothing changed) and the line printed. */
  method AddReleaseNotesLink(root: Element, xmlFile: string, notesPath: string)
    returns (written: Option<Element>, message: string)
    ensures written.Some? <==> NeedsLinks(root)
    ensures written.Some? ==> written.value == Patched(root, notesPath)
    ensures message == if written.Some? then UpdatedPrefix + xmlFile + UpdatedSuffix else NothingToDo
  {
    var changesMade := false;
    var newRoot := root;
    var channelIndex := FirstIndexOfTag(root.children, "channel");
    if channelIndex.Some? {
      var channel := root.children[channelIndex.value];
      var items;
      items, changesMade := LinkItems(channel.children, notesPath);
      newRoot := Element(root.tag, root.text, root.children[channelIndex.value := Element(channel.tag, channel.text, items)]);
    }
    if changesMade {
      written := Some(newRoot);
      message := UpdatedPrefix + xmlFile + UpdatedSuffix;
    } else {
      written := None;
      message := NothingToDo;
    }
  }

  /** The loop over `channel.findall('item')`: each item without a link gets one, and
      `changes_made` records whether any did. */
  method LinkItems(cs: seq<Element>, notesPath: string) returns (items: seq<Element>, changesMade: bool)
    ensures items == PatchChildren(cs, notesPath)
    ensures changesMade <==> AnyLacksLink(cs)
  {
    changesMade := false;
    items := cs;
    var i := 0;
    while i < |items|
      invariant 0 <= i <= |items| == |cs|
      invariant forall j :: 0 <= j < i ==> items[j] == PatchChild(cs[j], notesPath)
      invariant forall j :: i <= j < |cs| ==> items[j] == cs[j]
      invariant changesMade <==> exists j :: 0 <= j < i && LacksLink(cs[j])
    {
      var item := items[i];
      if item.tag == "item" {
        if !HasLinkBelow(item) {
          items := items[i := WithLink(item, notesPath)];
          changesMade := true;
        }
      }
      i := i + 1;
    }
  }

  /** After the call every item directly under the first channel has a link beneath it,
      and the channel keeps its number of children. */
  lemma PatchedItemsAllLinked(root: Element, notesPath: string, c: nat)
    requires FirstIndexOfTag(root.children, "channel") == Some(c)
    ensures var ch := Patched(root, notesPath).children[c];
      && ch.tag == "channel"
      && |ch.children| == |root.children[c].children|
      && forall j :: 0 <= j < |ch.children| && ch.children[j].tag == "item" ==> HasLinkBelow(ch.children[j])
  {
  }

  /** Only the first channel is touched: the root's other children are unchanged, and so
      are the channel's children that are not items lacking a link. */
  lemma PatchedTouchesOnlyLinklessItems(root: Element, notesPath: string, c: nat)
    requires FirstIndexOfTag(root.children, "channel") == Some(c)
    ensures var r := Patched(root, notesPath);
      && (forall j :: 0 <= j < |root.children| && j != c ==> r.children[j] == root.children[j])
      && r.children[c].tag == root.children[c].tag && r.children[c].text == root.children[c].text
      && (forall j :: 0 <= j < |root.children[c].children| && !LacksLink(root.children[c].children[j]) ==>
            r.children[c].children[j] == root.children[c].children[j])
  {
  }

  /** Without a `channel` child nothing is changed and nothing is written. */
  lemma NoChannelNoChange(root: Element, notesPath: string)
    requires forall j :: 0 <= j < |root.children| ==> root.children[j].tag != "channel"
    ensures Patched(root, notesPath) == root && !NeedsLinks(root)
  {
  }

  /** The file is rewritten exactly when the patch changes the tree. */
  lemma WrittenIffChanged(root: Element, notesPath: string)
    ensures NeedsLinks(root) <==> Patched(root, notesPath) != root
  {
    match FirstIndexOfTag(root.children, "channel")
    case None =>
    case Some(c) =>
      var cs := root.children[c].children;
      var r := Patched(root, notesPath);
      if NeedsLinks(root) {
        var j :| 0 <= j < |cs| && LacksLink(cs[j]);
        assert |r.children[c].children[j].children| == |cs[j].children| + 1;
      } else {
        assert PatchChildren(cs, notesPath) == cs;
        assert root.children[c := root.children[c]] == root.children;
      }
  }

  /** A second run finds nothing to do: the script is idempotent. */
  lemma PatchIdempotent(root: Element, notesPath: string)
    ensures !NeedsLinks(Patched(root, notesPath))
    ensures Patched(Patched(root, notesPath), notesPath) == Patched(root, notesPath)
  {
    var r := Patched(root, notesPath);
    match FirstIndexOfTag(root.children, "channel")
    case None =>
    case Some(c) =>
      SameFirstIndex(root.children, r.children, "channel", c);
      assert !AnyLacksLink(r.children[c].children);
      WrittenIffChanged(r, notesPath);
  }

  /** Replacing the first element with a tag by another with that tag, and changing
      nothing before it, keeps its position the first. */
  lemma {:induction false} SameFirstIndex(a: seq<Element>, b: seq<Element>, tag: string, c: nat)
    requires FirstIndexOfTag(a, tag) == Some(c)
    requires |a| == |b| && b[c].tag == tag
    requires forall j :: 0 <= j < c ==> b[j] == a[j]
    ensures FirstIndexOfTag(b, tag) == Some(c)
    decreases c
  {
    if c > 0 {
      assert a[0].tag != tag;
      assert FirstIndexOfTag(a[1..], tag) == Some(c - 1);
      SameFirstIndex(a[1..], b[1..], tag, c - 1);
    }
  }

  /** Inserting the link and removing it again gives the item back: the link is the one
      added element and the other children keep their relative order. */
  lemma WithLinkAddsOneElement(item: Element, notesPath: string)
    requires LacksLink(item)
    ensures var r := WithLink(item, notesPath);
      multiset(r.children) == multiset(item.children) + multiset{LinkElement(notesPath)}
  {
    var r := WithLink(item, notesPath);
    var k := InsertionIndex(item.children);
    assert r.children == r.children[..k] + [r.children[k]] + r.children[k + 1..];
  }
}
