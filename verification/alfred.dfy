/** Alfred feedback items and their XML serialisation (alfred.py). The bundle
    id read from info.plist and the random uuid4 values are parameters. */
module Alfred {
  import opened Wrappers
  import opened Text

  /** A snapshot of an Item's fields. */
  datatype ItemValue = ItemValue(
    title: string,
    subtitle: Option<string>,
    uid: Option<string>,
    icon: Option<string>,
    valid: bool,
    arg: Option<string>)

  /** What `Item(title, subtitle, uid, icon, valid, arg)` holds right after
      construction: a missing icon becomes 'icon.png'. */
  function NewItem(title: string, subtitle: Option<string> := None, uid: Option<string> := None,
                   icon: Option<string> := None, valid: bool := false, arg: Option<string> := None): (v: ItemValue)
    ensures v.icon.Some?
    ensures icon.Some? ==> v.icon == icon
    ensures v.title == title && v.subtitle == subtitle && v.uid == uid && v.valid == valid && v.arg == arg
  {
    ItemValue(title, subtitle, uid, if icon.Some? then icon else Some("icon.png"), valid, arg)
  }

  /** An entry of an Alfred feedback message. Callers change its fields after
      construction (an alert's `arg` and `valid`, an icon set's subtitle). */
  class Item {
    var title: string
    var subtitle: Option<string>
    var uid: Option<string>
    var icon: Option<string>
    var valid: bool
    var arg: Option<string>

    constructor(title: string, subtitle: Option<string> := None, uid: Option<string> := None,
                icon: Option<string> := None, valid: bool := false, arg: Option<string> := None)
      ensures Value() == NewItem(title, subtitle, uid, icon, valid, arg)
    {
      this.title := title;
      this.subtitle := subtitle;
      this.icon := if icon.Some? then icon else Some("icon.png");
      this.uid := uid;
      this.valid := valid;
      this.arg := arg;
    }

    function Value(): ItemValue
      reads this
    {
      ItemValue(title, subtitle, uid, icon, valid, arg)
    }

    /** `Item.to_xml()`: `uuid` is the value `uuid.uuid4()` would return. */
    method ToXml(bundleId: string, uuid: string) returns (xml: string)
      ensures xml == ItemXml(Value(), bundleId, uuid)
    {
      var attrs: seq<string> := [];
      if uid.Some? && uid.value != "" {
        attrs := attrs + ["uid=\"" + bundleId + "-" + uid.value + "\""];
      } else {
        attrs := attrs + ["uid=\"" + uuid + "\""];
      }
      if valid {
        attrs := attrs + ["valid=\"yes\""];
      } else {
        attrs := attrs + ["valid=\"no\""];
      }
      if arg.Some? {
        attrs := attrs + ["arg=\"" + arg.value + "\""];
      }
      ghost var v := Value();
      assert attrs == Attributes(v, bundleId, uuid);
      var parts := ["<item " + JoinWith(attrs, " ") + ">"];
      parts := parts + ["<title>" + title + "</title>"];
      assert parts == [OpenTag(v, bundleId, uuid), "<title>" + v.title + "</title>"];
      if subtitle.Some? {
        parts := parts + ["<subtitle>" + subtitle.value + "</subtitle>"];
      }
      if icon.Some? {
        parts := parts + ["<icon>" + icon.value + "</icon>"];
      }
      parts := parts + ["</item>"];
      assert parts == ItemParts(v, bundleId, uuid);
      xml := Join(parts);
    }
  }

  /** The uid attribute: `bundleid-uid` for a non-empty uid, else a fresh uuid. */
  function UidAttr(v: ItemValue, bundleId: string, uuid: string): string
  {
    if v.uid.Some? && v.uid.value != "" then "uid=\"" + bundleId + "-" + v.uid.value + "\""
    else "uid=\"" + uuid + "\""
  }

  /** The attributes of the `<item>` tag, in order. */
  function Attributes(v: ItemValue, bundleId: string, uuid: string): (attrs: seq<string>)
    ensures |attrs| == if v.arg.Some? then 3 else 2
    ensures attrs[0] == UidAttr(v, bundleId, uuid)
    ensures attrs[1] == "valid=\"yes\"" <==> v.valid
    ensures attrs[1] == "valid=\"no\"" <==> !v.valid
    ensures v.arg.Some? ==> attrs[2] == "arg=\"" + v.arg.value + "\""
  {
    [UidAttr(v, bundleId, uuid)]
      + [if v.valid then "valid=\"yes\"" else "valid=\"no\""]
      + (if v.arg.Some? then ["arg=\"" + v.arg.value + "\""] else [])
  }

  function OpenTag(v: ItemValue, bundleId: string, uuid: string): string
  {
    "<item " + JoinWith(Attributes(v, bundleId, uuid), " ") + ">"
  }

  /** The elements of one item, in document order: the opening tag, the
      title, the subtitle and icon when present, and the closing tag. */
  function ItemParts(v: ItemValue, bundleId: string, uuid: string): (parts: seq<string>)
    ensures |parts| == 3 + (if v.subtitle.Some? then 1 else 0) + (if v.icon.Some? then 1 else 0)
    ensures parts[0] == OpenTag(v, bundleId, uuid)
    ensures parts[1] == "<title>" + v.title + "</title>"
    ensures v.subtitle.Some? ==> parts[2] == "<subtitle>" + v.subtitle.value + "</subtitle>"
    ensures v.icon.Some? ==> parts[|parts| - 2] == "<icon>" + v.icon.value + "</icon>"
    ensures parts[|parts| - 1] == "</item>"
  {
    [OpenTag(v, bundleId, uuid), "<title>" + v.title + "</title>"]
      + (if v.subtitle.Some? then ["<subtitle>" + v.subtitle.value + "</subtitle>"] else [])
      + (if v.icon.Some? then ["<icon>" + v.icon.value + "</icon>"] else [])
      + ["</item>"]
  }

  function ItemXml(v: ItemValue, bundleId: string, uuid: string): string
  {
    Join(ItemParts(v, bundleId, uuid))
  }

  /** Text is inserted verbatim: the title follows the opening tag unchanged. */
  lemma TitleVerbatim(v: ItemValue, bundleId: string, uuid: string)
    ensures StartsWith(ItemXml(v, bundleId, uuid), OpenTag(v, bundleId, uuid) + "<title>" + v.title + "</title>")
    ensures ItemXml(v, bundleId, uuid)[|ItemXml(v, bundleId, uuid)| - 7..] == "</item>"
  {
    var parts := ItemParts(v, bundleId, uuid);
    JoinAppend(parts[..2], parts[2..]);
    assert parts[..2] + parts[2..] == parts;
    assert Join(parts[..2]) == parts[0] + parts[1] + Join([]) by {
      assert parts[..2][1..] == [parts[1]];
    }
    JoinAppend(parts[..|parts| - 1], [parts[|parts| - 1]]);
    assert parts[..|parts| - 1] + [parts[|parts| - 1]] == parts;
  }

  // ---- the whole message ----

  const XML_HEADER := "<?xml version=\"1.0\"?>"

  function Values(items: seq<Item>): (vs: seq<ItemValue>)
    reads items
    ensures |vs| == |items|
    ensures forall i :: 0 <= i < |items| ==> vs[i] == items[i].Value()
  {
    seq(|items|, i reads items requires 0 <= i < |items| => items[i].Value())
  }

  /** `Values` distributes over concatenation. */
  lemma ValuesAppend(a: seq<Item>, b: seq<Item>)
    ensures Values(a + b) == Values(a) + Values(b)
  {
  }

  /** The list of per-item texts the loop of `to_xml` appends; item `k` of
      the message draws the uuid `uuids(k)`. */
  function ItemXmls(vs: seq<ItemValue>, bundleId: string, uuids: nat -> string): (xs: seq<string>)
    ensures |xs| == |vs|
  {
    seq(|vs|, k requires 0 <= k < |vs| => ItemXml(vs[k], bundleId, uuids(k)))
  }

  /** `to_xml(items)` as text: the header, `<items>`, the items in list order and `</items>`. */
  function FeedbackXml(vs: seq<ItemValue>, bundleId: string, uuids: nat -> string): string
  {
    XML_HEADER + "<items>" + Join(ItemXmls(vs, bundleId, uuids)) + "</items>"
  }

  /** Appending an item to the list appends its text just before `</items>`. */
  lemma FeedbackAppend(vs: seq<ItemValue>, v: ItemValue, bundleId: string, uuids: nat -> string)
    ensures FeedbackXml(vs + [v], bundleId, uuids)
         == XML_HEADER + "<items>" + Join(ItemXmls(vs, bundleId, uuids)) + ItemXml(v, bundleId, uuids(|vs|)) + "</items>"
  {
    var xs := ItemXmls(vs, bundleId, uuids);
    var x := ItemXml(v, bundleId, uuids(|vs|));
    assert ItemXmls(vs + [v], bundleId, uuids) == xs + [x];
    assert Join(xs + [x]) == Join(xs) + x by {
      JoinAppend(xs, [x]);
      assert Join([x]) == x + Join([]);
    }
  }

  /** An empty list serialises to the bare wrapper. */
  lemma EmptyFeedback(bundleId: string, uuids: nat -> string)
    ensures FeedbackXml([], bundleId, uuids) == "<?xml version=\"1.0\"?><items></items>"
  {
  }

  /** `to_xml(items)` */
  method ToXml(items: seq<Item>, bundleId: string, uuids: nat -> string) returns (xml: string)
    ensures xml == FeedbackXml(Values(items), bundleId, uuids)
  {
    var msg := [XML_HEADER, "<items>"];
    var i := 0;
    while i < |items|
      invariant 0 <= i <= |items|
      invariant msg == [XML_HEADER, "<items>"] + ItemXmls(Values(items)[..i], bundleId, uuids)
    {
      var x := items[i].ToXml(bundleId, uuids(i));
      assert Values(items)[..i + 1] == Values(items)[..i] + [items[i].Value()];
      msg := msg + [x];
      i := i + 1;
    }
    assert Values(items)[..i] == Values(items);
    msg := msg + ["</items>"];
    xml := Join(msg);
    JoinItems(Values(items), bundleId, uuids);
  }

  lemma JoinItems(vs: seq<ItemValue>, bundleId: string, uuids: nat -> string)
    ensures Join([XML_HEADER, "<items>"] + ItemXmls(vs, bundleId, uuids) + ["</items>"]) == FeedbackXml(vs, bundleId, uuids)
  {
    var xs := ItemXmls(vs, bundleId, uuids);
    JoinAppend([XML_HEADER, "<items>"] + xs, ["</items>"]);
    JoinAppend([XML_HEADER, "<items>"], xs);
    assert Join([XML_HEADER, "<items>"]) == XML_HEADER + "<items>" by {
      assert [XML_HEADER, "<items>"][1..] == ["<items>"];
      assert ["<items>"][1..] == [];
    }
    assert Join(["</items>"]) == "</items>" by {
      assert ["</items>"][1..] == [];
    }
  }
}
