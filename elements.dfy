/**
 * The part of an ElementTree element the feed code uses: a tag, an attribute
 * dictionary, a text slot holding whatever Python object was assigned to it
 * (JNull for None), and the ordered children; plus the child lookups
 * `find(tag)` and `findall(tag)`, which look at direct children only.
 */
module Elements {
  import opened Wrappers
  import opened PyValues

  datatype Element = Element(tag: string, attrib: map<string, Json>, text: Json, children: seq<Element>)

  /** An element holding only a text value: what `SubElement(parent, tag).text = v` creates. */
  function TextElement(tag: string, v: Json): Element {
    Element(tag, map[], v, [])
  }

  /** The position of the first child tagged `tag`. */
  function FindIndex(children: seq<Element>, tag: string): (r: Option<nat>)
    ensures r.Some? ==> r.value < |children| && children[r.value].tag == tag
    ensures r.Some? ==> forall k :: 0 <= k < r.value ==> children[k].tag != tag
    ensures r.None? ==> forall k :: 0 <= k < |children| ==> children[k].tag != tag
  {
    if children == [] then None
    else if children[0].tag == tag then Some(0)
    else
      match FindIndex(children[1..], tag)
      case None => None
      case Some(j) => Some(j + 1)
  }

  /** `e.find(tag)`: the first direct child tagged `tag`. */
  function Find(e: Element, tag: string): (r: Option<Element>)
    ensures r.Some? ==> r.value in e.children && r.value.tag == tag
    ensures r.Some? ==>
      exists j :: 0 <= j < |e.children| && e.children[j] == r.value && forall k :: 0 <= k < j ==> e.children[k].tag != tag
    ensures r.None? ==> forall c :: c in e.children ==> c.tag != tag
  {
    match FindIndex(e.children, tag)
    case None => None
    case Some(j) => Some(e.children[j])
  }

  /** `e.findall(tag)`: the direct children tagged `tag`, in document order. */
  function FindAll(children: seq<Element>, tag: string): (r: seq<Element>)
    ensures |r| <= |children|
    ensures forall c :: c in r <==> c in children && c.tag == tag
  {
    if children == [] then []
    else if children[0].tag == tag then [children[0]] + FindAll(children[1..], tag)
    else FindAll(children[1..], tag)
  }

  /** The first child with a tag is the one `find` returns. */
  lemma FindAt(e: Element, tag: string, j: nat)
    requires j < |e.children| && e.children[j].tag == tag
    requires forall k :: 0 <= k < j ==> e.children[k].tag != tag
    ensures Find(e, tag) == Some(e.children[j])
  {
  }
}
