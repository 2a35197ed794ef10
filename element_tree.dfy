/**
 * The part of ElementTree the scenario queries use: an element has a tag, an
 * optional text (`.text` is None for an empty element) and ordered children;
 * `find` and `findall` with a plain tag look at direct children only.
 */
module ElementTree {
  import opened Wrappers

  datatype Element = Element(tag: string, text: Option<string>, children: seq<Element>)

  /** Index of the first element of `cs` tagged `tag`. */
  function FirstIndexOfTag(cs: seq<Element>, tag: string): (r: Option<nat>)
    ensures r.Some? ==> r.value < |cs| && cs[r.value].tag == tag
    ensures r.Some? ==> forall j :: 0 <= j < r.value ==> cs[j].tag != tag
    ensures r.None? ==> forall j :: 0 <= j < |cs| ==> cs[j].tag != tag
  {
    if cs == [] then None
    else if cs[0].tag == tag then Some(0)
    else match FirstIndexOfTag(cs[1..], tag)
      case None => None
      case Some(i) => Some(i + 1)
  }

  /** `e.find(tag)`: the first direct child tagged `tag`, or None. */
  function Find(e: Element, tag: string): (r: Option<Element>)
    ensures r.None? <==> forall j :: 0 <= j < |e.children| ==> e.children[j].tag != tag
    ensures r.Some? ==> r.value.tag == tag && r.value in e.children
  {
    match FirstIndexOfTag(e.children, tag)
    case None => None
    case Some(i) => Some(e.children[i])
  }

  /** The elements of `cs` tagged `tag`, in order. */
  function FilterTag(cs: seq<Element>, tag: string): (r: seq<Element>)
    ensures |r| <= |cs|
  {
    if cs == [] then [] else (if cs[0].tag == tag then [cs[0]] else []) + FilterTag(cs[1..], tag)
  }

  /** Filtering keeps exactly the elements tagged `tag`. */
  lemma {:induction false} FilterTagMembers(cs: seq<Element>, tag: string)
    ensures forall x :: x in FilterTag(cs, tag) ==> x in cs && x.tag == tag
    ensures forall j :: 0 <= j < |cs| && cs[j].tag == tag ==> cs[j] in FilterTag(cs, tag)
  {
    if cs != [] {
      FilterTagMembers(cs[1..], tag);
      assert forall j :: 1 <= j < |cs| ==> cs[j] == cs[1..][j - 1];
    }
  }

  /** `e.findall(tag)`: every direct child tagged `tag`, in document order. */
  function FindAll(e: Element, tag: string): seq<Element>
  {
    FilterTag(e.children, tag)
  }

  /** Filtering keeps document order: it distributes over concatenation. */
  lemma {:induction false} FilterTagAppend(a: seq<Element>, b: seq<Element>, tag: string)
    ensures FilterTag(a + b, tag) == FilterTag(a, tag) + FilterTag(b, tag)
  {
    if a == [] {
      assert a + b == b;
    } else {
      var head := if a[0].tag == tag then [a[0]] else [];
      assert (a + b)[0] == a[0];
      assert (a + b)[1..] == a[1..] + b;
      assert FilterTag(a + b, tag) == head + FilterTag(a[1..] + b, tag);
      FilterTagAppend(a[1..], b, tag);
      assert FilterTag(a, tag) == head + FilterTag(a[1..], tag);
    }
  }

  /** `find` returns the head of what `findall` returns. */
  lemma {:induction false} FindIsFirstOfFindAll(e: Element, tag: string)
    ensures Find(e, tag).None? <==> FindAll(e, tag) == []
    ensures Find(e, tag).Some? ==> Find(e, tag).value == FindAll(e, tag)[0]
  {
    FirstOfFilter(e.children, tag);
  }

  lemma {:induction false} FirstOfFilter(cs: seq<Element>, tag: string)
    ensures FirstIndexOfTag(cs, tag).None? <==> FilterTag(cs, tag) == []
    ensures FirstIndexOfTag(cs, tag).Some? ==> cs[FirstIndexOfTag(cs, tag).value] == FilterTag(cs, tag)[0]
  {
    if cs != [] && cs[0].tag != tag {
      FirstOfFilter(cs[1..], tag);
    }
  }

  /** `r` is the text of the first direct child tagged `tag`, or AttributeError when there is none. */
  ghost predicate IsFirstChildText(e: Element, tag: string, r: Result<Option<string>>)
  {
    && (r.Ok? <==> FindAll(e, tag) != [])
    && (r.Ok? ==> r.value == FindAll(e, tag)[0].text)
    && (r.Err? ==> r.error == AttributeError)
  }

  /** `e.find(tag).text`: raises AttributeError when there is no such child. */
  function ChildText(e: Element, tag: string): (r: Result<Option<string>>)
    ensures IsFirstChildText(e, tag, r)
  {
    FindIsFirstOfFindAll(e, tag);
    match Find(e, tag)
    case None => Err(AttributeError)
    case Some(c) => Ok(c.text)
  }
}
