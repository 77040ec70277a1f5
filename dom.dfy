/**
 * What the editor hooks read from the page, taken as inputs: an element is an
 * identity plus the class names, attributes and tag it carries and the tags
 * and classes found among its descendants (the answers `classList.contains`,
 * `hasAttribute`, `tagName` and `querySelector` give). The walk from an
 * element up through `parentElement` is given as the sequence of elements met.
 */
module Dom {
  import opened Wrappers

  datatype Point = Point(x: real, y: real)

  /** A measured position together with the flag that says whether it is shown. */
  datatype Position = Position(x: real, y: real, visible: bool)

  type BlockId = nat

  datatype Element = Element(
    id: BlockId,
    tagName: string,
    classes: set<string>,
    attributes: set<string>,
    descendantTags: set<string>,
    descendantClasses: set<string>)

  predicate HasClass(e: Element, c: string) { c in e.classes }

  /** `document.body`, where the upward walks stop. */
  predicate IsBody(e: Element) { e.tagName == "BODY" }

  /**
   * The first element of `chain` (an element followed by its ancestors) that
   * satisfies `isBlock`, looking no further than the first body element.
   */
  function FirstBlock(chain: seq<Element>, isBlock: Element -> bool): Option<Element> {
    if chain == [] || IsBody(chain[0]) then None
    else if isBlock(chain[0]) then Some(chain[0])
    else FirstBlock(chain[1..], isBlock)
  }

  /** No element of `chain[..k]` is the body or a block. */
  ghost predicate NoneBefore(chain: seq<Element>, k: int, isBlock: Element -> bool)
    requires 0 <= k <= |chain|
  {
    forall j :: 0 <= j < k ==> !IsBody(chain[j]) && !isBlock(chain[j])
  }

  lemma {:induction false} FirstBlockFrom(chain: seq<Element>, k: nat, isBlock: Element -> bool)
    requires k <= |chain| && NoneBefore(chain, k, isBlock)
    ensures FirstBlock(chain, isBlock) == FirstBlock(chain[k..], isBlock)
  {
    if k > 0 {
      assert chain[1..][k - 1..] == chain[k..];
      FirstBlockFrom(chain[1..], k - 1, isBlock);
    }
  }

  /**
   * `getBlockElement`: walk up from the element while there is one and it is
   * not the body; return the first element the block test accepts, else null.
   */
  method GetBlockElement(chain: seq<Element>, isBlock: Element -> bool) returns (r: Option<Element>)
    ensures r == FirstBlock(chain, isBlock)
    ensures r.Some? ==> exists k :: 0 <= k < |chain| && chain[k] == r.value && isBlock(r.value) && NoneBefore(chain, k, isBlock)
    ensures r.None? ==> forall k :: 0 <= k < |chain| && NoneBefore(chain, k, isBlock) ==> IsBody(chain[k]) || !isBlock(chain[k])
  {
    var i := 0;
    while i < |chain| && !IsBody(chain[i])
      invariant 0 <= i <= |chain|
      invariant NoneBefore(chain, i, isBlock)
    {
      if isBlock(chain[i]) {
        FirstBlockFrom(chain, i, isBlock);
        return Some(chain[i]);
      }
      i := i + 1;
    }
    FirstBlockFrom(chain, i, isBlock);
    return None;
  }

  /** `window.pageXOffset || document.documentElement.scrollLeft` (and the same for Y). */
  datatype Scroll = Scroll(pageXOffset: real, pageYOffset: real, docScrollLeft: real, docScrollTop: real)

  function ScrollLeft(s: Scroll): real { if s.pageXOffset != 0.0 then s.pageXOffset else s.docScrollLeft }
  function ScrollTop(s: Scroll): real { if s.pageYOffset != 0.0 then s.pageYOffset else s.docScrollTop }

  /** A `getBoundingClientRect` result. */
  datatype Rect = Rect(left: real, top: real, width: real, height: real)

  /** The rectangle's left and top edges in page coordinates (viewport plus scroll). */
  function PageLeft(r: Rect, s: Scroll): real { r.left + ScrollLeft(s) }
  function PageTop(r: Rect, s: Scroll): real { r.top + ScrollTop(s) }
}
