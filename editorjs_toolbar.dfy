/**
 * The Editor.js-style toolbar: the block menu's keys and how a key becomes an
 * insert request, where the plus button and the inline toolbar are drawn, and
 * the drag handle's flag.
 */
module EditorJSToolbar {
  import opened Wrappers
  import opened JsString
  import opened Dom

  /** The block an insert request asks for; a header level of None is NaN. */
  datatype InsertRequest =
    | InsertParagraph
    | InsertHeader(level: Option<int>)
    | InsertList(ordered: bool)
    | InsertChecklist
    | InsertQuote
    | InsertCode
    | InsertDelimiter
    | InsertTable
    | InsertImage

  /** `const [type, subtype] = key.split('-')`: the subtype is undefined when there is no dash. */
  function KeyParts(key: string): (string, Option<string>) {
    var parts := Split(key, '-');
    (parts[0], if |parts| > 1 then Some(parts[1]) else None)
  }

  /** `handleBlockInsert`: the request for a key, or None for a type it does not handle. */
  function HandleBlockInsert(key: string): Option<InsertRequest> {
    var (kind, subtype) := KeyParts(key);
    match kind
    case "paragraph" => Some(InsertParagraph)
    case "header" => Some(InsertHeader(if subtype.Some? then ParseInt(subtype.value) else None))
    case "list" => Some(InsertList(subtype == Some("ordered")))
    case "checklist" => Some(InsertChecklist)
    case "quote" => Some(InsertQuote)
    case "code" => Some(InsertCode)
    case "delimiter" => Some(InsertDelimiter)
    case "table" => Some(InsertTable)
    case "image" => Some(InsertImage)
    case _ => None
  }

  const HandledTypes: set<string> := {"paragraph", "header", "list", "checklist", "quote", "code", "delimiter", "table", "image"}

  /** A key produces a request exactly when the part before its first dash names a handled type. */
  lemma InsertIffHandled(key: string)
    ensures HandleBlockInsert(key).Some? <==> KeyParts(key).0 in HandledTypes
  {
  }

  /** A type and a dash-free subtype joined by a dash split back into the two. */
  lemma KeyPartsOfJoined(kind: string, subtype: string)
    requires '-' !in kind && '-' !in subtype
    ensures KeyParts(kind + "-" + subtype) == (kind, Some(subtype))
  {
    SplitPrefix(kind, subtype, '-');
    SplitNoSep(subtype, '-');
  }

  /** A key without a dash is all type, with no subtype. */
  lemma KeyPartsOfPlain(kind: string)
    requires '-' !in kind
    ensures KeyParts(kind) == (kind, None)
  {
    SplitNoSep(kind, '-');
  }

  /** `header-N` asks for a header of level N, for every non-negative N written in decimal. */
  lemma HeaderKeyLevel(n: nat)
    ensures HandleBlockInsert("header-" + NatToString(n)) == Some(InsertHeader(Some(n)))
  {
    var digits := NatToString(n);
    assert '-' !in digits by {
      forall i | 0 <= i < |digits| ensures digits[i] != '-' { }
    }
    assert "header-" + digits == "header" + "-" + digits;
    KeyPartsOfJoined("header", digits);
    ParseIntNatToString(n);
  }

  /** A header key without a level gives NaN as its level. */
  lemma HeaderWithoutLevel()
    ensures HandleBlockInsert("header") == Some(InsertHeader(None))
  {
    KeyPartsOfPlain("header");
  }

  /** `list-S` asks for an ordered list exactly when S is `ordered`. */
  lemma ListKeyStyle(subtype: string)
    requires '-' !in subtype
    ensures HandleBlockInsert("list-" + subtype) == Some(InsertList(subtype == "ordered"))
  {
    assert "list-" + subtype == "list" + "-" + subtype;
    KeyPartsOfJoined("list", subtype);
  }

  /** A dash-free key naming a handled type produces a request. */
  lemma PlainKeyInserts(kind: string)
    requires '-' !in kind && kind in HandledTypes
    ensures HandleBlockInsert(kind).Some?
  {
    KeyPartsOfPlain(kind);
    InsertIffHandled(kind);
  }

  /** The plus button: drawn only when visible, 40 px left of the anchor, at its height. */
  function PlusButtonPlacement(p: Position): (r: Option<Point>)
    ensures r.Some? <==> p.visible
    ensures r.Some? ==> r.value.x + 40.0 == p.x && r.value.y == p.y
  {
    if p.visible then Some(Point(p.x - 40.0, p.y)) else None
  }

  /** The inline toolbar: drawn only when visible, centred on the anchor and 50 px above it. */
  function InlineToolbarPlacement(p: Position): (r: Option<Point>)
    ensures r.Some? <==> p.visible
    ensures r.Some? ==> r.value.x == p.x && r.value.y + 50.0 == p.y
  {
    if p.visible then Some(Point(p.x, p.y - 50.0)) else None
  }

  /** The drag handle: pressed on mouse down, released on mouse up. */
  class DragHandle {
    var isDragging: bool

    constructor ()
      ensures !isDragging
    {
      isDragging := false;
    }

    method MouseDown()
      modifies this
      ensures isDragging
    {
      isDragging := true;
    }

    method MouseUp()
      modifies this
      ensures !isDragging
    {
      isDragging := false;
    }
  }
}
