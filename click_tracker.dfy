/**
 * The click handler of `AutoClickTracker` (frontend/components/AutoClickTracker.tsx): from the
 * clicked element, find the nearest clickable ancestor and derive what `trackClick` is called
 * with. The DOM is given as the chain of elements from the click target up to the root;
 * `Math.random().toString(36).substr(2, 9)` is an input string.
 */
module ClickTracker {
  import opened Wrappers
  import opened Text

  /**
   * An element as the handler reads it: tag name, attributes (by name), and `textContent`.
   * `element.id` and `element.className` reflect the `id` and `class` attributes.
   */
  datatype Element = Element(tagName: string, attributes: map<string, string>, textContent: string)

  function Attribute(e: Element, name: string): Option<string> {
    if name in e.attributes then Some(e.attributes[name]) else None
  }

  function Reflected(e: Element, name: string): string {
    Attribute(e, name).GetOr("")
  }

  /** `element.matches('button, a, [role="button"], [data-track-click]')`. */
  predicate IsClickable(e: Element) {
    || ToLower(e.tagName) == "button" || ToLower(e.tagName) == "a"
    || Attribute(e, "role") == Some("button")
    || Attribute(e, "data-track-click").Some?
  }

  /** `target.closest(...)`: the index in the chain of the first clickable element, or null. */
  function Closest(chain: seq<Element>): (r: Option<nat>)
    ensures r.Some? ==> r.value < |chain| && IsClickable(chain[r.value])
    ensures r.Some? ==> forall j :: 0 <= j < r.value ==> !IsClickable(chain[j])
    ensures r.None? <==> forall j :: 0 <= j < |chain| ==> !IsClickable(chain[j])
  {
    if chain == [] then None
    else if IsClickable(chain[0]) then Some(0)
    else
      match Closest(chain[1..])
      case None => None
      case Some(i) => Some(i + 1)
  }

  /** The element type: a present, non-empty `role`, else the lower-case tag name. */
  function ElementType(e: Element): (r: string)
    ensures Truthy(Attribute(e, "role")) ==> r == e.attributes["role"]
    ensures !Truthy(Attribute(e, "role")) ==> r == ToLower(e.tagName)
  {
    var tag := ToLower(e.tagName);
    if Attribute(e, "role").Some? then
      (if e.attributes["role"] != "" then e.attributes["role"] else tag)
    else tag
  }

  /** `textContent?.trim().substring(0, n)`. */
  function TextPrefix(e: Element, n: nat): (r: string)
    ensures |r| <= n && |r| <= |Trim(e.textContent)|
    ensures r == Trim(e.textContent)[..|r|]
  {
    Truncate(Trim(e.textContent), n)
  }

  /** The identifier candidates in priority order, before the random fallback. */
  function Candidates(e: Element): seq<string> {
    [ Reflected(e, "data-track-name"), Reflected(e, "id"), Reflected(e, "data-track-id"),
      Reflected(e, "aria-label"), TextPrefix(e, 50), Reflected(e, "class") ]
  }

  /** The first non-empty string of xs, or fallback. */
  function FirstNonEmpty(xs: seq<string>, fallback: string): (r: string)
    ensures r == fallback || r in xs
    ensures r != fallback ==> exists i :: 0 <= i < |xs| && xs[i] == r && forall j :: 0 <= j < i ==> xs[j] == ""
    ensures (forall i :: 0 <= i < |xs| ==> xs[i] == "") ==> r == fallback
  {
    if xs == [] then fallback
    else if xs[0] != "" then xs[0]
    else
      var r := FirstNonEmpty(xs[1..], fallback);
      assert r != fallback ==> exists i :: 0 <= i < |xs| && xs[i] == r && forall j :: 0 <= j < i ==> xs[j] == "" by {
        if r != fallback {
          var i :| 0 <= i < |xs[1..]| && xs[1..][i] == r && forall j :: 0 <= j < i ==> xs[1..][j] == "";
          assert xs[i + 1] == r;
          forall j | 0 <= j < i + 1 ensures xs[j] == "" {
            if j > 0 { assert xs[j] == xs[1..][j - 1]; }
          }
        }
      }
      r
  }

  /** The `||` chain that names the element, ending in `<tag>-<random>`. */
  function ElementId(e: Element, random: string): (r: string)
    ensures r != ""
    ensures r == FirstNonEmpty(Candidates(e), ToLower(e.tagName) + "-" + random)
  {
    var tag := ToLower(e.tagName);
    CandidatesInOrder(e, tag + "-" + random);
    if Reflected(e, "data-track-name") != "" then Reflected(e, "data-track-name")
    else if Reflected(e, "id") != "" then Reflected(e, "id")
    else if Reflected(e, "data-track-id") != "" then Reflected(e, "data-track-id")
    else if Reflected(e, "aria-label") != "" then Reflected(e, "aria-label")
    else if TextPrefix(e, 50) != "" then TextPrefix(e, 50)
    else if Reflected(e, "class") != "" then Reflected(e, "class")
    else tag + "-" + random
  }

  lemma FirstNonEmptyCons(xs: seq<string>, fallback: string)
    requires xs != []
    ensures FirstNonEmpty(xs, fallback) == if xs[0] != "" then xs[0] else FirstNonEmpty(xs[1..], fallback)
  {
  }

  /** The candidate list taken apart one entry at a time. */
  lemma CandidatesInOrder(e: Element, fallback: string)
    ensures var c := Candidates(e);
      FirstNonEmpty(c, fallback)
      == if c[0] != "" then c[0] else if c[1] != "" then c[1] else if c[2] != "" then c[2]
         else if c[3] != "" then c[3] else if c[4] != "" then c[4] else if c[5] != "" then c[5] else fallback
  {
    var c := Candidates(e);
    var c1, c2, c3, c4, c5 := c[1..], c[2..], c[3..], c[4..], c[5..];
    assert c1[1..] == c2 && c2[1..] == c3 && c3[1..] == c4 && c4[1..] == c5 && c5[1..] == [];
    FirstNonEmptyCons(c, fallback);
    FirstNonEmptyCons(c1, fallback);
    FirstNonEmptyCons(c2, fallback);
    FirstNonEmptyCons(c3, fallback);
    FirstNonEmptyCons(c4, fallback);
    FirstNonEmptyCons(c5, fallback);
  }

  /** A custom tracking name always wins. */
  lemma TrackNameWins(e: Element, random: string)
    requires Truthy(Attribute(e, "data-track-name"))
    ensures ElementId(e, random) == e.attributes["data-track-name"]
  {
    assert Candidates(e)[0] == e.attributes["data-track-name"];
  }

  /** `elementText`: the trimmed text cut to 100 characters, "" when there is none. */
  function ElementText(e: Element): (r: string)
    ensures |r| <= 100 && |r| <= |Trim(e.textContent)|
    ensures r == Trim(e.textContent)[..|r|]
  {
    var t := TextPrefix(e, 100);
    if t != "" then t else ""
  }

  /** When the text names the element, the identifier is the first 50 characters of the element text. */
  lemma TextIdIsPrefixOfText(e: Element, random: string)
    requires Candidates(e)[..4] == ["", "", "", ""] && TextPrefix(e, 50) != ""
    ensures ElementId(e, random) == TextPrefix(e, 50)
    ensures ElementId(e, random) == ElementText(e)[..|ElementId(e, random)|]
  {
    assert Candidates(e)[0] == "" && Candidates(e)[1] == "" && Candidates(e)[2] == "" && Candidates(e)[3] == "";
  }

  /** What `trackClick` is called with: `(elementId, elementType, page)`. */
  datatype ClickCall = ClickCall(elementId: string, elementType: string, page: string)

  /**
   * `handleClick`: nothing when no element on the chain is clickable; otherwise the identifier
   * and type of the closest clickable one, on the current path. The element text is computed but
   * never reaches the request, since `trackClick` takes three arguments.
   */
  function HandleClick(chain: seq<Element>, pathname: string, random: string): (r: Option<ClickCall>)
    ensures r.None? <==> forall j :: 0 <= j < |chain| ==> !IsClickable(chain[j])
    ensures r.Some? ==> (Closest(chain).Some? && r.value.page == pathname
      && r.value.elementId == ElementId(chain[Closest(chain).value], random)
      && r.value.elementType == ElementType(chain[Closest(chain).value])
      && r.value.elementId != "")
  {
    match Closest(chain)
    case None => None
    case Some(i) => Some(ClickCall(ElementId(chain[i], random), ElementType(chain[i]), pathname))
  }

  /** Clicking inside a clickable element reports that element, not its clickable ancestors. */
  lemma InnermostWins(inner: seq<Element>, clickable: Element, outer: seq<Element>, pathname: string, random: string)
    requires forall j :: 0 <= j < |inner| ==> !IsClickable(inner[j])
    requires IsClickable(clickable)
    ensures HandleClick(inner + [clickable] + outer, pathname, random)
      == Some(ClickCall(ElementId(clickable, random), ElementType(clickable), pathname))
  {
    var chain := inner + [clickable] + outer;
    assert chain[|inner|] == clickable;
    assert forall j :: 0 <= j < |inner| ==> chain[j] == inner[j];
    assert forall j :: 0 <= j < |inner| ==> !IsClickable(chain[j]);
  }
}
