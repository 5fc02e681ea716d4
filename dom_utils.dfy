/**
 * The two searches every detector is built from: the first text leaf whose trimmed text is
 * exactly a keyword, and the first clickable element whose trimmed text content is exactly
 * a keyword. Both read the tree and change nothing.
 */
module DomUtils {
  import opened Wrappers
  import opened Strings
  import opened Dom

  /** `CLICKABLE_SELECTOR`: `button, [role="button"], [tabindex="0"]`. */
  predicate IsClickable(n: Node) {
    HasTag(n, "BUTTON") || AttributeIs(n, "role", "button") || AttributeIs(n, "tabindex", "0")
  }

  /** `text && keywords.includes(text)`: a non-empty string that is one of the keywords. */
  predicate IsKeyword(text: string, keywords: seq<string>) {
    text != [] && text in keywords
  }

  /** The position of the first leaf whose trimmed text is a keyword; `|leaves|` when there is none. */
  function FirstKeywordLeaf(leaves: seq<string>, keywords: seq<string>): (i: nat)
    ensures i <= |leaves|
    ensures i < |leaves| ==> IsKeyword(Trim(leaves[i]), keywords)
    ensures forall j :: 0 <= j < i ==> !IsKeyword(Trim(leaves[j]), keywords)
  {
    if leaves == [] then 0
    else if IsKeyword(Trim(leaves[0]), keywords) then 0
    else 1 + FirstKeywordLeaf(leaves[1..], keywords)
  }

  /** What `findTextInElement` returns for the leaves its walker visits. */
  function FirstTextMatch(leaves: seq<string>, keywords: seq<string>): (r: Option<string>)
    ensures r.Some? ==> r.value != [] && r.value in keywords
    ensures r.None? <==> forall j :: 0 <= j < |leaves| ==> !IsKeyword(Trim(leaves[j]), keywords)
  {
    if leaves == [] then None
    else if IsKeyword(Trim(leaves[0]), keywords) then Some(Trim(leaves[0]))
    else FirstTextMatch(leaves[1..], keywords)
  }

  /** A match is the trimmed text of the first matching leaf in document order, and of no later one. */
  lemma {:induction false} FirstTextMatchIsFirst(leaves: seq<string>, keywords: seq<string>)
    ensures var i := FirstKeywordLeaf(leaves, keywords);
      FirstTextMatch(leaves, keywords) == if i < |leaves| then Some(Trim(leaves[i])) else None
  {
    if leaves != [] && !IsKeyword(Trim(leaves[0]), keywords) {
      FirstTextMatchIsFirst(leaves[1..], keywords);
    }
  }

  /**
   * `findTextInElement(element, keywords)`: walks the text leaves under `element` in
   * document order and returns the trimmed text of the first one that is a keyword.
   */
  method FindTextInElement(element: Node, keywords: seq<string>) returns (r: Option<string>)
    requires element.Element?
    ensures r == FirstTextMatch(TextLeaves(element), keywords)
  {
    var leaves := TextLeaves(element);
    var i := 0;
    while i < |leaves|
      invariant 0 <= i <= |leaves|
      invariant FirstTextMatch(leaves[i..], keywords) == FirstTextMatch(leaves, keywords)
    {
      var text := Trim(leaves[i]);
      if IsKeyword(text, keywords) {
        return Some(text);
      }
      assert leaves[i..][1..] == leaves[i + 1..];
      i := i + 1;
    }
    return None;
  }

  /** Leaves whose text is empty or only white space never match, whatever the keywords. */
  lemma BlankLeafNeverMatches(leaf: string, keywords: seq<string>)
    requires AllWhiteSpace(leaf)
    ensures !IsKeyword(Trim(leaf), keywords)
  {
    var i, j := TrimIsCore(leaf);
  }

  /** With no keywords nothing is ever found. */
  lemma NoKeywordsNoMatch(leaves: seq<string>)
    ensures FirstTextMatch(leaves, []) == None
  {
  }

  /** Matching is trimmed equality, not containment: surrounding white space is ignored, surrounding words are not. */
  lemma ExactMatchNotContainment()
    ensures FirstTextMatch(["Suggested for you today"], ["Suggested for you"]) == None
    ensures FirstTextMatch([" Suggested for you\n"], ["Suggested for you"]) == Some("Suggested for you")
  {
    assert Trim(" Suggested for you\n") == "Suggested for you";
  }

  /** The clickable elements among `es`, in their order (what `querySelectorAll(CLICKABLE_SELECTOR)` keeps). */
  function ClickablesIn(es: seq<Node>): (r: seq<Node>)
    ensures forall c :: c in r ==> c in es && IsClickable(c)
  {
    if es == [] then []
    else (if IsClickable(es[0]) then [es[0]] else []) + ClickablesIn(es[1..])
  }

  /** The element's whole trimmed `textContent` is a keyword. */
  predicate HasKeywordText(el: Node, keywords: seq<string>) {
    IsKeyword(Trim(TextContent(el)), keywords)
  }

  /** The position of the first clickable element of `es` whose text is a keyword; `|es|` when there is none. */
  function FirstClickableIndex(es: seq<Node>, keywords: seq<string>): (i: nat)
    ensures i <= |es|
    ensures i < |es| ==> IsClickable(es[i]) && HasKeywordText(es[i], keywords)
    ensures forall j :: 0 <= j < i ==> !(IsClickable(es[j]) && HasKeywordText(es[j], keywords))
  {
    if es == [] then 0
    else if IsClickable(es[0]) && HasKeywordText(es[0], keywords) then 0
    else 1 + FirstClickableIndex(es[1..], keywords)
  }

  /** The first clickable element, in the order of `es`, whose text is a keyword. */
  function FirstClickableMatch(es: seq<Node>, keywords: seq<string>): (r: Option<Node>)
    ensures r.Some? ==> r.value in es && IsClickable(r.value) && HasKeywordText(r.value, keywords)
    ensures r.None? <==> forall j :: 0 <= j < |es| ==> !(IsClickable(es[j]) && HasKeywordText(es[j], keywords))
  {
    if es == [] then None
    else if IsClickable(es[0]) && HasKeywordText(es[0], keywords) then Some(es[0])
    else FirstClickableMatch(es[1..], keywords)
  }

  /** A match is the first clickable element with keyword text in the order of `es`. */
  lemma {:induction false} FirstClickableMatchIsFirst(es: seq<Node>, keywords: seq<string>)
    ensures var i := FirstClickableIndex(es, keywords);
      FirstClickableMatch(es, keywords) == if i < |es| then Some(es[i]) else None
  {
    if es != [] && !(IsClickable(es[0]) && HasKeywordText(es[0], keywords)) {
      FirstClickableMatchIsFirst(es[1..], keywords);
    }
  }

  /** Searching the clickables alone finds the same element as searching every element in document order. */
  lemma {:induction false} ClickablesKeepFirstMatch(es: seq<Node>, keywords: seq<string>)
    ensures FirstClickableMatch(ClickablesIn(es), keywords) == FirstClickableMatch(es, keywords)
  {
    if es != [] {
      ClickablesKeepFirstMatch(es[1..], keywords);
      var rest := ClickablesIn(es[1..]);
      if IsClickable(es[0]) {
        assert ClickablesIn(es) == [es[0]] + rest;
        assert ([es[0]] + rest)[1..] == rest;
      } else {
        assert ClickablesIn(es) == rest;
      }
    }
  }

  /**
   * `findClickableWithText(container, keywords)`: among the clickable descendants of
   * `container`, in document order, the first whose trimmed text content is a keyword.
   */
  method FindClickableWithText(container: Node, keywords: seq<string>) returns (r: Option<Node>)
    requires container.Element?
    ensures r == FirstClickableMatch(DescendantElements(container), keywords)
  {
    var clickables := ClickablesIn(DescendantElements(container));
    ClickablesKeepFirstMatch(DescendantElements(container), keywords);
    var i := 0;
    while i < |clickables|
      invariant 0 <= i <= |clickables|
      invariant FirstClickableMatch(clickables[i..], keywords) == FirstClickableMatch(clickables, keywords)
    {
      var text := Trim(TextContent(clickables[i]));
      assert clickables[i] in clickables;
      if IsKeyword(text, keywords) {
        return Some(clickables[i]);
      }
      assert clickables[i..][1..] == clickables[i + 1..];
      i := i + 1;
    }
    return None;
  }

  /** Some text leaf under `n` trims to a keyword (the reference meaning of a text match). */
  predicate SomeLeafIsKeyword(n: Node, keywords: seq<string>) {
    exists j :: 0 <= j < |TextLeaves(n)| && IsKeyword(Trim(TextLeaves(n)[j]), keywords)
  }

  /** Some clickable descendant of `n` has a keyword as its trimmed text (the reference meaning of a clickable match). */
  predicate SomeClickableHasKeyword(n: Node, keywords: seq<string>) {
    exists j :: 0 <= j < |DescendantElements(n)|
      && IsClickable(DescendantElements(n)[j]) && HasKeywordText(DescendantElements(n)[j], keywords)
  }
}
