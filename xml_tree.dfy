/**
 * Parsed markup as a value: an element has a local name, an optional namespace URI
 * and an ordered list of children; text nodes carry character data.
 */
module XmlTree {
  import opened Wrappers

  datatype Node =
    | Element(localName: string, namespaceUri: Option<string>, children: seq<Node>)
    | Text(data: string)

  /** A document element: what a successful parse returns. */
  type ElementNode = n: Node | n.Element? witness Element("", None, [])

  /** The first child that is an element (DOMUtils.getFirstElement), skipping text. */
  function FirstElement(children: seq<Node>): (r: Option<Node>)
    ensures r.None? <==> forall i :: 0 <= i < |children| ==> !children[i].Element?
    ensures r.Some? ==>
      exists i :: 0 <= i < |children| && children[i] == r.value && r.value.Element?
        && forall j :: 0 <= j < i ==> !children[j].Element?
  {
    if |children| == 0 then None
    else if children[0].Element? then Some(children[0])
    else
      var r := FirstElement(children[1..]);
      assert forall i :: 0 <= i < |children[1..]| ==> children[1..][i] == children[i + 1];
      r
  }

  /** Java's String.trim treats every character up to U+0020 as white space. */
  predicate IsTrimmed(c: char)
  {
    c <= ' '
  }

  /** The index of the first character from `i` on that is not white space, or |s|. */
  function SkipSpace(s: string, i: nat): (n: nat)
    requires i <= |s|
    ensures i <= n <= |s|
    ensures forall j :: i <= j < n ==> IsTrimmed(s[j])
    ensures n < |s| ==> !IsTrimmed(s[n])
    decreases |s| - i
  {
    if i == |s| || !IsTrimmed(s[i]) then i else SkipSpace(s, i + 1)
  }

  /** The end of `s[lo..hi]` once its trailing white space is cut. */
  function TrimEndAt(s: string, lo: nat, hi: nat): (m: nat)
    requires lo <= hi <= |s|
    ensures lo <= m <= hi
    ensures forall j :: m <= j < hi ==> IsTrimmed(s[j])
    ensures m > lo ==> !IsTrimmed(s[m - 1])
    decreases hi - lo
  {
    if hi == lo || !IsTrimmed(s[hi - 1]) then hi else TrimEndAt(s, lo, hi - 1)
  }

  /** `r` is the run of `s` starting at `k`, with only white space cut on either side. */
  predicate TrimmedAt(s: string, r: string, k: nat)
  {
    && k + |r| <= |s| && r == s[k..k + |r|]
    && (forall i :: 0 <= i < k ==> IsTrimmed(s[i]))
    && (forall i :: k + |r| <= i < |s| ==> IsTrimmed(s[i]))
  }

  /** String.trim: neither end of the result is white space, and only white space was cut. */
  function Trim(s: string): (r: string)
    ensures |r| > 0 ==> !IsTrimmed(r[0]) && !IsTrimmed(r[|r| - 1])
    ensures TrimmedAt(s, r, SkipSpace(s, 0))
  {
    var k := SkipSpace(s, 0);
    var m := TrimEndAt(s, k, |s|);
    s[k..m]
  }

  /** A string already without surrounding white space is its own trim. */
  lemma {:induction false} TrimKeepsTrimmed(s: string)
    requires |s| > 0 ==> !IsTrimmed(s[0]) && !IsTrimmed(s[|s| - 1])
    ensures Trim(s) == s
  {
  }

  /** Whether any child is a text node. */
  predicate HasText(children: seq<Node>)
  {
    exists i :: 0 <= i < |children| && children[i].Text?
  }

  /** The character data of all text children, in document order. */
  function TextOf(children: seq<Node>): (r: string)
    ensures !HasText(children) ==> r == []
  {
    if |children| == 0 then []
    else
      assert forall i :: 0 <= i < |children[1..]| ==> children[1..][i] == children[i + 1];
      (if children[0].Text? then children[0].data else []) + TextOf(children[1..])
  }

  /**
   * DOMUtils.getContent: absent when the element has no text child, otherwise
   * the character data of its text children joined in document order and trimmed.
   */
  function Content(e: Node): (r: Option<string>)
    requires e.Element?
    ensures r.Some? <==> HasText(e.children)
    ensures r.Some? ==> r.value == Trim(TextOf(e.children))
  {
    if HasText(e.children) then Some(Trim(TextOf(e.children))) else None
  }

  /**
   * An element holding one text node (around child elements, if any) yields that
   * node's data, trimmed: a pretty-printed `<TokenType>` reads back unpadded.
   */
  lemma {:induction false} SingleTextContent(e: Node, k: nat)
    requires e.Element? && k < |e.children| && e.children[k].Text?
    requires forall i :: 0 <= i < |e.children| && i != k ==> !e.children[i].Text?
    ensures Content(e) == Some(Trim(e.children[k].data))
  {
    OnlyTextOf(e.children, k);
  }

  lemma {:induction false} OnlyTextOf(children: seq<Node>, k: nat)
    requires k < |children| && children[k].Text?
    requires forall i :: 0 <= i < |children| && i != k ==> !children[i].Text?
    ensures TextOf(children) == children[k].data
  {
    var tail := children[1..];
    assert forall i :: 0 <= i < |tail| ==> tail[i] == children[i + 1];
    if k == 0 {
      assert !HasText(tail);
    } else {
      OnlyTextOf(tail, k - 1);
    }
  }
}
