/** The scroll handler that marks the navigation link of the section being
    read (script.js lines 943-963). Sections are taken in document order with
    their `offsetTop`; links with their `href` and `active` class. */
module NavHighlight {

  datatype Section = Section(id: string, top: int)

  datatype Link = Link(href: string, active: bool)

  /** A section counts as reached this many pixels before its top. */
  const Margin: int := 200

  predicate Reached(sec: Section, offset: int) {
    offset >= sec.top - Margin
  }

  /** Reference definition: the index of the last reached section in
      document order, or -1 when none is reached. */
  function LastReached(sections: seq<Section>, offset: int): (k: int)
    ensures -1 <= k < |sections|
    ensures k >= 0 ==> Reached(sections[k], offset)
    ensures forall j :: k < j < |sections| ==> !Reached(sections[j], offset)
  {
    if |sections| == 0 then -1
    else if Reached(sections[|sections| - 1], offset) then |sections| - 1
    else LastReached(sections[..|sections| - 1], offset)
  }

  /** Section `k` is reached and no later section is. */
  predicate IsLastReached(sections: seq<Section>, offset: int, k: int) {
    0 <= k < |sections| && Reached(sections[k], offset) &&
    forall j :: k < j < |sections| ==> !Reached(sections[j], offset)
  }

  /** The id the handler settles on, read off the reference definition. */
  function ChosenId(sections: seq<Section>, offset: int): string {
    var k := LastReached(sections, offset);
    if k == -1 then "" else sections[k].id
  }

  /** The handler's first loop: walk the sections in order, remembering the id
      of each one whose top minus the margin is at most the scroll offset. */
  method CurrentSection(sections: seq<Section>, offset: int) returns (current: string)
    ensures current == ChosenId(sections, offset)
  {
    current := "";
    var i := 0;
    while i < |sections|
      invariant 0 <= i <= |sections|
      invariant current == ChosenId(sections[..i], offset)
    {
      assert sections[..i + 1][..i] == sections[..i];
      if offset >= sections[i].top - Margin {
        current := sections[i].id;
      }
      i := i + 1;
    }
    assert sections[..i] == sections;
  }

  /** The handler's second loop: clear every link's `active` class, then set
      it on the links whose `href` is `'#'` followed by `current`. */
  function Highlight(links: seq<Link>, current: string): (r: seq<Link>)
    ensures |r| == |links|
    ensures forall i :: 0 <= i < |r| ==> r[i].href == links[i].href
    ensures forall i :: 0 <= i < |r| ==> (r[i].active <==> links[i].href == "#" + current)
  {
    if |links| == 0 then []
    else
      var l := links[0].(active := false);
      [l.(active := l.href == "#" + current)] + Highlight(links[1..], current)
  }

  /** One scroll event: choose the section, then mark its link. */
  method OnScroll(sections: seq<Section>, links: seq<Link>, offset: int)
    returns (id: string, r: seq<Link>)
    ensures (forall j :: 0 <= j < |sections| ==> !Reached(sections[j], offset)) ==> id == ""
    ensures forall k :: IsLastReached(sections, offset, k) ==> id == sections[k].id
    ensures |r| == |links| && forall i :: 0 <= i < |r| ==> r[i].href == links[i].href
    ensures forall i :: 0 <= i < |r| ==> (r[i].active <==> r[i].href == "#" + id)
  {
    id := CurrentSection(sections, offset);
    r := Highlight(links, id);
  }

  predicate DistinctHrefs(links: seq<Link>) {
    forall i, j :: 0 <= i < j < |links| ==> links[i].href != links[j].href
  }

  /** With distinct `href`s, at most one link is left active. */
  lemma AtMostOneActive(links: seq<Link>, current: string)
    requires DistinctHrefs(links)
    ensures var r := Highlight(links, current);
      forall i, j :: 0 <= i < |r| && 0 <= j < |r| && r[i].active && r[j].active ==> i == j
  {
  }

  /** The outcome depends only on the `href`s, not on which links were active
      before, so repeated scroll events at one offset change nothing more. */
  lemma HighlightIgnoresPrevious(links: seq<Link>, current: string)
    ensures Highlight(Highlight(links, current), current) == Highlight(links, current)
  {
    var r := Highlight(links, current);
    var r2 := Highlight(r, current);
    assert |r2| == |r|;
    forall i | 0 <= i < |r|
      ensures r2[i] == r[i]
    {
    }
  }

  /** Above every section the chosen id is empty, so a link whose `href` is
      exactly `"#"` is the one marked active. */
  lemma TopOfPageMarksBareHash(sections: seq<Section>, links: seq<Link>, offset: int)
    requires forall j :: 0 <= j < |sections| ==> !Reached(sections[j], offset)
    ensures var r := Highlight(links, ChosenId(sections, offset));
      forall i :: 0 <= i < |r| ==> (r[i].active <==> links[i].href == "#")
  {
  }

  /** A deeper scroll never moves the choice back to an earlier section. */
  lemma LastReachedMonotone(sections: seq<Section>, a: int, b: int)
    requires a <= b
    ensures LastReached(sections, a) <= LastReached(sections, b)
  {
  }
}
