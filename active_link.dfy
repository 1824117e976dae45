/** Active-link highlighting on scroll (script.js, `setActive`).

    Each `section[id]` owns the window `[offsetTop - 100, offsetTop - 100 + offsetHeight)`
    of vertical scroll positions. Sections are visited in document order; whenever the
    scroll position lies in a section's window, every navigation link loses its `active`
    class and the link whose `href` is `#<id>` gains it. The last matching section wins. */
module ActiveLink {
  import opened Wrappers

  /** A `section[id]` element as the script reads it. */
  datatype Section = Section(offsetTop: int, offsetHeight: int, id: string)

  /** How far above a section's top its window starts. */
  const LeadIn := 100

  /** The fragment a link must point at to belong to the section `id`. */
  function Href(id: string): string { "#" + id }

  /** True when scroll position `y` lies in the section's window. */
  predicate InWindow(sec: Section, y: int) {
    var top := sec.offsetTop - LeadIn;
    var bottom := top + sec.offsetHeight;
    top <= y < bottom
  }

  /** The lookup `.nav-links a[href="#id"]`: the first link, in document order,
      whose `href` attribute is `#<id>`, or None when there is none. `hrefs` lists
      the `href` attributes of the `.nav-links a` elements in document order. */
  function QueryLink(hrefs: seq<string>, id: string): (r: Option<nat>)
    ensures r.Some? ==> r.value < |hrefs| && hrefs[r.value] == Href(id)
    ensures r.Some? ==> forall j :: 0 <= j < r.value ==> hrefs[j] != Href(id)
    ensures r.None? ==> forall j :: 0 <= j < |hrefs| ==> hrefs[j] != Href(id)
  {
    if hrefs == [] then None
    else if hrefs[0] == Href(id) then Some(0)
    else match QueryLink(hrefs[1..], id)
      case None => None
      case Some(k) => Some(k + 1)
  }

  /** The `active` markers of `n` links after all were cleared and `link`, if any, set. */
  function Marked(n: nat, link: Option<nat>): seq<bool> {
    seq(n, j => link.Some? && link.value == j)
  }

  /** One iteration of the loop over sections. */
  function Step(marks: seq<bool>, sec: Section, hrefs: seq<string>, y: int): seq<bool> {
    if InWindow(sec, y) then Marked(|marks|, QueryLink(hrefs, sec.id)) else marks
  }

  /** The markers after the loop has visited every section of `secs`, in order. */
  function Scan(marks: seq<bool>, secs: seq<Section>, hrefs: seq<string>, y: int): (r: seq<bool>)
    ensures |r| == |marks|
    decreases |secs|
  {
    if secs == [] then marks
    else Step(Scan(marks, secs[..|secs| - 1], hrefs, y), secs[|secs| - 1], hrefs, y)
  }

  /** At most one link carries the marker. */
  predicate AtMostOne(marks: seq<bool>) {
    forall a, b :: 0 <= a < b < |marks| ==> !(marks[a] && marks[b])
  }

  /** When section `i` is the last one whose window holds `y`, the markers depend on
      that section alone: all cleared, and its link (if any) set. */
  lemma {:induction false} LastMatchWins(marks: seq<bool>, secs: seq<Section>, hrefs: seq<string>, y: int, i: nat)
    requires i < |secs| && InWindow(secs[i], y)
    requires forall j :: i < j < |secs| ==> !InWindow(secs[j], y)
    ensures Scan(marks, secs, hrefs, y) == Marked(|marks|, QueryLink(hrefs, secs[i].id))
    decreases |secs|
  {
    var last := |secs| - 1;
    if i < last {
      assert !InWindow(secs[last], y);
      var prefix := secs[..last];
      assert forall j :: i < j < |prefix| ==> prefix[j] == secs[j];
      LastMatchWins(marks, prefix, hrefs, y, i);
    }
  }

  /** The same, read link by link: link `k` is active exactly when it is the first
      link pointing at the last matching section; when that section has no link,
      no link is active. */
  lemma {:induction false} OnlyLinkOfLastMatchActive(marks: seq<bool>, secs: seq<Section>, hrefs: seq<string>, y: int, i: nat)
    requires |marks| == |hrefs|
    requires i < |secs| && InWindow(secs[i], y)
    requires forall j :: i < j < |secs| ==> !InWindow(secs[j], y)
    ensures var r := Scan(marks, secs, hrefs, y);
      forall k :: 0 <= k < |r| ==>
        (r[k] <==> hrefs[k] == Href(secs[i].id) && forall j :: 0 <= j < k ==> hrefs[j] != Href(secs[i].id))
    ensures (forall k :: 0 <= k < |hrefs| ==> hrefs[k] != Href(secs[i].id)) ==>
      forall k :: 0 <= k < |marks| ==> !Scan(marks, secs, hrefs, y)[k]
  {
    LastMatchWins(marks, secs, hrefs, y, i);
  }

  /** When no section's window holds `y`, no marker changes. */
  lemma {:induction false} NoMatchKeepsMarkers(marks: seq<bool>, secs: seq<Section>, hrefs: seq<string>, y: int)
    requires forall j :: 0 <= j < |secs| ==> !InWindow(secs[j], y)
    ensures Scan(marks, secs, hrefs, y) == marks
    decreases |secs|
  {
    if secs != [] {
      var prefix := secs[..|secs| - 1];
      assert forall j :: 0 <= j < |prefix| ==> prefix[j] == secs[j];
      NoMatchKeepsMarkers(marks, prefix, hrefs, y);
    }
  }

  /** A scroll never leaves more than one active link behind it when at most one
      was active before. */
  lemma {:induction false} ScanKeepsAtMostOne(marks: seq<bool>, secs: seq<Section>, hrefs: seq<string>, y: int)
    requires AtMostOne(marks)
    ensures AtMostOne(Scan(marks, secs, hrefs, y))
    decreases |secs|
  {
    if secs != [] {
      ScanKeepsAtMostOne(marks, secs[..|secs| - 1], hrefs, y);
    }
  }

  /** Any scroll position that falls in some section's window leaves at most one
      active link, whatever the markers were before. */
  lemma {:induction false} MatchLeavesAtMostOne(marks: seq<bool>, secs: seq<Section>, hrefs: seq<string>, y: int, i: nat)
    requires i < |secs| && InWindow(secs[i], y)
    ensures AtMostOne(Scan(marks, secs, hrefs, y))
    decreases |secs|
  {
    var last := |secs| - 1;
    if !InWindow(secs[last], y) {
      var prefix := secs[..last];
      assert prefix[i] == secs[i];
      MatchLeavesAtMostOne(marks, prefix, hrefs, y, i);
    }
  }

  /** A section at offset 500 and height 300 owns the positions 400 to 699. */
  lemma WindowExample()
    ensures var about := Section(500, 300, "about");
      Scan([false, false], [about], ["#home", "#about"], 450) == [false, true] &&
      Scan([true, false], [about], ["#home", "#about"], 750) == [true, false]
  {
  }
}
