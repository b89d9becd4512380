/** The render pass: mounting the sorted cards (or a notice) into the page's
    episode container, and resolving the page fragment to a highlighted card. */
module Render {

  import opened Wrappers
  import opened Episodes
  import opened Cards
  import opened Ordering

  /** The notice `renderEpisodes` mounts for an empty list. */
  const NoEpisodesMessage: string := "No episodes available at this time. Please try again later."
  /** The notice `init` mounts when loading produced no episodes. */
  const UnableToLoadMessage: string := "Unable to load episodes. Please check your connection and try again."

  /** A child of the episode container: a notice paragraph, or a card with
      its `highlighted` class flag. */
  datatype Element = Notice(message: string) | Article(card: Card, highlighted: bool)

  predicate IsCardWithId(el: Element, id: string) {
    el.Article? && el.card.id == id
  }

  predicate IsHighlighted(el: Element) {
    el.Article? && el.highlighted
  }

  /** Element `k` carries the highlight and no other element does. */
  predicate OnlyHighlighted(r: seq<Element>, k: int) {
    0 <= k < |r| && forall i :: 0 <= i < |r| ==> (IsHighlighted(r[i]) <==> i == k)
  }

  /** The element with its highlight removed. */
  function Unmarked(el: Element): Element {
    if el.Article? then Article(el.card, false) else el
  }

  /** `document.getElementById(id)` over the mounted cards: the first card in
      document order whose anchor is `id`, if any. */
  function FirstMatch(cs: seq<Element>, id: string): (k: Option<nat>)
    ensures k.Some? ==> k.value < |cs| && IsCardWithId(cs[k.value], id)
    ensures k.Some? ==> forall j :: 0 <= j < k.value ==> !IsCardWithId(cs[j], id)
    ensures k.None? <==> forall j :: 0 <= j < |cs| ==> !IsCardWithId(cs[j], id)
  {
    if cs == [] then None
    else if IsCardWithId(cs[0], id) then Some(0)
    else
      match FirstMatch(cs[1..], id)
      case None => None
      case Some(k) => Some(k + 1)
  }

  /** `location.hash.substring(1)`: the fragment without its `#`. */
  function TargetId(hash: string): string
    requires hash != []
  {
    hash[1..]
  }

  /** The deep-link step as a value. With no fragment, or when no card has
      the fragment's id, nothing changes; otherwise the matching card is the
      one and only highlighted element. The elements themselves stay. */
  function DeepLinked(cs: seq<Element>, hash: string): (r: seq<Element>)
    ensures |r| == |cs|
    ensures forall i :: 0 <= i < |cs| ==> Unmarked(r[i]) == Unmarked(cs[i])
    ensures hash == [] || FirstMatch(cs, TargetId(hash)).None? ==> r == cs
    ensures hash != [] && FirstMatch(cs, TargetId(hash)).Some? ==>
      forall i :: 0 <= i < |r| ==> (IsHighlighted(r[i]) <==> i == FirstMatch(cs, TargetId(hash)).value)
  {
    if hash == [] then cs
    else
      match FirstMatch(cs, TargetId(hash))
      case None => cs
      case Some(k) =>
        seq(|cs|, i requires 0 <= i < |cs| => if i == k then Article(cs[i].card, true) else Unmarked(cs[i]))
  }

  /** The cards of `sorted`, appended in order, none highlighted. */
  function Mounted(sorted: seq<Episode>): (r: seq<Element>)
    ensures |r| == |sorted|
  {
    seq(|sorted|, i requires 0 <= i < |sorted| => Article(EpisodeCard(sorted[i]), false))
  }

  /** Element `i` of the mounted container is the unhighlighted card of the
      `i`-th sorted episode. */
  lemma MountedAt(sorted: seq<Episode>)
    ensures forall i :: 0 <= i < |sorted| ==> Mounted(sorted)[i] == Article(EpisodeCard(sorted[i]), false)
  {
  }

  /** Mounting one more episode appends its card. */
  lemma MountedSnoc(s: seq<Episode>, x: Episode)
    ensures Mounted(s + [x]) == Mounted(s) + [Article(EpisodeCard(x), false)]
  {
    var l, r := Mounted(s + [x]), Mounted(s) + [Article(EpisodeCard(x), false)];
    forall i | 0 <= i < |l| ensures l[i] == r[i] {
      if i < |s| {
        assert (s + [x])[i] == s[i];
      }
    }
  }

  /** The container after the cards of `sorted[..i]`, plus the next card, is
      the container after the cards of `sorted[..i + 1]`. */
  lemma MountedExtend(start: seq<Element>, sorted: seq<Episode>, i: nat)
    requires i < |sorted|
    ensures start + Mounted(sorted[..i + 1]) == start + Mounted(sorted[..i]) + [Article(EpisodeCard(sorted[i]), false)]
  {
    assert sorted[..i + 1] == sorted[..i] + [sorted[i]];
    MountedSnoc(sorted[..i], sorted[i]);
  }

  /** What `renderEpisodes(episodes)` leaves in the container: the
      empty-list notice, or the sorted cards after the deep-link step. */
  function Rendered(episodes: seq<Episode>, hash: string): seq<Element> {
    if episodes == [] then [Notice(NoEpisodesMessage)]
    else DeepLinked(Mounted(SortByEpisodeDesc(episodes)), hash)
  }

  /** The container holds the single notice exactly when the list is empty;
      otherwise one card per episode, in descending episode order (a
      permutation of the input, ties in input order), and at most one of
      them highlighted. */
  lemma RenderedShape(episodes: seq<Episode>, hash: string)
    ensures Rendered(episodes, hash) == [Notice(NoEpisodesMessage)] <==> episodes == []
    ensures episodes != [] ==> |Rendered(episodes, hash)| == |episodes|
    ensures episodes != [] ==> forall i :: 0 <= i < |episodes| ==>
      Rendered(episodes, hash)[i].Article? &&
      Rendered(episodes, hash)[i].card == EpisodeCard(SortByEpisodeDesc(episodes)[i])
    ensures forall i, j ::
      (0 <= i < |Rendered(episodes, hash)| && 0 <= j < |Rendered(episodes, hash)| &&
       IsHighlighted(Rendered(episodes, hash)[i]) && IsHighlighted(Rendered(episodes, hash)[j])) ==> i == j
  {
    if episodes != [] {
      var m := Mounted(SortByEpisodeDesc(episodes));
      var r := DeepLinked(m, hash);
      assert forall i :: 0 <= i < |r| ==> Unmarked(r[i]) == m[i];
      assert r[0].Article?;
    }
  }

  /** The first episode numbered `n` in `s` is the first of `WithNumber(s, n)`. */
  lemma {:induction false} WithNumberFirst(s: seq<Episode>, n: int, k: nat)
    requires k < |s| && s[k].episode == n
    requires forall j :: 0 <= j < k ==> s[j].episode != n
    ensures WithNumber(s, n) != [] && WithNumber(s, n)[0] == s[k]
  {
    if k > 0 {
      WithNumberFirst(s[1..], n, k - 1);
    }
  }

  /** A mounted card carries the anchor `ep<n>` exactly when its episode is numbered `n`. */
  lemma MountedIdIff(sorted: seq<Episode>, n: int, j: nat)
    requires j < |sorted|
    ensures IsCardWithId(Mounted(sorted)[j], CardId(n)) <==> sorted[j].episode == n
  {
    CardIdInjective(sorted[j].episode, n);
  }

  /** The card `getElementById("ep<n>")` finds is that of the first episode
      numbered `n`. */
  lemma MountedFirstMatch(sorted: seq<Episode>, n: int, p: nat)
    requires p < |sorted| && sorted[p].episode == n
    ensures FirstMatch(Mounted(sorted), CardId(n)).Some? && WithNumber(sorted, n) != []
    ensures sorted[FirstMatch(Mounted(sorted), CardId(n)).value] == WithNumber(sorted, n)[0]
  {
    var m := Mounted(sorted);
    MountedIdIff(sorted, n, p);
    var k := FirstMatch(m, CardId(n)).value;
    MountedIdIff(sorted, n, k);
    forall j | 0 <= j < k ensures sorted[j].episode != n {
      MountedIdIff(sorted, n, j);
    }
    WithNumberFirst(sorted, n, k);
    assert WithNumber(sorted, n)[0] == sorted[k];
  }

  /** When the fragment names a card, the deep-link step leaves that card,
      and only it, highlighted. */
  lemma HighlightAt(cs: seq<Element>, hash: string)
    requires hash != [] && FirstMatch(cs, TargetId(hash)).Some?
    ensures var k := FirstMatch(cs, TargetId(hash)).value;
      OnlyHighlighted(DeepLinked(cs, hash), k) && DeepLinked(cs, hash)[k] == Article(cs[k].card, true)
  {
    var k := FirstMatch(cs, TargetId(hash)).value;
    var r := DeepLinked(cs, hash);
    assert Unmarked(r[k]) == Unmarked(cs[k]) && IsHighlighted(r[k]);
  }

  /** An episode of the input is also in its sorted copy. */
  lemma InSorted(episodes: seq<Episode>, i: nat) returns (p: nat)
    requires i < |episodes|
    ensures p < |SortByEpisodeDesc(episodes)| && SortByEpisodeDesc(episodes)[p] == episodes[i]
  {
    var sorted := SortByEpisodeDesc(episodes);
    assert episodes[i] in multiset(sorted);
    p :| 0 <= p < |sorted| && sorted[p] == episodes[i];
  }

  /** Deep-linking to `#ep<n>` when some episode is numbered `n` highlights
      exactly one card: the card of the first episode numbered `n` in the
      input list (the sort is stable). */
  lemma DeepLinkHit(episodes: seq<Episode>, n: int)
    requires exists i :: 0 <= i < |episodes| && episodes[i].episode == n
    ensures WithNumber(episodes, n) != []
    ensures var r := Rendered(episodes, "#" + CardId(n));
      exists k :: OnlyHighlighted(r, k) && r[k] == Article(EpisodeCard(WithNumber(episodes, n)[0]), true)
  {
    var hash := "#" + CardId(n);
    var sorted := SortByEpisodeDesc(episodes);
    var m := Mounted(sorted);
    assert TargetId(hash) == CardId(n);
    var i0 :| 0 <= i0 < |episodes| && episodes[i0].episode == n;
    var p := InSorted(episodes, i0);
    MountedFirstMatch(sorted, n, p);
    SortIsStable(episodes, n);
    HighlightAt(m, hash);
    var k := FirstMatch(m, CardId(n)).value;
    assert m[k].card == EpisodeCard(sorted[k]);
    var r := Rendered(episodes, hash);
    assert r == DeepLinked(m, hash);
    assert OnlyHighlighted(r, k);
    assert r[k] == Article(EpisodeCard(WithNumber(episodes, n)[0]), true);
  }

  /** Deep-linking to `#ep<n>` when no episode is numbered `n` highlights nothing. */
  lemma DeepLinkMiss(episodes: seq<Episode>, n: int)
    requires forall i :: 0 <= i < |episodes| ==> episodes[i].episode != n
    ensures var r := Rendered(episodes, "#" + CardId(n));
      forall i :: 0 <= i < |r| ==> !IsHighlighted(r[i])
  {
    var hash := "#" + CardId(n);
    if episodes != [] {
      var sorted := SortByEpisodeDesc(episodes);
      var m := Mounted(sorted);
      assert TargetId(hash) == CardId(n);
      forall j | 0 <= j < |sorted| ensures !IsCardWithId(m[j], CardId(n)) {
        assert sorted[j] in multiset(episodes);
        CardIdInjective(sorted[j].episode, n);
      }
    }
  }

  /** The page as the renderer sees it: the `episodes-container` element's
      children (`None` when the page has no such element) and the fragment
      of the page's URL. */
  class Page {
    var container: Option<seq<Element>>
    const hash: string

    constructor (container: Option<seq<Element>>, hash: string)
      ensures this.container == container && this.hash == hash
    {
      this.container := container;
      this.hash := hash;
    }

    /** Clears the highlight of every card, then highlights the card whose
        id is the fragment, when there is a fragment and such a card. */
    method ResolveDeepLink()
      modifies this
      ensures container == if old(container).None? then None else Some(DeepLinked(old(container).value, hash))
    {
      if container.None? || hash == [] {
        return;
      }
      var cs := container.value;
      var target := FirstMatch(cs, TargetId(hash));
      if target.None? {
        return;
      }
      var i := 0;
      while i < |cs|
        invariant 0 <= i <= |cs|
        invariant container.Some? && |container.value| == |cs|
        invariant forall j :: 0 <= j < i ==> container.value[j] == Unmarked(cs[j])
        invariant forall j :: i <= j < |cs| ==> container.value[j] == cs[j]
      {
        if IsHighlighted(container.value[i]) {
          container := Some(container.value[i := Unmarked(container.value[i])]);
        }
        i := i + 1;
      }
      var k := target.value;
      container := Some(container.value[k := Article(cs[k].card, true)]);
      assert container.value == DeepLinked(cs, hash);
    }

    /** The append loop of `renderEpisodes`: builds the card of each episode
        of `sorted` in turn and appends it to the container. */
    method AppendCards(sorted: seq<Episode>)
      requires container.Some?
      modifies this
      ensures container == Some(old(container.value) + Mounted(sorted))
    {
      ghost var start := container.value;
      assert start + Mounted(sorted[..0]) == start;
      for i := 0 to |sorted|
        invariant container == Some(start + Mounted(sorted[..i]))
      {
        var card := CreateEpisodeCard(sorted[i]);
        MountedExtend(start, sorted, i);
        container := Some(container.value + [Article(card, false)]);
      }
      assert sorted[..|sorted|] == sorted;
    }

    /** `renderEpisodes(episodes)`: with a container, clears it, then mounts
        the empty-list notice, or the sorted cards followed by the deep-link
        step; without a container, changes nothing. */
    method RenderEpisodes(episodes: seq<Episode>)
      modifies this
      ensures container == if old(container).None? then None else Some(Rendered(episodes, hash))
    {
      if container.None? {
        return;
      }
      container := Some([]);
      if |episodes| == 0 {
        container := Some([Notice(NoEpisodesMessage)]);
        return;
      }
      var sorted := SortByEpisodeDesc(episodes);
      AppendCards(sorted);
      assert container.value == Mounted(sorted);
      assert Rendered(episodes, hash) == DeepLinked(Mounted(sorted), hash);
      ResolveDeepLink();
    }

    /** `init` once loading has finished: an empty result (a failed load
        included) mounts the unable-to-load notice, anything else is
        rendered. */
    method Init(outcome: FetchOutcome)
      modifies this
      ensures container == if old(container).None? then None
        else if FetchedEpisodes(outcome) == [] then Some([Notice(UnableToLoadMessage)])
        else Some(Rendered(FetchedEpisodes(outcome), hash))
    {
      var episodes := FetchedEpisodes(outcome);
      if |episodes| == 0 {
        if container.Some? {
          container := Some([Notice(UnableToLoadMessage)]);
        }
        return;
      }
      RenderEpisodes(episodes);
    }
  }
}
