/** The platform link panel of a card: a filter-and-map over the entries of
    an episode's platform-to-URL mapping. */
module LinkPanel {

  import opened Wrappers
  import opened JsText
  import opened Utm
  import opened Episodes

  /** The fixed registry of known platforms and their icon assets. */
  const PlatformIcons: map<string, string> := map[
    "youtube" := "https://cdn.jsdelivr.net/npm/simple-icons@13.21.0/icons/youtube.svg",
    "spotify" := "https://cdn.jsdelivr.net/npm/simple-icons@13.21.0/icons/spotify.svg",
    "apple" := "https://cdn.jsdelivr.net/npm/simple-icons@13.21.0/icons/applepodcasts.svg",
    "instagram" := "https://cdn.jsdelivr.net/npm/simple-icons@13.21.0/icons/instagram.svg",
    "tiktok" := "https://cdn.jsdelivr.net/npm/simple-icons@13.21.0/icons/tiktok.svg",
    "substack" := "https://cdn.jsdelivr.net/npm/simple-icons@13.21.0/icons/substack.svg"
  ]

  /** Outbound links open in a new browsing context without opener or referrer. */
  const LinkTarget: string := "_blank"
  const LinkRel: string := "noopener noreferrer"

  /** One `<a>` of the panel, with the `src` of the icon image inside it. */
  datatype LinkUnit = LinkUnit(href: string, title: string, target: string, rel: string, iconSrc: string)

  /** An entry is shown when its URL is truthy and its platform is registered. */
  predicate Qualifies(e: LinkEntry) {
    e.url.Some? && e.url.value != [] && e.platform in PlatformIcons
  }

  /** Some entry of the mapping qualifies for the panel. */
  predicate AnyQualifies(entries: seq<LinkEntry>) {
    exists i :: 0 <= i < |entries| && Qualifies(entries[i])
  }

  function MakeLink(e: LinkEntry): (l: LinkUnit)
    requires Qualifies(e)
  {
    LinkUnit(AddUtmParams(e.url.value), Capitalize(e.platform), LinkTarget, LinkRel, PlatformIcons[e.platform])
  }

  /** What one entry contributes to the panel: its link, if it qualifies. */
  function LinkOf(e: LinkEntry): (r: seq<LinkUnit>)
    ensures |r| <= 1 && (r != [] <==> Qualifies(e))
  {
    if Qualifies(e) then [MakeLink(e)] else []
  }

  /** The links the panel holds, entry by entry in mapping order. */
  function PanelLinks(entries: seq<LinkEntry>): (r: seq<LinkUnit>)
    ensures |r| <= |entries|
  {
    if entries == [] then [] else LinkOf(entries[0]) + PanelLinks(entries[1..])
  }

  /** The panel is empty exactly when no entry qualifies. */
  lemma {:induction false} PanelLinksEmptyIff(entries: seq<LinkEntry>)
    ensures PanelLinks(entries) == [] <==> !AnyQualifies(entries)
  {
    if entries != [] {
      PanelLinksEmptyIff(entries[1..]);
      if AnyQualifies(entries[1..]) {
        var i :| 0 <= i < |entries[1..]| && Qualifies(entries[1..][i]);
        assert entries[i + 1] == entries[1..][i];
      }
      if AnyQualifies(entries) && !Qualifies(entries[0]) {
        var i :| 0 <= i < |entries| && Qualifies(entries[i]);
        assert entries[1..][i - 1] == entries[i];
      }
    }
  }

  /** Concatenation of link lists is associative. */
  lemma AppendAssoc(x: seq<LinkUnit>, y: seq<LinkUnit>, z: seq<LinkUnit>)
    ensures x + (y + z) == (x + y) + z
  {
  }

  /** The panel of concatenated mappings is the concatenation of their
      panels: the filter keeps the mapping's order. */
  lemma {:induction false} PanelLinksAppend(a: seq<LinkEntry>, b: seq<LinkEntry>)
    ensures PanelLinks(a + b) == PanelLinks(a) + PanelLinks(b)
  {
    if a == [] {
      assert a + b == b;
    } else {
      var t := a[1..];
      assert (a + b)[0] == a[0] && (a + b)[1..] == t + b;
      calc {
        PanelLinks(a + b);
        LinkOf(a[0]) + PanelLinks(t + b);
        { PanelLinksAppend(t, b); }
        LinkOf(a[0]) + (PanelLinks(t) + PanelLinks(b));
        { AppendAssoc(LinkOf(a[0]), PanelLinks(t), PanelLinks(b)); }
        (LinkOf(a[0]) + PanelLinks(t)) + PanelLinks(b);
        PanelLinks(a) + PanelLinks(b);
      }
    }
  }

  /** Taking one more entry into account adds its link, if it qualifies. */
  lemma PanelLinksStep(entries: seq<LinkEntry>, i: nat)
    requires i < |entries|
    ensures PanelLinks(entries[..i + 1]) == PanelLinks(entries[..i]) + LinkOf(entries[i])
  {
    assert entries[..i + 1] == entries[..i] + [entries[i]];
    PanelLinksAppend(entries[..i], [entries[i]]);
    assert [entries[i]][1..] == [];
  }

  /** The link of a qualifying entry sits right after the links of the
      entries before it, so the panel lists exactly the qualifying entries
      in mapping order. */
  lemma LinkPosition(entries: seq<LinkEntry>, i: nat)
    requires i < |entries| && Qualifies(entries[i])
    ensures |PanelLinks(entries[..i])| < |PanelLinks(entries)|
    ensures PanelLinks(entries)[|PanelLinks(entries[..i])|] == MakeLink(entries[i])
  {
    assert entries == entries[..i] + ([entries[i]] + entries[i + 1..]);
    PanelLinksAppend(entries[..i], [entries[i]] + entries[i + 1..]);
    PanelLinksAppend([entries[i]], entries[i + 1..]);
    assert PanelLinks([entries[i]]) == [MakeLink(entries[i])] by {
      assert [entries[i]][1..] == [];
    }
  }

  /** The entry that link `k` of the panel was made from. */
  lemma {:induction false} LinkSource(entries: seq<LinkEntry>, k: nat) returns (i: nat)
    requires k < |PanelLinks(entries)|
    ensures i < |entries| && Qualifies(entries[i]) && PanelLinks(entries)[k] == MakeLink(entries[i])
  {
    var head := LinkOf(entries[0]);
    assert PanelLinks(entries) == head + PanelLinks(entries[1..]);
    if k < |head| {
      i := 0;
    } else {
      var j := LinkSource(entries[1..], k - |head|);
      assert entries[1..][j] == entries[j + 1];
      i := j + 1;
    }
  }

  /** Every link of the panel comes from a qualifying entry, annotated and
      titled from it, opening in a new context without opener or referrer. */
  lemma PanelLinksSound(entries: seq<LinkEntry>, k: nat)
    requires k < |PanelLinks(entries)|
    ensures exists i :: 0 <= i < |entries| && Qualifies(entries[i]) && PanelLinks(entries)[k] == MakeLink(entries[i])
    ensures PanelLinks(entries)[k].target == LinkTarget && PanelLinks(entries)[k].rel == LinkRel
  {
    var i := LinkSource(entries, k);
  }

  /** `createPlatformLinks(links)` as a value: `None` (the function's `null`)
      when `links` is absent or has no keys, or when no entry qualifies, so a
      panel is never empty. */
  function PlatformLinks(links: Option<seq<LinkEntry>>): (r: Option<seq<LinkUnit>>)
    ensures r.Some? ==> r.value != [] && links.Some? && r.value == PanelLinks(links.value)
    ensures r.None? <==> links.None? || !AnyQualifies(links.value)
  {
    if links.None? || links.value == [] then None
    else
      var ls := PanelLinks(links.value);
      PanelLinksEmptyIff(links.value);
      if ls == [] then None else Some(ls)
  }

  /** The titles the six registered platforms receive. */
  lemma RegistryTitles()
    ensures Capitalize("youtube") == "Youtube" && Capitalize("spotify") == "Spotify"
    ensures Capitalize("apple") == "Apple" && Capitalize("instagram") == "Instagram"
    ensures Capitalize("tiktok") == "Tiktok" && Capitalize("substack") == "Substack"
  {
  }

  /** `createPlatformLinks`: walks the entries, appending one link per
      qualifying entry, then returns the container only if it has children. */
  method CreatePlatformLinks(links: Option<seq<LinkEntry>>) returns (r: Option<seq<LinkUnit>>)
    ensures r == PlatformLinks(links)
  {
    if links.None? || |links.value| == 0 {
      return None;
    }
    var entries := links.value;
    var children: seq<LinkUnit> := [];
    for i := 0 to |entries|
      invariant children == PanelLinks(entries[..i])
    {
      var e := entries[i];
      PanelLinksStep(entries, i);
      if e.url.Some? && e.url.value != [] && e.platform in PlatformIcons {
        children := children + [MakeLink(e)];
      }
    }
    assert entries[..|entries|] == entries;
    r := if |children| > 0 then Some(children) else None;
  }
}
