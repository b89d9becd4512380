/** One episode record turned into an abstract card tree: an anchor id, a
    header, an optional description and an optional link panel. */
module Cards {

  import opened Wrappers
  import opened JsText
  import opened Episodes
  import opened LinkPanel

  /** The fallback icon text, kept exactly as the page ships it: the first
      six of the seven UTF-8 bytes of the studio-microphone emoji with its
      variation selector (F0 9F 8E 99 EF B8 8F), each read as a Windows-1252
      character; the seventh byte has no Windows-1252 character and is not
      in the text. */
  const DefaultGlyph: string := "\U{F0}\U{178}\U{17D}\U{2122}\U{EF}\U{B8}"

  /** The icon slot shows either an image or literal text. */
  datatype Icon = Image(src: string) | Glyph(text: string)

  /** The children of a card, in the order they are appended. */
  datatype Section =
    | Header(icon: Icon, ordinal: string, title: string)
    | Description(text: string)
    | Links(links: seq<LinkUnit>)

  datatype Card = Card(id: string, sections: seq<Section>)

  /** The anchor of an episode's card: `"ep"` followed by its number. */
  function CardId(n: int): string {
    "ep" + IntToString(n)
  }

  /** Two cards share an anchor only if they show the same episode number. */
  lemma CardIdInjective(a: int, b: int)
    ensures CardId(a) == CardId(b) <==> a == b
  {
    if CardId(a) == CardId(b) {
      assert IntToString(a) == CardId(a)[2..] == CardId(b)[2..] == IntToString(b);
      IntToStringInjective(a, b);
    }
  }

  /** The ordinal label of the header. */
  function EpisodeLabel(n: int): string {
    "Episode " + IntToString(n)
  }

  /** Icon resolution: a truthy icon starting with `http` is an image of that
      URL, any other truthy icon is shown as its own text, and a missing or
      empty icon falls back to the default glyph. */
  function ResolveIcon(icon: Option<string>): (r: Icon)
    ensures r.Image? <==> icon.Some? && StartsWith(icon.value, "http")
    ensures r.Image? ==> r.src == icon.value
    ensures r.Glyph? && icon.Some? && icon.value != [] ==> r.text == icon.value
    ensures icon.None? || icon.value == [] ==> r == Glyph(DefaultGlyph)
  {
    if icon.Some? && icon.value != [] then
      if StartsWith(icon.value, "http") then Image(icon.value) else Glyph(icon.value)
    else
      Glyph(DefaultGlyph)
  }

  /** The three icon cases on concrete values. */
  lemma ResolveIconExamples()
    ensures ResolveIcon(Some("https://x/y.png")) == Image("https://x/y.png")
    ensures ResolveIcon(Some("\U{1F399}")) == Glyph("\U{1F399}")
    ensures ResolveIcon(None) == Glyph(DefaultGlyph)
    ensures ResolveIcon(Some("")) == Glyph(DefaultGlyph)
  {
    assert "https://x/y.png"[..4] == "http";
  }

  /** `episode.description && episode.description.trim()`: a description is
      shown exactly when it is present and holds a non-whitespace character. */
  function HasDescription(d: Option<string>): (b: bool)
    ensures b <==> d.Some? && HasVisibleChar(d.value)
  {
    if d.Some? then TrimEmptyIff(d.value); d.value != [] && Trim(d.value) != [] else false
  }

  /** The description paragraph, when the description has visible text. */
  function DescriptionPart(d: Option<string>): (r: seq<Section>)
    ensures |r| <= 1 && forall i :: 0 <= i < |r| ==> r[i].Description?
    ensures r != [] <==> HasDescription(d)
    ensures r != [] ==> r[0] == Description(d.value)
  {
    if HasDescription(d) then [Description(d.value)] else []
  }

  /** The link panel, when `createPlatformLinks` builds one. */
  function PanelPart(links: Option<seq<LinkEntry>>): (r: seq<Section>)
    ensures |r| <= 1 && forall i :: 0 <= i < |r| ==> r[i].Links? && r[i].links != []
    ensures r != [] <==> links.Some? && AnyQualifies(links.value)
    ensures r != [] ==> r[0] == Links(PanelLinks(links.value))
  {
    match PlatformLinks(links)
    case Some(ls) => [Links(ls)]
    case None => []
  }

  /** `createEpisodeCard(episode)` as a value: anchored at the episode's id,
      with the header as its first child. */
  function EpisodeCard(e: Episode): (c: Card)
    ensures c.id == CardId(e.episode)
    ensures |c.sections| >= 1 && c.sections[0].Header?
  {
    var header := Header(ResolveIcon(e.icon), EpisodeLabel(e.episode), e.title);
    Card(CardId(e.episode), [header] + DescriptionPart(e.description) + PanelPart(e.links))
  }

  /** The children of a card, as the concatenation of its three parts. */
  lemma CardSections(e: Episode)
    ensures EpisodeCard(e).sections
      == [Header(ResolveIcon(e.icon), EpisodeLabel(e.episode), e.title)] + DescriptionPart(e.description) + PanelPart(e.links)
  {
  }

  /** The children of a card: the header (icon, label and title), then the
      untrimmed description when it has visible text, then the link panel
      when one was built. */
  lemma CardLayout(e: Episode)
    ensures var c := EpisodeCard(e);
      && |c.sections| == 1 + (if HasDescription(e.description) then 1 else 0)
                          + (if PlatformLinks(e.links).Some? then 1 else 0)
      && c.sections[0] == Header(ResolveIcon(e.icon), EpisodeLabel(e.episode), e.title)
      && (HasDescription(e.description) ==> c.sections[1] == Description(e.description.value))
      && (PlatformLinks(e.links).Some? ==> c.sections[|c.sections| - 1] == Links(PlatformLinks(e.links).value))
  {
    var d, p := DescriptionPart(e.description), PanelPart(e.links);
    var ss := EpisodeCard(e).sections;
    CardSections(e);
    if d != [] {
      assert ss[1] == d[0];
    }
    if p != [] {
      assert ss[|ss| - 1] == p[0];
    }
  }

  /** Where each kind of section sits: the header first, the description
      parts next, the panel parts last. */
  lemma SectionKinds(e: Episode, i: nat)
    requires i < |EpisodeCard(e).sections|
    ensures var ss := EpisodeCard(e).sections; var nd := |DescriptionPart(e.description)|;
      && (ss[i].Header? <==> i == 0)
      && (ss[i].Description? <==> 1 <= i < 1 + nd)
      && (ss[i].Links? <==> 1 + nd <= i)
      && (ss[i].Links? ==> ss[i].links != [] && i == |ss| - 1)
  {
    var d, p := DescriptionPart(e.description), PanelPart(e.links);
    var ss := EpisodeCard(e).sections;
    CardSections(e);
    if i == 0 {
    } else if i < 1 + |d| {
      assert ss[i] == d[i - 1];
    } else {
      assert ss[i] == p[i - 1 - |d|];
    }
  }

  /** The header is the only header: no later section is one. */
  lemma CardHeaderOnce(e: Episode)
    ensures forall i :: 1 <= i < |EpisodeCard(e).sections| ==> !EpisodeCard(e).sections[i].Header?
  {
    forall i | 1 <= i < |EpisodeCard(e).sections| ensures !EpisodeCard(e).sections[i].Header? {
      SectionKinds(e, i);
    }
  }

  /** A card holds a description exactly when the record's description has
      a non-whitespace character. */
  lemma CardDescriptionIff(e: Episode)
    ensures (exists i :: 0 <= i < |EpisodeCard(e).sections| && EpisodeCard(e).sections[i].Description?)
        <==> e.description.Some? && HasVisibleChar(e.description.value)
  {
    var ss := EpisodeCard(e).sections;
    if HasDescription(e.description) {
      SectionKinds(e, 1);
    } else {
      forall i | 0 <= i < |ss| ensures !ss[i].Description? {
        SectionKinds(e, i);
      }
    }
  }

  /** A card holds a link panel exactly when some link entry has a URL and a
      registered platform; the panel is then non-empty and the last section. */
  lemma CardLinkPanelIff(e: Episode)
    ensures (exists i :: 0 <= i < |EpisodeCard(e).sections| && EpisodeCard(e).sections[i].Links?)
        <==> e.links.Some? && AnyQualifies(e.links.value)
    ensures forall i :: 0 <= i < |EpisodeCard(e).sections| && EpisodeCard(e).sections[i].Links? ==>
        i == |EpisodeCard(e).sections| - 1 && EpisodeCard(e).sections[i].links != []
  {
    var ss := EpisodeCard(e).sections;
    forall i | 0 <= i < |ss| ensures ss[i].Links? ==> i == |ss| - 1 && ss[i].links != [] {
      SectionKinds(e, i);
    }
    if PanelPart(e.links) != [] {
      SectionKinds(e, |ss| - 1);
    } else {
      forall i | 0 <= i < |ss| ensures !ss[i].Links? {
        SectionKinds(e, i);
      }
    }
  }

  /** `createEpisodeCard`: appends the header, then the description if it has
      visible text, then the link panel if one was built. */
  method CreateEpisodeCard(e: Episode) returns (c: Card)
    ensures c == EpisodeCard(e)
  {
    var sections := [Header(ResolveIcon(e.icon), EpisodeLabel(e.episode), e.title)];
    if e.description.Some? && e.description.value != [] && Trim(e.description.value) != [] {
      sections := sections + [Description(e.description.value)];
    }
    var panel := CreatePlatformLinks(e.links);
    if panel.Some? {
      sections := sections + [Links(panel.value)];
    }
    c := Card(CardId(e.episode), sections);
  }
}
