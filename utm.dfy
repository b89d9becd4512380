/** Tagging of outbound links with the site's fixed tracking parameters. */
module Utm {

  import opened Wrappers

  const UtmSource: string := "tms.show"
  const UtmMedium: string := "episode-card"
  const UtmCampaign: string := "podcast-discovery"

  /** The fixed query string appended to every outbound platform link. */
  const UtmQuery: string :=
    "utm_source=" + UtmSource + "&utm_medium=" + UtmMedium + "&utm_campaign=" + UtmCampaign

  /** `&` when the URL already carries a query (contains `?`), else `?`. */
  function Separator(url: string): char {
    if '?' in url then '&' else '?'
  }

  /** `addUTMParams(url)`: the empty (falsy) URL is returned as it is; any
      other URL is kept as a prefix and followed by the separator and the
      tracking query. */
  function AddUtmParams(url: string): (r: string)
    ensures url == [] ==> r == url
    ensures url != [] ==> |r| == |url| + 1 + |UtmQuery| && r[..|url|] == url && r[|url| + 1..] == UtmQuery
    ensures url != [] ==> (r[|url|] == '&' <==> '?' in url) && (r[|url|] == '?' <==> '?' !in url)
  {
    if url == [] then url else url + [Separator(url)] + UtmQuery
  }

  /** Recovers the URL that `AddUtmParams` annotated, if `r` is one of its
      results for a non-empty URL. */
  function StripUtmParams(r: string): (u: Option<string>)
  {
    if |r| < 2 + |UtmQuery| then None
    else
      var n := |r| - 1 - |UtmQuery|;
      if r[n + 1..] == UtmQuery && r[n] == Separator(r[..n]) then Some(r[..n]) else None
  }

  /** Stripping is the exact inverse of annotating a non-empty URL. */
  lemma StripUtmParamsInverse(u: string, r: string)
    ensures StripUtmParams(r) == Some(u) <==> u != [] && r == AddUtmParams(u)
  {
    if u != [] && r == AddUtmParams(u) {
      assert r[..|u|] == u;
    }
    if StripUtmParams(r) == Some(u) {
      var n := |r| - 1 - |UtmQuery|;
      assert r == r[..n] + [r[n]] + r[n + 1..];
    }
  }

  /** Annotating twice appends the tracking query twice (the second time
      after `&`, because the first result always holds a `?`): the
      annotation is not idempotent. */
  lemma AnnotateTwice(u: string)
    requires u != []
    ensures AddUtmParams(AddUtmParams(u)) == AddUtmParams(u) + "&" + UtmQuery
    ensures AddUtmParams(AddUtmParams(u)) != AddUtmParams(u)
  {
    var once := AddUtmParams(u);
    if '?' in u {
      var i :| 0 <= i < |u| && u[i] == '?';
      assert once[i] == '?';
    } else {
      assert once[|u|] == '?';
    }
  }

  /** The first two parameters of the tracking query, spelled out. */
  lemma UtmQueryHead()
    ensures "utm_source=" + UtmSource + "&utm_medium=" + UtmMedium
      == "utm_source=tms.show&utm_medium=episode-card"
  {
    assert "utm_source=" + UtmSource == "utm_source=tms.show";
    assert "utm_source=tms.show" + "&utm_medium=" == "utm_source=tms.show&utm_medium=";
  }

  /** The tracking query as it appears in every annotated link. */
  lemma UtmQueryText()
    ensures UtmQuery == "utm_source=tms.show&utm_medium=episode-card&utm_campaign=podcast-discovery"
  {
    UtmQueryHead();
    assert "utm_source=tms.show&utm_medium=episode-card" + "&utm_campaign="
      == "utm_source=tms.show&utm_medium=episode-card&utm_campaign=";
    assert "utm_source=tms.show&utm_medium=episode-card&utm_campaign=" + UtmCampaign
      == "utm_source=tms.show&utm_medium=episode-card&utm_campaign=podcast-discovery";
  }

  /** The two separator cases on concrete URLs. */
  lemma AnnotateExamples()
    ensures AddUtmParams("https://a.com/p") == "https://a.com/p?" + UtmQuery
    ensures AddUtmParams("https://a.com/p?x=1") == "https://a.com/p?x=1&" + UtmQuery
  {
    assert Separator("https://a.com/p") == '?' by {
      assert forall i :: 0 <= i < |"https://a.com/p"| ==> "https://a.com/p"[i] != '?';
    }
    assert Separator("https://a.com/p?x=1") == '&' by {
      assert "https://a.com/p?x=1"[15] == '?';
    }
  }
}
