/**
 * The link resolver the static build gives its templates: an endpoint and
 * its keyword values become a path relative to a page in `<lang>/`.
 */
module Routing {

  import opened Optional

  /** `endpoint_map`: page endpoint to the file name the build writes for it. */
  const EndpointMap: map<string, string> := map["home" := "index.html", "projects" := "projects.html"]

  /** The endpoint that names a file under the static directory. */
  const StaticEndpoint: string := "static"

  /** The placeholder link returned when no target can be resolved. */
  const NoLink: string := "#"

  /** How Python's f-string renders an optional keyword value: an absent one prints as `None`. */
  function Interpolate(v: Option<string>): (text: string)
    ensures v.Some? ==> text == v.value
    ensures v.None? ==> text == "None"
  {
    match v
    case Some(s) => s
    case None => "None"
  }

  /**
   * `url_for(endpoint, lang=..., filename=...)`. A static link ignores the
   * language; a page link needs a non-empty language and a mapped endpoint,
   * and every other request gives the placeholder.
   */
  function UrlFor(endpoint: string, lang: Option<string>, filename: Option<string>): (link: string)
    ensures endpoint == StaticEndpoint ==> link == "../static/" + Interpolate(filename)
    ensures endpoint != StaticEndpoint ==>
      (link == NoLink <==> lang.None? || lang.value == "" || endpoint !in EndpointMap)
    ensures link != NoLink ==> |link| > 3 && link[..3] == "../"
  {
    if endpoint == StaticEndpoint then
      "../static/" + Interpolate(filename)
    else if lang.None? || lang.value == "" then
      NoLink
    else if endpoint in EndpointMap && EndpointMap[endpoint] != "" then
      "../" + lang.value + "/" + EndpointMap[endpoint]
    else
      NoLink
  }

  /** A static link is `../static/<filename>` whatever language is passed. */
  lemma StaticLinkIgnoresLang(lang: Option<string>, file: string)
    ensures UrlFor(StaticEndpoint, lang, Some(file)) == "../static/" + file
    ensures UrlFor(StaticEndpoint, lang, Some(file)) == UrlFor(StaticEndpoint, None, Some(file))
  {
  }

  /** A static link without a filename names the file `None`, as Python's f-string prints a missing value. */
  lemma StaticLinkWithoutFilename(lang: Option<string>)
    ensures UrlFor(StaticEndpoint, lang, None) == "../static/None"
  {
  }

  /** A page link without a language, or with the empty one, is the placeholder. */
  lemma MissingLangGivesNoLink(endpoint: string, lang: Option<string>, filename: Option<string>)
    requires endpoint != StaticEndpoint
    requires lang.None? || lang.value == ""
    ensures UrlFor(endpoint, lang, filename) == NoLink
  {
  }

  /** An endpoint that is neither static nor mapped gives the placeholder even with a language. */
  lemma UnknownEndpointGivesNoLink(endpoint: string, lang: string, filename: Option<string>)
    requires endpoint != StaticEndpoint && endpoint !in EndpointMap
    ensures UrlFor(endpoint, Some(lang), filename) == NoLink
  {
  }

  /** A mapped endpoint with a non-empty language links to `../<lang>/<file>`. */
  lemma PageLink(endpoint: string, lang: string, filename: Option<string>)
    requires endpoint in EndpointMap && lang != ""
    ensures UrlFor(endpoint, Some(lang), filename) == "../" + lang + "/" + EndpointMap[endpoint]
    ensures endpoint == "home" ==> UrlFor(endpoint, Some(lang), filename) == "../" + lang + "/index.html"
    ensures endpoint == "projects" ==> UrlFor(endpoint, Some(lang), filename) == "../" + lang + "/projects.html"
  {
  }

  /** The character eleven places from the end of a page link tells the two page files apart. */
  lemma PageLinkMarker(lang: string, page: string)
    requires page in EndpointMap.Values
    ensures var link := "../" + lang + "/" + page;
      |link| >= 11 && link[|link| - 11] == (if page == "index.html" then '/' else 'o')
  {
  }

  /** Distinct (endpoint, language) pairs get distinct page links, so a link names one page in one language. */
  lemma PageLinksInjective(e1: string, l1: string, e2: string, l2: string)
    requires e1 in EndpointMap && e2 in EndpointMap && l1 != "" && l2 != ""
    requires UrlFor(e1, Some(l1), None) == UrlFor(e2, Some(l2), None)
    ensures e1 == e2 && l1 == l2
  {
    var link := UrlFor(e1, Some(l1), None);
    var p1, p2 := EndpointMap[e1], EndpointMap[e2];
    PageLinkMarker(l1, p1);
    PageLinkMarker(l2, p2);
    assert p1 == p2;
    assert l1 == link[3..3 + |l1|];
    assert l2 == link[3..3 + |l2|];
  }
}
