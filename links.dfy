/**
 * The links `url_for` puts into a page under `<lang>/` against the tree
 * the build writes: a page link leads to the file rendered for that
 * endpoint and language, a static link to the copied asset.
 */
module Links {

  import opened Optional
  import opened Json
  import opened Lang
  import opened Routing
  import opened Layout
  import opened LayoutFacts

  /** The template each page endpoint is rendered from. */
  const TemplateFor: map<string, string> := map["home" := HomeTemplate, "projects" := ProjectsTemplate]

  /**
   * Where a "../" link on a page one directory below the build root leads:
   * the rest of the link, read as a path from the build root. Links of any
   * other form, and "." or ".." segments inside the rest, are not resolved.
   */
  function ResolveFromPage(link: string): (target: Option<string>)
    ensures target.Some? <==> |link| >= 3 && link[..3] == "../"
    ensures target.Some? ==> "../" + target.value == link
  {
    if |link| >= 3 && link[..3] == "../" then Some(link[3..]) else None
  }

  /** Every link `url_for` produces is either the placeholder or a "../" link that `ResolveFromPage` resolves. */
  lemma UrlForLinksResolve(endpoint: string, lang: Option<string>, filename: Option<string>)
    ensures ResolveFromPage(UrlFor(endpoint, lang, filename)).None? <==> UrlFor(endpoint, lang, filename) == NoLink
  {
  }

  /** The placeholder link leads nowhere. */
  lemma NoLinkLeadsNowhere()
    ensures ResolveFromPage(NoLink) == None
  {
  }

  lemma PageLinkTarget(endpoint: string, lang: string)
    requires endpoint in EndpointMap && lang != ""
    ensures ResolveFromPage(UrlFor(endpoint, Some(lang), None)) == Some(lang + "/" + EndpointMap[endpoint])
  {
    var link := UrlFor(endpoint, Some(lang), None);
    assert link == "../" + (lang + "/" + EndpointMap[endpoint]);
    assert link[3..] == lang + "/" + EndpointMap[endpoint];
  }

  /**
   * On a completed build, a link to a page of a language with content leads to
   * the file rendered from that endpoint's template, in that language, with
   * that language's content.
   */
  lemma PageLinkLeadsToRenderedPage(src: Sources, endpoint: string, lang: string)
    requires Expected(src).failure.None?
    requires endpoint in EndpointMap && lang in Languages && HasContent(src.content, lang)
    requires endpoint == "projects" ==> ProjectsTemplate in src.templates
    ensures var target := ResolveFromPage(UrlFor(endpoint, Some(lang), None));
      && target.Some?
      && FilesAt(Expected(src).tree, target.value) ==
         {Rendered(TemplateFor[endpoint], lang, src.content[lang], endpoint)}
  {
    PageLinkTarget(endpoint, lang);
    if endpoint == "home" {
      assert lang + "/" + EndpointMap[endpoint] == lang + "/index.html";
      HomePageWrittenIff(src, lang);
    } else {
      assert lang + "/" + EndpointMap[endpoint] == lang + "/projects.html";
      ProjectsPageWrittenIff(src, lang);
    }
  }

  /**
   * When both languages have content, the language-switch link of a page
   * leads to the same page rendered in the other language.
   */
  lemma SwitchLinkLeadsToOtherLanguage(src: Sources, endpoint: string, lang: string)
    requires Expected(src).failure.None?
    requires HasContent(src.content, "en") && HasContent(src.content, "fr")
    requires endpoint in EndpointMap && lang in Languages
    requires endpoint == "projects" ==> ProjectsTemplate in src.templates
    ensures var other := ToggleLang(lang);
      var target := ResolveFromPage(UrlFor(endpoint, Some(other), None));
      && other != lang
      && target.Some?
      && FilesAt(Expected(src).tree, target.value) ==
         {Rendered(TemplateFor[endpoint], other, src.content[other], endpoint)}
  {
    ToggleIsInvolutionOnLanguages(lang);
    PageLinkLeadsToRenderedPage(src, endpoint, ToggleLang(lang));
  }

  /** A static link leads to `static/<file>`, which holds a copy exactly when the static directory has that file. */
  lemma StaticLinkLeadsToCopy(src: Sources, lang: Option<string>, file: string)
    requires Expected(src).failure.None?
    ensures src.staticDir.Some?
    ensures var target := ResolveFromPage(UrlFor(StaticEndpoint, lang, Some(file)));
      && target == Some("static/" + file)
      && FilesAt(Expected(src).tree, target.value) ==
         if file in src.staticDir.value then {Copied("static/" + file)} else {}
  {
    var link := UrlFor(StaticEndpoint, lang, Some(file));
    assert link == "../" + ("static/" + file);
    assert link[3..] == "static/" + file;
    StaticFilesCopied(src, file);
  }
}
