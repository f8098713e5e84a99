# Static build of a bilingual personal site, modelled in Dafny

The repository renders a personal website in English and French from a JSON
content document and Jinja templates. Its one piece of logic with statable
behaviour is the static generator `build.py`:

- `toggle_lang` gives the language a page's switch link points to;
- the nested `url_for` turns an endpoint and its keyword values into a link
  relative to a page under `<lang>/`, through the fixed table
  `home → index.html`, `projects → projects.html` and a special case for
  `static`;
- `build()` wipes and recreates the build directory, copies the static
  directory and the favicon, renders each language's pages in a
  `for lang in ["en", "fr"]` loop that skips a language without content,
  and finally writes a root page that redirects to `en/index.html`.

The model:

- `optional.dfy` — `Option`, for keyword values that may be absent and a
  directory that may not exist.
- `json.dfy` — the content document (`map<string, Json>`) and Python's
  truth value of a decoded JSON value, which decides `if not data`.
- `lang.dfy` — the language list and `ToggleLang`.
- `routing.dfy` — `EndpointMap` and `UrlFor`, with the properties of each
  branch and injectivity of page links.
- `layout.dfy` — the output tree as a set of entries (`Dir(path)` or
  `File(path, body)`, where a body is a copy, a render with its template,
  language, content and request endpoint, or a redirect). `Build` is an
  imperative method that follows `build()` step by step and updates a local
  set of entries. It also records the printed warnings and notices, and
  where the run stops with an exception. It is proved equal to the
  specification function `Expected`.
- `layout_facts.dfy` — what `Expected` means, path by path. It states which
  files exist, what they hold, what is skipped, what is always written, and
  when the run fails.
- `links.dfy` — the links `UrlFor` produces, proved against the tree the
  build writes.

The language loop is folded by `LoopRun` over a prefix of the language list.
The loop invariant of `Build` is that its local state equals that fold. The
lemmas in `layout_facts.dfy` then state what the result means without
mentioning the fold. `CompletedFiles` gives an independent description of
every file of a completed run. The per-path lemmas (`RootIndexAlwaysWritten`,
`HomePageWrittenIff`, `ProjectsPageWrittenIff`, `StaticFilesCopied`,
`FaviconCopiedIff`, `CompletedWritesNothingElse`) follow from that
description. `CompletedDirectories`, `CompletedNotices`, `FailureCases` and
`FailedRunWritesNoPages` are proved from the two passes of the loop written
out (`CompletedShape`, `UnfoldLoop`).

Two behaviours of the code are worth noting. `toggle_lang` returns `"en"`
for every input other than `"en"`, unsupported codes included
(`ToggleOutsideLanguages`), so it swaps the two languages only on the pair
itself. A full build writes `favicon.ico` at the root in addition to the
root page and the four language pages whenever `static/favicon.ico` exists.
`FullBuild` leaves the favicon aside, and `FaviconCopiedIff` states when it
is written.

## Model

| member | source | states |
|---|---|---|
| `Lang.ToggleLang` | build.py:18-19 | the result is always "en" or "fr", and it is "fr" exactly when the input is "en" |
| `Lang.ToggleIsInvolutionOnLanguages` | build.py:18-19 | on "en" and "fr" the toggle gives the other supported language, and toggling twice returns the input |
| `Lang.ToggleOutsideLanguages` | build.py:19 | every code outside the pair toggles to "en", so outside the pair toggling twice does not return the input |
| `Routing.UrlFor` | build.py:56-69 | a static link is "../static/" plus the filename; a non-static request gives "#" exactly when the language is missing or empty or the endpoint is unmapped; every other link starts with "../" |
| `Routing.Interpolate` | build.py:58-59 | the f-string renders a present filename as itself and an absent one (`values.get` gives None) as "None" |
| `Routing.StaticLinkIgnoresLang` | build.py:57-59 | `url_for("static", filename=f)` is "../static/f" whatever language is passed |
| `Routing.StaticLinkWithoutFilename` | build.py:57-59 | a static link without a filename becomes "../static/None", from the f-string rendering of Python's None |
| `Routing.MissingLangGivesNoLink` | build.py:61-64 | a non-static endpoint with a missing or empty language gives "#" |
| `Routing.UnknownEndpointGivesNoLink` | build.py:66-69 | an endpoint that is neither static nor in the endpoint map gives "#" even when a language is given |
| `Routing.PageLink` | build.py:54-68 | a mapped endpoint with a non-empty language l gives "../l/" plus its file: home gives "../l/index.html", projects gives "../l/projects.html", and the filename is ignored |
| `Routing.PageLinksInjective` | build.py:54-68 | two page links are equal only when their endpoints and their languages are equal |
| `Json.FalsyValues` | build.py:85-86 | the content values that make a language count as missing are null, false, 0, "", [] and {} |
| `Json.Get` | build.py:85 | `content_data.get(lang)` gives a value exactly when the key is present, and that value is the one bound to the key |
| `Json.TruthyOrNone` | build.py:86 | the truth value `if not data` tests; an absent value (None) and a JSON null are falsy |
| `Json.HasContentIsTruthyGet` | build.py:85-86 | `HasContent` holds exactly when `content_data.get(lang)` is truthy, with an absent key giving None, which is falsy |
| `Layout.Build` | build.py:27-133 | the run's final tree, notices and failure equal `Expected(src)`, so they do not depend on the earlier build directory and no stale entry survives |
| `Layout.LangPass` | build.py:81-116 | one loop pass always creates `<lang>/`; without content it only adds the directory and a "no data" warning; it raises, with a missing home template, exactly when there is content and no home template, and then adds only the directory and prints nothing; otherwise it adds exactly the home page and, when its template exists, the projects page, and prints the projects-template notice exactly when that template is missing |
| `Layout.FailureIsFinal` | build.py:81-95 | after a pass raises, no later language is visited and the run's state stays as it was |
| `LayoutFacts.CompletedShape` | build.py:35-131 | a completed run's tree is the static directory and its copies, the favicon when present, the en/ and fr/ directories, each language's pages and the root page; its notices are the two languages' notices in loop order |
| `LayoutFacts.CompletedFiles` | build.py:39-131 | a completed run writes a given body at a given path exactly when the path is a static copy, the favicon, a page of a language with content (projects only with its template), or the root redirect |
| `LayoutFacts.RootIndexAlwaysWritten` | build.py:118-131 | a completed run always has exactly one file at index.html, and it redirects to en/index.html whatever the content |
| `LayoutFacts.HomePageWrittenIff` | build.py:81-100 | `<lang>/index.html` holds the home template rendered with that language and its content exactly when the content is truthy, and is absent otherwise |
| `LayoutFacts.ProjectsPageWrittenIff` | build.py:81-116 | `<lang>/projects.html` is written, from the projects template, exactly when the language has content and the template exists |
| `LayoutFacts.StaticFilesCopied` | build.py:39-41 | `static/f` holds a copy of the source file exactly when the static directory has `f`, and is absent otherwise |
| `LayoutFacts.FaviconCopiedIff` | build.py:43-46 | favicon.ico at the root holds a copy of static/favicon.ico exactly when that file exists |
| `LayoutFacts.CompletedWritesNothingElse` | build.py:35-131 | outside static/ a completed run writes only index.html, favicon.ico and the four language pages |
| `LayoutFacts.CompletedDirectories` | build.py:37-83 | a completed run's directories are exactly static, en and fr, even for a language without content |
| `LayoutFacts.FailureCases` | build.py:41-95 | the run fails with a missing static directory when there is none; otherwise it fails with a missing home.html exactly when that template is absent and some language has content; otherwise it completes |
| `LayoutFacts.FailedRunWritesNoPages` | build.py:41-133 | a failed run leaves only static copies and the favicon, with no language page, no root page and no completion message |
| `LayoutFacts.CompletedNotices` | build.py:85-133 | a completed run warns "no data" for exactly the languages without content, notes the missing projects template exactly when the template is absent and some page was rendered, and prints the completion message last |
| `LayoutFacts.FullBuild` | build.py:81-131 | with content for both languages and both templates, the files outside static/ other than the favicon are exactly index.html and the four language pages, and the only line printed is the completion message (no warning, no notice) |
| `LayoutFacts.MissingContentSkipsLanguage` | build.py:81-88 | a language without content still gets its directory, but no file in it, and a warning |
| `LayoutFacts.FrenchMissingEnglishBuilt` | build.py:81-100 | with English content and no French content, the English home page is written, no French one is, and only French is warned about |
| `Links.UrlForLinksResolve` | build.py:56-69 | every link `url_for` produces is either "#" or a "../" link that the page-relative resolution handles |
| `Links.NoLinkLeadsNowhere` | build.py:61-69 | the "#" placeholder is not resolved to any file of the tree (in a browser it stays on the current page) |
| `Links.PageLinkLeadsToRenderedPage` | build.py:54-116 | on a completed run, the link to a page of a language with content leads to the file rendered from that endpoint's template, in that language, with the request endpoint the link named |
| `Links.SwitchLinkLeadsToOtherLanguage` | build.py:18-116 | when both languages have content, the language-switch link leads to the same page rendered in the other language |
| `Links.StaticLinkLeadsToCopy` | build.py:39-59 | a static link leads to static/f, which holds a copy exactly when the static directory has f |

## Left out

- Loading `data/content.json` (file I/O and the JSON library). The document is an input value, and its top level is assumed to be an object.
- JSON numbers are integers. A float `0.0` would be falsy in Python and is not represented.
- Template rendering: Jinja, the templates themselves and the mock request object. A rendered page is represented by its template name, language, content and request endpoint, not by its text.
- Directory copying and creation beyond their effect on the set of entries. `static/` is represented by its set of file paths; its subdirectories are not listed as entries.
- The existence checks are inputs: the template names present and the static directory's file list. `os.path.exists` on the favicon is read as "favicon.ico is in the static file list".
- Only two exceptions are modelled: a missing static directory when `copytree` runs, and a missing `home.html` when `get_template` runs. Other I/O errors are not modelled, such as an unwritable build directory, a malformed template, or a template deleted between the existence check and `get_template`.
- The printed text of the warnings, the notice and the completion message. Each printed line is a `Notice` value in the run's notice list.
- `app.py`: Flask routing, the 404 guard on unknown languages, the favicon route and the server start. These are web-server wrappers. Its `toggle_lang` is the same function as `Lang.ToggleLang`.
- Keyword values of `url_for` other than `lang` and `filename`, and values of those keywords that are not strings.
- Link resolution (`Links.ResolveFromPage`) covers only links of the form "../rest", which is the form `url_for` produces. The rest is read as a path from the build root without normalising "." or ".." segments. Same-directory links are not resolved.
- Links.StaticLinkLeadsToCopy: reads `static/<f>` as a plain path. For a filename with ".." segments, a browser would reach a different file than the one the lemma names.
