/**
 * The output tree of one run of the static build. Rendering and copying are
 * abstracted to "this file is written with this body"; the model keeps the
 * order of the steps, the per-language skip rule and the points where the
 * run stops with an exception.
 */
module Layout {

  import opened Optional
  import opened Json
  import opened Lang

  /** What a written file holds. */
  datatype Body =
    | Copied(source: string)
    | Rendered(template: string, lang: string, content: Json, endpoint: string)
    | Redirect(target: string)

  /** An entry of the build directory, by its path relative to that directory. */
  datatype Entry = Dir(path: string) | File(path: string, body: Body)

  /** What the build reads: the content document, the template names and the static directory (absent or its file paths). */
  datatype Sources = Sources(content: Document, templates: set<string>, staticDir: Option<set<string>>)

  /** A line the run prints: a warning or notice it continues after, or the completion message. */
  datatype Notice = NoData(lang: string) | ProjectsTemplateMissing | BuildCompleted

  /** An exception that ends the run early. */
  datatype Failure = StaticDirMissing | TemplateNotFound(name: string)

  /** The build directory when the run ends, what it printed, and whether it stopped early. */
  datatype Run = Run(tree: set<Entry>, notices: seq<Notice>, failure: Option<Failure>)

  const HomeTemplate: string := "home.html"
  const ProjectsTemplate: string := "projects.html"

  /** The root page, which sends the browser to the default language's home page. */
  const RootIndex: Entry := File("index.html", Redirect("en/index.html"))

  /** `copytree(static, build/static)`: every file of the static directory, under `static/`. */
  function StaticCopy(files: set<string>): set<Entry>
  {
    set f | f in files :: File("static/" + f, Copied("static/" + f))
  }

  /** The copy of `static/favicon.ico` at the root of the build directory. */
  const FaviconCopy: Entry := File("favicon.ico", Copied("static/favicon.ico"))

  /** `<lang>/index.html`, rendered from the home template with that language's content. */
  function HomePage(doc: Document, lang: string): Entry
    requires lang in doc
  {
    File(lang + "/index.html", Rendered(HomeTemplate, lang, doc[lang], "home"))
  }

  /** `<lang>/projects.html`, rendered from the projects template with that language's content. */
  function ProjectsPage(doc: Document, lang: string): Entry
    requires lang in doc
  {
    File(lang + "/projects.html", Rendered(ProjectsTemplate, lang, doc[lang], "projects"))
  }

  /** The tree after the static copy and the favicon copy, before the language loop. */
  function Prelude(files: set<string>): set<Entry>
  {
    {Dir("static")} + StaticCopy(files) + (if "favicon.ico" in files then {FaviconCopy} else {})
  }

  /** One pass of the loop body for `lang`, from a run that has not failed. */
  function LangPass(src: Sources, r: Run, lang: string): (next: Run)
    requires r.failure.None?
    ensures r.tree + {Dir(lang)} <= next.tree
    ensures next.failure.Some? <==> HasContent(src.content, lang) && HomeTemplate !in src.templates
    ensures next.failure.Some? ==>
      next.tree == r.tree + {Dir(lang)} && next.notices == r.notices
      && next.failure == Some(TemplateNotFound(HomeTemplate))
    ensures !HasContent(src.content, lang) ==>
      next.tree == r.tree + {Dir(lang)} && next.notices == r.notices + [NoData(lang)]
    ensures next.failure.None? && HasContent(src.content, lang) ==>
      next.tree == r.tree + {Dir(lang), HomePage(src.content, lang)}
        + (if ProjectsTemplate in src.templates then {ProjectsPage(src.content, lang)} else {})
    ensures next.failure.None? && HasContent(src.content, lang) ==>
      next.notices == r.notices + (if ProjectsTemplate in src.templates then [] else [ProjectsTemplateMissing])
  {
    var tree := r.tree + {Dir(lang)};
    if !HasContent(src.content, lang) then
      Run(tree, r.notices + [NoData(lang)], None)
    else if HomeTemplate !in src.templates then
      Run(tree, r.notices, Some(TemplateNotFound(HomeTemplate)))
    else if ProjectsTemplate in src.templates then
      Run(tree + {HomePage(src.content, lang), ProjectsPage(src.content, lang)}, r.notices, None)
    else
      Run(tree + {HomePage(src.content, lang)}, r.notices + [ProjectsTemplateMissing], None)
  }

  /** The run after the loop has visited `langs` in order; a failed pass ends it. */
  function LoopRun(src: Sources, langs: seq<string>): Run
    requires src.staticDir.Some?
  {
    if langs == [] then
      Run(Prelude(src.staticDir.value), [], None)
    else
      var r := LoopRun(src, langs[..|langs| - 1]);
      if r.failure.Some? then r else LangPass(src, r, langs[|langs| - 1])
  }

  /** The outcome of a whole run: it depends on the sources alone, never on an earlier build directory. */
  function Expected(src: Sources): Run
  {
    if src.staticDir.None? then
      Run({}, [], Some(StaticDirMissing))
    else
      var r := LoopRun(src, Languages);
      if r.failure.Some? then r else Run(r.tree + {RootIndex}, r.notices + [BuildCompleted], None)
  }

  /** Once a pass has failed, later languages are not visited. */
  lemma {:induction false} FailureIsFinal(src: Sources, langs: seq<string>, k: nat)
    requires src.staticDir.Some? && k <= |langs|
    requires LoopRun(src, langs[..k]).failure.Some?
    ensures LoopRun(src, langs) == LoopRun(src, langs[..k])
  {
    if k < |langs| {
      assert langs[..|langs| - 1][..k] == langs[..k];
      FailureIsFinal(src, langs[..|langs| - 1], k);
      assert langs[..|langs|] == langs;
    } else {
      assert langs[..k] == langs;
    }
  }

  /**
   * `build()`: wipe the build directory if it exists, recreate it, copy the
   * static files and the favicon, render each language's pages, then write
   * the root redirect. `previous` is the build directory left by an earlier
   * run (None when there is none).
   */
  method Build(src: Sources, previous: Option<set<Entry>>) returns (run: Run)
    ensures run == Expected(src)
  {
    var buildDir := previous;
    if buildDir.Some? {
      buildDir := None;                    // rmtree
    }
    if buildDir.None? {
      buildDir := Some({});                // ensure_dir
    }
    var tree := buildDir.value;
    if src.staticDir.None? {
      return Run(tree, [], Some(StaticDirMissing));
    }
    var files := src.staticDir.value;
    tree := tree + {Dir("static")} + StaticCopy(files);
    if "favicon.ico" in files {
      tree := tree + {FaviconCopy};
    }
    var notices: seq<Notice> := [];
    for i := 0 to |Languages|
      invariant LoopRun(src, Languages[..i]) == Run(tree, notices, None)
    {
      var lang := Languages[i];
      assert Languages[..i + 1][..i] == Languages[..i];
      tree := tree + {Dir(lang)};          // ensure_dir(lang_dir)
      var data := Get(src.content, lang);
      HasContentIsTruthyGet(src.content, lang);
      if !TruthyOrNone(data) {
        notices := notices + [NoData(lang)];
        continue;
      }
      if HomeTemplate !in src.templates {
        run := Run(tree, notices, Some(TemplateNotFound(HomeTemplate)));
        FailureIsFinal(src, Languages, i + 1);
        return;
      }
      tree := tree + {HomePage(src.content, lang)};
      if ProjectsTemplate in src.templates {
        tree := tree + {ProjectsPage(src.content, lang)};
      } else {
        notices := notices + [ProjectsTemplateMissing];
      }
    }
    assert Languages[..|Languages|] == Languages;
    tree := tree + {RootIndex};
    notices := notices + [BuildCompleted];
    run := Run(tree, notices, None);
  }
}
