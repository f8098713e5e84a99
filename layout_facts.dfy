/**
 * What a run of the build leaves in the build directory, stated path by
 * path: which files exist, what each holds, what is skipped, and what is
 * always written.
 */
module LayoutFacts {

  import opened Optional
  import opened Json
  import opened Lang
  import opened Layout

  /** The bodies of the files at `path` (empty when no file is written there). */
  function FilesAt(tree: set<Entry>, path: string): set<Body>
  {
    set e | e in tree && e.File? && e.path == path :: e.body
  }

  /** The directories of the tree. */
  function DirsOf(tree: set<Entry>): set<string>
  {
    set e | e in tree && e.Dir? :: e.path
  }

  /** A path under the copied static directory. */
  predicate InStatic(path: string)
  {
    |path| >= 7 && path[..7] == "static/"
  }

  /** The language pages the build can write. */
  const PagePaths: set<string> := {"en/index.html", "en/projects.html", "fr/index.html", "fr/projects.html"}

  /** The pages a language contributes when its pass succeeds. */
  function PagesOf(src: Sources, lang: string): set<Entry>
  {
    if !HasContent(src.content, lang) then {}
    else if ProjectsTemplate in src.templates then {HomePage(src.content, lang), ProjectsPage(src.content, lang)}
    else {HomePage(src.content, lang)}
  }

  /** The notices a language's pass prints when it succeeds. */
  function NoticesOf(src: Sources, lang: string): seq<Notice>
  {
    if !HasContent(src.content, lang) then [NoData(lang)]
    else if ProjectsTemplate in src.templates then []
    else [ProjectsTemplateMissing]
  }

  /** The loop over ["en", "fr"] written out as its two passes. */
  lemma UnfoldLoop(src: Sources)
    requires src.staticDir.Some?
    ensures LoopRun(src, Languages[..1]) == LangPass(src, Run(Prelude(src.staticDir.value), [], None), "en")
    ensures var first := LoopRun(src, Languages[..1]);
      LoopRun(src, Languages) == if first.failure.Some? then first else LangPass(src, first, "fr")
  {
  }

  /** A completed run's tree and notices, assembled from the fixed parts and each language's pages. */
  lemma CompletedShape(src: Sources)
    requires Expected(src).failure.None?
    ensures src.staticDir.Some?
    ensures Expected(src).tree ==
      Prelude(src.staticDir.value) + {Dir("en"), Dir("fr")} + PagesOf(src, "en") + PagesOf(src, "fr") + {RootIndex}
    ensures Expected(src).notices == NoticesOf(src, "en") + NoticesOf(src, "fr") + [BuildCompleted]
  {
    UnfoldLoop(src);
  }

  /** Language `lang`'s pass writes `body` at `path`. */
  predicate PageWritten(src: Sources, lang: string, path: string, body: Body)
  {
    && HasContent(src.content, lang)
    && ((path == lang + "/index.html" && body == Rendered(HomeTemplate, lang, src.content[lang], "home"))
        || (ProjectsTemplate in src.templates
            && path == lang + "/projects.html" && body == Rendered(ProjectsTemplate, lang, src.content[lang], "projects")))
  }

  /** Independent description of the files of a completed run whose static directory holds `files`. */
  predicate Written(src: Sources, files: set<string>, path: string, body: Body)
  {
    || (InStatic(path) && path[7..] in files && body == Copied(path))
    || ("favicon.ico" in files && path == "favicon.ico" && body == Copied("static/favicon.ico"))
    || PageWritten(src, "en", path, body)
    || PageWritten(src, "fr", path, body)
    || (path == "index.html" && body == Redirect("en/index.html"))
  }

  lemma StaticCopyMembership(files: set<string>, path: string, body: Body)
    ensures File(path, body) in StaticCopy(files) <==> InStatic(path) && path[7..] in files && body == Copied(path)
  {
    if InStatic(path) && path[7..] in files && body == Copied(path) {
      assert "static/" + path[7..] == path;
    }
  }

  /** A completed run writes exactly the files `Written` describes: the static copy, the favicon, each language's pages, the root page. */
  lemma CompletedFiles(src: Sources, path: string, body: Body)
    requires Expected(src).failure.None?
    ensures src.staticDir.Some?
    ensures File(path, body) in Expected(src).tree <==> Written(src, src.staticDir.value, path, body)
  {
    CompletedShape(src);
    StaticCopyMembership(src.staticDir.value, path, body);
  }

  lemma FilesAtMembership(tree: set<Entry>, path: string, body: Body)
    ensures body in FilesAt(tree, path) <==> File(path, body) in tree
  {
  }

  /** A completed run always writes the root page, and it redirects to en/index.html whatever the content. */
  lemma RootIndexAlwaysWritten(src: Sources)
    requires Expected(src).failure.None?
    ensures FilesAt(Expected(src).tree, "index.html") == {Redirect("en/index.html")}
  {
    assert !InStatic("index.html") by { assert "index.html"[..7][0] == 'i'; }
    forall body ensures body in FilesAt(Expected(src).tree, "index.html") <==> body == Redirect("en/index.html") {
      CompletedFiles(src, "index.html", body);
      FilesAtMembership(Expected(src).tree, "index.html", body);
    }
  }

  /** A language page path starts with the language's first letter, so it is neither under static/ nor the other language's. */
  lemma LanguagePathFacts(lang: string, page: string)
    requires lang in Languages
    ensures var path := lang + "/" + page;
      && !InStatic(path)
      && path[0] == lang[0]
      && |path| == 3 + |page|
  {
  }

  /** `<lang>/index.html` holds the home page rendered with the language's content exactly when that content is truthy. */
  lemma HomePageWrittenIff(src: Sources, lang: string)
    requires Expected(src).failure.None?
    requires lang in Languages
    ensures FilesAt(Expected(src).tree, lang + "/index.html") ==
      if HasContent(src.content, lang) then {Rendered(HomeTemplate, lang, src.content[lang], "home")} else {}
  {
    var path := lang + "/index.html";
    assert path == lang + "/" + "index.html";
    LanguagePathFacts(lang, "index.html");
    LanguagePathFacts(lang, "projects.html");
    forall body ensures body in FilesAt(Expected(src).tree, path) <==>
      HasContent(src.content, lang) && body == Rendered(HomeTemplate, lang, src.content[lang], "home")
    {
      CompletedFiles(src, path, body);
      FilesAtMembership(Expected(src).tree, path, body);
    }
  }

  /** `<lang>/projects.html` is written exactly when the language has content and the projects template exists. */
  lemma ProjectsPageWrittenIff(src: Sources, lang: string)
    requires Expected(src).failure.None?
    requires lang in Languages
    ensures FilesAt(Expected(src).tree, lang + "/projects.html") ==
      if HasContent(src.content, lang) && ProjectsTemplate in src.templates
      then {Rendered(ProjectsTemplate, lang, src.content[lang], "projects")} else {}
  {
    var path := lang + "/projects.html";
    assert path == lang + "/" + "projects.html";
    LanguagePathFacts(lang, "index.html");
    LanguagePathFacts(lang, "projects.html");
    forall body ensures body in FilesAt(Expected(src).tree, path) <==>
      HasContent(src.content, lang) && ProjectsTemplate in src.templates
      && body == Rendered(ProjectsTemplate, lang, src.content[lang], "projects")
    {
      CompletedFiles(src, path, body);
      FilesAtMembership(Expected(src).tree, path, body);
    }
  }

  /** Every file of the static directory is copied under static/, and nothing else is written there. */
  lemma StaticFilesCopied(src: Sources, file: string)
    requires Expected(src).failure.None?
    ensures src.staticDir.Some?
    ensures FilesAt(Expected(src).tree, "static/" + file) ==
      if file in src.staticDir.value then {Copied("static/" + file)} else {}
  {
    var path := "static/" + file;
    assert path[..7] == "static/" && path[7..] == file;
    assert path[0] == 's';
    LanguagePathFacts("en", "index.html");
    LanguagePathFacts("en", "projects.html");
    LanguagePathFacts("fr", "index.html");
    LanguagePathFacts("fr", "projects.html");
    forall body ensures body in FilesAt(Expected(src).tree, path) <==>
      file in src.staticDir.value && body == Copied(path)
    {
      CompletedFiles(src, path, body);
      FilesAtMembership(Expected(src).tree, path, body);
    }
  }

  /** The favicon is copied to the root exactly when static/favicon.ico exists. */
  lemma FaviconCopiedIff(src: Sources)
    requires Expected(src).failure.None?
    ensures src.staticDir.Some?
    ensures FilesAt(Expected(src).tree, "favicon.ico") ==
      if "favicon.ico" in src.staticDir.value then {Copied("static/favicon.ico")} else {}
  {
    CompletedShape(src);
    assert !InStatic("favicon.ico") by { assert "favicon.ico"[..7][0] == 'f'; }
    forall body ensures body in FilesAt(Expected(src).tree, "favicon.ico") <==>
      "favicon.ico" in src.staticDir.value && body == Copied("static/favicon.ico")
    {
      CompletedFiles(src, "favicon.ico", body);
      FilesAtMembership(Expected(src).tree, "favicon.ico", body);
    }
  }

  lemma PagePathLiterals()
    ensures "en" + "/index.html" == "en/index.html"
    ensures "en" + "/projects.html" == "en/projects.html"
    ensures "fr" + "/index.html" == "fr/index.html"
    ensures "fr" + "/projects.html" == "fr/projects.html"
  {
  }

  /** A completed run writes nothing outside static/ but the root page, the favicon and the four language pages. */
  lemma CompletedWritesNothingElse(src: Sources)
    requires Expected(src).failure.None?
    ensures forall e | e in Expected(src).tree && e.File? ::
      InStatic(e.path) || e.path == "favicon.ico" || e.path == "index.html" || e.path in PagePaths
  {
    PagePathLiterals();
    forall e | e in Expected(src).tree && e.File?
      ensures InStatic(e.path) || e.path == "favicon.ico" || e.path == "index.html" || e.path in PagePaths
    {
      CompletedFiles(src, e.path, e.body);
    }
  }

  /** A completed run creates exactly the directories static/, en/ and fr/, even for a language without content. */
  lemma CompletedDirectories(src: Sources)
    requires Expected(src).failure.None?
    ensures DirsOf(Expected(src).tree) == {"static", "en", "fr"}
  {
    CompletedShape(src);
    var tree := Expected(src).tree;
    assert Dir("static") in tree && Dir("en") in tree && Dir("fr") in tree;
  }

  /** The run fails exactly when the static directory is missing, or when home.html is missing and some language has content. */
  lemma FailureCases(src: Sources)
    ensures Expected(src).failure ==
      if src.staticDir.None? then Some(StaticDirMissing)
      else if HomeTemplate !in src.templates && (HasContent(src.content, "en") || HasContent(src.content, "fr"))
      then Some(TemplateNotFound(HomeTemplate))
      else None
  {
    if src.staticDir.Some? {
      UnfoldLoop(src);
    }
  }

  /** A failed run leaves only copied static files and the favicon: no language page, no root page and no completion message. */
  lemma FailedRunWritesNoPages(src: Sources)
    requires Expected(src).failure.Some?
    ensures forall e | e in Expected(src).tree && e.File? :: InStatic(e.path) || e == FaviconCopy
    ensures FilesAt(Expected(src).tree, "index.html") == {}
    ensures BuildCompleted !in Expected(src).notices
  {
    if src.staticDir.Some? {
      UnfoldLoop(src);
      var files := src.staticDir.value;
      forall e | e in Expected(src).tree && e.File? ensures InStatic(e.path) || e == FaviconCopy {
        if e in StaticCopy(files) {
          StaticCopyMembership(files, e.path, e.body);
        }
      }
    }
    assert !InStatic("index.html") by { assert "index.html"[..7][0] == 'i'; }
    forall body ensures body !in FilesAt(Expected(src).tree, "index.html") {
      FilesAtMembership(Expected(src).tree, "index.html", body);
    }
  }

  /** A completed run warns about exactly the languages without content, notes the missing projects template when some page was rendered, and ends with the completion message. */
  lemma CompletedNotices(src: Sources)
    requires Expected(src).failure.None?
    ensures forall lang :: NoData(lang) in Expected(src).notices <==> lang in Languages && !HasContent(src.content, lang)
    ensures ProjectsTemplateMissing in Expected(src).notices <==>
      ProjectsTemplate !in src.templates && (HasContent(src.content, "en") || HasContent(src.content, "fr"))
    ensures |Expected(src).notices| > 0 && Expected(src).notices[|Expected(src).notices| - 1] == BuildCompleted
  {
    CompletedShape(src);
  }

  /** The paths of the files a run writes outside static/, other than the favicon. */
  function PageFiles(tree: set<Entry>): set<string>
  {
    set e | e in tree && e.File? && !InStatic(e.path) && e.path != "favicon.ico" :: e.path
  }

  lemma PageFilesMembership(tree: set<Entry>, path: string)
    ensures path in PageFiles(tree) <==> !InStatic(path) && path != "favicon.ico" && FilesAt(tree, path) != {}
  {
    if FilesAt(tree, path) != {} {
      var body :| body in FilesAt(tree, path);
      FilesAtMembership(tree, path, body);
    }
    if path in PageFiles(tree) {
      var e :| e in tree && e.File? && !InStatic(e.path) && e.path != "favicon.ico" && e.path == path;
      FilesAtMembership(tree, path, e.body);
    }
  }

  /** The page files of a tree that has a file at each of the five page paths and no other file outside static/ but the favicon. */
  lemma PageFilesExactly(tree: set<Entry>)
    requires FilesAt(tree, "index.html") != {}
    requires forall path | path in PagePaths :: FilesAt(tree, path) != {}
    requires forall e | e in tree && e.File? ::
      InStatic(e.path) || e.path == "favicon.ico" || e.path == "index.html" || e.path in PagePaths
    ensures PageFiles(tree) == {"index.html"} + PagePaths
  {
    assert !InStatic("index.html") by { assert "index.html"[..7][0] == 'i'; }
    assert forall path | path in PagePaths :: !InStatic(path) && path != "favicon.ico" by {
      forall path | path in PagePaths ensures !InStatic(path) && path != "favicon.ico" {
        assert path[..7][0] == path[0];
      }
    }
    forall path ensures path in PageFiles(tree) <==> path in {"index.html"} + PagePaths {
      PageFilesMembership(tree, path);
      if path in PageFiles(tree) {
        var body :| body in FilesAt(tree, path);
        FilesAtMembership(tree, path, body);
      }
    }
  }

  /** With content for both languages and both templates, the build writes the root page and the four language pages; the only line printed is the completion message. */
  lemma FullBuild(src: Sources)
    requires src.staticDir.Some?
    requires HasContent(src.content, "en") && HasContent(src.content, "fr")
    requires HomeTemplate in src.templates && ProjectsTemplate in src.templates
    ensures Expected(src).failure.None?
    ensures PageFiles(Expected(src).tree) == {"index.html", "en/index.html", "en/projects.html", "fr/index.html", "fr/projects.html"}
    ensures Expected(src).notices == [BuildCompleted]
  {
    FailureCases(src);
    assert Expected(src).notices == [BuildCompleted] by { CompletedShape(src); }
    PagePathLiterals();
    RootIndexAlwaysWritten(src);
    HomePageWrittenIff(src, "en");
    HomePageWrittenIff(src, "fr");
    ProjectsPageWrittenIff(src, "en");
    ProjectsPageWrittenIff(src, "fr");
    CompletedWritesNothingElse(src);
    PageFilesExactly(Expected(src).tree);
  }

  /** A language without content gets its directory but no file in it; the loop goes on to the next language. */
  lemma MissingContentSkipsLanguage(src: Sources, lang: string)
    requires Expected(src).failure.None?
    requires lang in Languages && !HasContent(src.content, lang)
    ensures Dir(lang) in Expected(src).tree
    ensures forall e | e in Expected(src).tree && e.File? :: !(|e.path| >= 3 && e.path[..3] == lang + "/")
    ensures NoData(lang) in Expected(src).notices
  {
    CompletedShape(src);
    CompletedNotices(src);
    forall e | e in Expected(src).tree && e.File? ensures !(|e.path| >= 3 && e.path[..3] == lang + "/") {
      CompletedFiles(src, e.path, e.body);
      LanguagePathFacts("en", "index.html");
      LanguagePathFacts("en", "projects.html");
      LanguagePathFacts("fr", "index.html");
      LanguagePathFacts("fr", "projects.html");
      if InStatic(e.path) {
        assert e.path[2] == e.path[..7][2] == 'a';
      }
      if |e.path| >= 3 {
        assert e.path[..3][0] == e.path[0] && e.path[..3][2] == e.path[2];
      }
      assert (lang + "/")[0] == lang[0] && (lang + "/")[2] == '/';
    }
  }

  /** English content without French content still yields the English pages, with a warning for French. */
  lemma FrenchMissingEnglishBuilt(src: Sources)
    requires src.staticDir.Some? && HomeTemplate in src.templates
    requires HasContent(src.content, "en") && !HasContent(src.content, "fr")
    ensures Expected(src).failure.None?
    ensures FilesAt(Expected(src).tree, "en/index.html") == {Rendered(HomeTemplate, "en", src.content["en"], "home")}
    ensures FilesAt(Expected(src).tree, "fr/index.html") == {}
    ensures NoData("fr") in Expected(src).notices && NoData("en") !in Expected(src).notices
  {
    FailureCases(src);
    PagePathLiterals();
    HomePageWrittenIff(src, "en");
    HomePageWrittenIff(src, "fr");
    CompletedNotices(src);
  }
}
