/**
 * The decisions of the web client's workspace preview: the extension of a file name,
 * the syntax-highlighting language chosen for it, whether it is an HTML file, the
 * "too large or binary" test, which view a file gets, and the directory navigation of
 * the workspace browser (root test, going back, entering an item).
 *
 * JavaScript strings are UTF-16; here a string is a sequence of characters, so lengths
 * and the 1000-character window count characters.
 */
module PreviewContent {
  import opened Wrappers
  import opened Text
  import opened Dicts
  import opened PluginManager

  const MAX_PREVIEW_LENGTH := 100000
  const SNIFF_LENGTH := 1000

  /** `parts.pop()` on a non-empty array. */
  function Last(parts: seq<string>): string
    requires |parts| >= 1
  {
    parts[|parts| - 1]
  }

  /** `name.split('.').pop()?.toLowerCase()`: the lower-cased text after the last ".", or the whole name. */
  function Extension(name: string): (ext: string)
    ensures '.' !in ext
  {
    var last := Last(Split(name, '.'));
    assert forall i :: 0 <= i < |last| ==> Lower(last)[i] == LowerChar(last[i]);
    Lower(last)
  }

  /** The extension of `<base>.<ext>` is the lower-cased `ext` whenever `ext` has no ".". */
  lemma ExtensionOfSuffixed(base: string, ext: string)
    requires '.' !in ext
    ensures Extension(base + "." + ext) == Lower(ext)
  {
    assert base + "." + ext == base + ['.'] + ext;
    SplitConcat(base, ext, '.');
    SplitNoSeparator(ext, '.');
  }

  /** A name without "." is its own extension, lower-cased. */
  lemma ExtensionWithoutDot(name: string)
    requires '.' !in name
    ensures Extension(name) == Lower(name)
  {
    SplitNoSeparator(name, '.');
  }

  /** The own entries of the `languageMap` object: extension to highlighting language. */
  function LanguageEntry(ext: string): (language: Option<string>)
    ensures language.Some? ==> language.value != ""
  {
    match ext
    case "js" => Some("javascript")
    case "jsx" => Some("javascript")
    case "ts" => Some("typescript")
    case "tsx" => Some("typescript")
    case "py" => Some("python")
    case "java" => Some("java")
    case "c" => Some("c")
    case "cpp" => Some("cpp")
    case "cs" => Some("csharp")
    case "go" => Some("go")
    case "rb" => Some("ruby")
    case "php" => Some("php")
    case "swift" => Some("swift")
    case "kt" => Some("kotlin")
    case "rs" => Some("rust")
    case "sh" => Some("bash")
    case "bash" => Some("bash")
    case "zsh" => Some("bash")
    case "html" => Some("html")
    case "htm" => Some("html")
    case "css" => Some("css")
    case "scss" => Some("scss")
    case "less" => Some("less")
    case "json" => Some("json")
    case "yaml" => Some("yaml")
    case "yml" => Some("yaml")
    case "xml" => Some("xml")
    case "sql" => Some("sql")
    case "md" => Some("markdown")
    case "txt" => Some("text")
    case "log" => Some("text")
    case "ini" => Some("ini")
    case "toml" => Some("toml")
    case "conf" => Some("conf")
    case "env" => Some("env")
    case "dockerfile" => Some("dockerfile")
    case "docker-compose" => Some("yaml")
    case "csv" => Some("csv")
    case _ => None
  }

  /** The languages of the table, for stating which values a lookup can give. */
  predicate IsTableLanguage(language: string) {
    language in ["javascript", "typescript", "python", "java", "c", "cpp", "csharp", "go", "ruby", "php",
                 "swift", "kotlin", "rust", "bash", "html", "css", "scss", "less", "json", "yaml", "xml",
                 "sql", "markdown", "text", "ini", "toml", "conf", "env", "dockerfile", "csv"]
  }

  lemma LanguageEntryInTable(ext: string)
    requires LanguageEntry(ext).Some?
    ensures IsTableLanguage(LanguageEntry(ext).value)
  {
  }

  /**
   * The names every JavaScript object inherits from `Object.prototype`; an index with
   * one of them finds the inherited member, not an own entry. Extensions are
   * lower-cased before the lookup, so only "constructor" and "__proto__" can actually
   * occur as one; the names with capitals are listed for completeness.
   */
  const OBJECT_PROTOTYPE_MEMBERS: seq<string> := [
    "constructor", "__proto__", "hasOwnProperty", "isPrototypeOf", "propertyIsEnumerable",
    "toString", "toLocaleString", "valueOf",
    "__defineGetter__", "__defineSetter__", "__lookupGetter__", "__lookupSetter__"]

  /** What `languageMap[ext || ''] || 'text'` evaluates to. */
  datatype LanguageValue = LanguageName(name: string) | PrototypeMember(member: string)

  /**
   * `getFileLanguage` as written: an own entry gives its language, a name inherited
   * from `Object.prototype` gives that (truthy, non-string) member, anything else 'text'.
   */
  function FileLanguageAsWritten(path: string): LanguageValue {
    var ext := Extension(path);
    var entry := LanguageEntry(ext);
    if entry.Some? then LanguageName(entry.value)
    else if ext in OBJECT_PROTOTYPE_MEMBERS then PrototypeMember(ext)
    else LanguageName("text")
  }

  /** A file named `<x>.constructor` gets `Object`'s constructor function as its language. */
  lemma ConstructorExtensionAsWritten(base: string)
    ensures FileLanguageAsWritten(base + ".constructor") == PrototypeMember("constructor")
  {
    var path := base + ".constructor";
    ConstructorExtension(base);
    ConstructorNotInTable();
    assert OBJECT_PROTOTYPE_MEMBERS[0] == "constructor";
    AsWrittenOfExtension(path, "constructor");
  }

  lemma ConstructorExtension(base: string)
    ensures Extension(base + ".constructor") == "constructor"
  {
    NoDotInConstructor();
    assert base + ".constructor" == base + "." + "constructor";
    ExtensionOfSuffixed(base, "constructor");
    LowerConstructor();
  }

  lemma NoDotInConstructor()
    ensures '.' !in "constructor"
  {
  }

  lemma ConstructorNotInTable()
    ensures LanguageEntry("constructor").None?
  {
  }

  lemma LowerConstructor()
    ensures Lower("constructor") == "constructor"
  {
    LowerWithoutUpper("constructor");
  }

  lemma LowerHtml()
    ensures Lower("HTML") == "html"
  {
    var h := Lower("HTML");
    assert h[0] == LowerChar('H') == 'h';
    assert h[1] == LowerChar('T') == 't';
    assert h[2] == LowerChar('M') == 'm';
    assert h[3] == LowerChar('L') == 'l';
  }

  /** `FileLanguageAsWritten` depends on the path only through its extension. */
  lemma AsWrittenOfExtension(path: string, ext: string)
    requires Extension(path) == ext
    ensures FileLanguageAsWritten(path) ==
      if LanguageEntry(ext).Some? then LanguageName(LanguageEntry(ext).value)
      else if ext in OBJECT_PROTOTYPE_MEMBERS then PrototypeMember(ext)
      else LanguageName("text")
  {
  }

  /** `getFileLanguage` as intended: the table's language for the extension, or 'text'. */
  function FileLanguage(path: string): (language: string)
    ensures IsTableLanguage(language)
  {
    var entry := LanguageEntry(Extension(path));
    if entry.Some? then LanguageEntryInTable(Extension(path)); entry.value else "text"
  }

  /** The two agree on every path whose extension is not an inherited member name. */
  lemma FileLanguageAgrees(path: string)
    requires Extension(path) !in OBJECT_PROTOTYPE_MEMBERS
    ensures FileLanguageAsWritten(path) == LanguageName(FileLanguage(path))
  {
  }

  /** A name without "." that lower-cases to "dockerfile" (`Dockerfile`, say) is highlighted as a Dockerfile. */
  lemma DockerfileLanguage(name: string)
    requires '.' !in name && Lower(name) == "dockerfile"
    ensures FileLanguage(name) == "dockerfile"
  {
    ExtensionWithoutDot(name);
    DockerfileEntry();
  }

  lemma DockerfileEntry()
    ensures LanguageEntry("dockerfile") == Some("dockerfile")
  {
  }

  /** An extension outside the table is highlighted as plain text. */
  lemma UnknownExtensionIsText(path: string)
    requires LanguageEntry(Extension(path)).None?
    ensures FileLanguage(path) == "text"
  {
  }

  /** `isHtmlFile`. */
  predicate IsHtmlFile(name: string) {
    var ext := Extension(name);
    ext == "html" || ext == "htm"
  }

  /** An HTML file is highlighted as HTML. */
  lemma HtmlFileLanguage(name: string)
    requires IsHtmlFile(name)
    ensures FileLanguage(name) == "html"
  {
    HtmlEntries();
  }

  lemma HtmlEntries()
    ensures LanguageEntry("html") == Some("html") && LanguageEntry("htm") == Some("html")
  {
  }

  /** A name ending in ".html" or ".htm", in any case, is an HTML file. */
  lemma HtmlSuffixes(name: string)
    ensures IsHtmlFile(name + ".HTML") && IsHtmlFile(name + ".htm")
  {
    assert '.' !in "HTML" && '.' !in "htm";
    assert name + ".HTML" == name + "." + "HTML";
    assert name + ".htm" == name + "." + "htm";
    ExtensionOfSuffixed(name, "HTML");
    LowerHtml();
    ExtensionOfSuffixed(name, "htm");
    LowerWithoutUpper("htm");
  }

  // ---------------------------------------------------------------------------
  // Size and binary test

  /** The control characters the test looks for: U+0000-U+0008 and U+000E-U+001F. */
  predicate IsBinaryChar(c: char) {
    '\0' <= c <= '\U{8}' || '\U{E}' <= c <= '\U{1F}'
  }

  /** `content.substring(0, 1000)`. */
  function Head(content: string): (head: string)
    ensures |head| == if |content| < SNIFF_LENGTH then |content| else SNIFF_LENGTH
    ensures head == content[..|head|]
  {
    if |content| < SNIFF_LENGTH then content else content[..SNIFF_LENGTH]
  }

  /** The test of `FileContent` for showing only a download button. */
  predicate TooLargeOrBinary(content: string) {
    |content| > MAX_PREVIEW_LENGTH || exists i :: 0 <= i < |Head(content)| && IsBinaryChar(Head(content)[i])
  }

  /**
   * Content counts as too large or binary exactly when it is longer than 100000
   * characters or one of its first 1000 characters is a binary control character.
   */
  lemma TooLargeOrBinaryIff(content: string)
    ensures TooLargeOrBinary(content) <==>
      |content| > MAX_PREVIEW_LENGTH || exists i :: 0 <= i < |content| && i < SNIFF_LENGTH && IsBinaryChar(content[i])
  {
    var head := Head(content);
    if exists i :: 0 <= i < |content| && i < SNIFF_LENGTH && IsBinaryChar(content[i]) {
      var i :| 0 <= i < |content| && i < SNIFF_LENGTH && IsBinaryChar(content[i]);
      assert head[i] == content[i];
    }
  }

  /** Tab, line feed, vertical tab, form feed and carriage return never make content binary. */
  lemma TextControlsAllowed(content: string)
    requires |content| <= MAX_PREVIEW_LENGTH
    requires forall i :: 0 <= i < |content| ==> content[i] >= ' ' || '\t' <= content[i] <= '\r'
    ensures !TooLargeOrBinary(content)
  {
    var head := Head(content);
    forall i | 0 <= i < |head| ensures !IsBinaryChar(head[i]) {
      assert head[i] == content[i];
    }
  }

  // ---------------------------------------------------------------------------
  // Which view a loaded file gets

  datatype FileView =
    | NoContent
    | HtmlPreview
    | PluginPreview(plugin: Manifest)
    | DownloadOnly
    | Highlighted(language: string)

  /**
   * The order of `FileContent`'s checks once the file is loaded: no content, then an
   * HTML file type, then a plugin registered for the file type, then the size and
   * binary test, and otherwise highlighting. The highlighting language is the
   * corrected `FileLanguage`, not `FileLanguageAsWritten`; the two differ only for the
   * extensions in `OBJECT_PROTOTYPE_MEMBERS` (see `HighlightedAgreesWithSource`).
   */
  function ViewFor(path: string, content: string, plugins: Dict<string, Manifest>): FileView {
    if content == "" then NoContent
    else if IsHtmlFile(path) then HtmlPreview
    else
      match PluginFor(plugins, Extension(path))
      case Some(plugin) => PluginPreview(plugin)
      case None =>
        if TooLargeOrBinary(content) then DownloadOnly
        else Highlighted(FileLanguage(path))
  }

  /**
   * Highlighting happens exactly for loaded, non-HTML content that no plugin claims and
   * that is neither too large nor binary, and always in a language of the table
   * (the corrected lookup never yields an inherited member).
   */
  lemma HighlightedOnlyWhenShowable(path: string, content: string, plugins: Dict<string, Manifest>)
    ensures ViewFor(path, content, plugins).Highlighted? <==>
      content != "" && !IsHtmlFile(path) && PluginFor(plugins, Extension(path)).None? && !TooLargeOrBinary(content)
    ensures ViewFor(path, content, plugins).Highlighted? ==> IsTableLanguage(ViewFor(path, content, plugins).language)
  {
  }

  /**
   * Wherever `getFileLanguage` as written gives a language name, the highlighted view
   * uses that same name: the correction only changes the prototype-member extensions.
   */
  lemma HighlightedAgreesWithSource(path: string, content: string, plugins: Dict<string, Manifest>)
    requires Extension(path) !in OBJECT_PROTOTYPE_MEMBERS
    requires ViewFor(path, content, plugins).Highlighted?
    ensures FileLanguageAsWritten(path) == LanguageName(ViewFor(path, content, plugins).language)
  {
    FileLanguageAgrees(path);
  }

  /**
   * HTML is checked before the plugins, so an HTML file is always shown by the built-in
   * preview, whatever plugins claim "html" or "htm", and however large it is.
   */
  lemma HtmlNeverReachesPlugins(path: string, content: string, plugins: Dict<string, Manifest>)
    requires content != "" && IsHtmlFile(path)
    ensures ViewFor(path, content, plugins) == HtmlPreview
  {
  }

  /** A plugin that gets the file is a registered one that lists the file's extension. */
  lemma PluginViewListsExtension(path: string, content: string, plugins: Dict<string, Manifest>)
    requires ViewFor(path, content, plugins).PluginPreview?
    ensures var plugin := ViewFor(path, content, plugins).plugin;
      plugin in Values(plugins) && Extension(path) in plugin.fileTypes
  {
    var ext := Extension(path);
    var last := Last(Split(path, '.'));
    LowerIdempotent(last);
    assert Lower(ext) == ext;
    var all := Values(plugins);
    var r := Find(all, (m: Manifest) => ext in m.fileTypes);
    assert PluginFor(plugins, ext) == r;
    var i :| 0 <= i < |all| && all[i] == r.value && ext in all[i].fileTypes;
  }

  // ---------------------------------------------------------------------------
  // Workspace navigation

  /** `isRootDirectory`: an empty path, or one that splits at "/" into one piece. */
  predicate IsRootDirectory(path: string) {
    path == "" || |Split(path, '/')| <= 1
  }

  /** A path is the root exactly when it has no "/". */
  lemma RootIff(path: string)
    ensures IsRootDirectory(path) <==> '/' !in path
  {
    SplitSingleIff(path, '/');
  }

  /** `handleBackClick`: at the root nothing changes; otherwise the last "/"-segment is dropped. */
  function Back(path: string): string {
    if IsRootDirectory(path) then path
    else
      var parts := Split(path, '/');
      Join(parts[..|parts| - 1], "/")
  }

  /** `handleItemClick`. */
  function Enter(path: string, name: string): string {
    path + "/" + name
  }

  /** Entering an item whose name has no "/" and going back returns to the same path. */
  lemma BackAfterEnter(path: string, name: string)
    requires '/' !in name
    ensures !IsRootDirectory(Enter(path, name))
    ensures Back(Enter(path, name)) == path
  {
    var p := Enter(path, name);
    assert p == path + ['/'] + name;
    assert p[|path|] == '/';
    RootIff(p);
    SplitConcat(path, name, '/');
    SplitNoSeparator(name, '/');
    var parts := Split(p, '/');
    assert parts[..|parts| - 1] == Split(path, '/');
    JoinSplit(path, '/');
  }

  /** Going back from a path below the root keeps all its segments but the last, in order. */
  lemma BackDropsOneSegment(path: string)
    requires !IsRootDirectory(path)
    ensures Split(Back(path), '/') == Split(path, '/')[..|Split(path, '/')| - 1]
    ensures |Split(Back(path), '/')| == |Split(path, '/')| - 1
  {
    var parts := Split(path, '/');
    var init := parts[..|parts| - 1];
    SplitOfJoin(init);
  }

  /** Joining "/"-free pieces with "/" and splitting again gives the pieces back. */
  lemma {:induction false} SplitOfJoin(parts: seq<string>)
    requires |parts| >= 1 && forall i :: 0 <= i < |parts| ==> '/' !in parts[i]
    ensures Split(Join(parts, "/"), '/') == parts
  {
    if |parts| == 1 {
      SplitNoSeparator(parts[0], '/');
    } else {
      SplitOfJoin(parts[1..]);
      assert parts[0] + "/" + Join(parts[1..], "/") == parts[0] + ['/'] + Join(parts[1..], "/");
      SplitConcat(parts[0], Join(parts[1..], "/"), '/');
      SplitNoSeparator(parts[0], '/');
    }
  }
}
