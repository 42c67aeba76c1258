/** The two extension tables of the analysis service: `guessLanguageFromFileName`,
    used when normalising backend results, and `getLanguageFromExtension`, used
    by the local rule-based analysis. */
module Languages {
  import opened JsValue

  const UnknownLanguage: string := "未知"
  const UnknownLanguageLocal: string := "Unknown"

  /** The `langMap` of `guessLanguageFromFileName`. */
  const GuessTable: map<string, string> := map[
    "js" := "JavaScript", "jsx" := "JavaScript (React)", "ts" := "TypeScript",
    "tsx" := "TypeScript (React)", "html" := "HTML", "css" := "CSS",
    "scss" := "CSS (SCSS)", "less" := "CSS (Less)", "py" := "Python",
    "java" := "Java", "go" := "Go", "c" := "C", "cpp" := "C++",
    "h" := "C/C++ Header", "hpp" := "C++ Header", "cs" := "C#", "php" := "PHP",
    "rb" := "Ruby", "vue" := "Vue", "json" := "JSON", "md" := "Markdown",
    "sql" := "SQL"]

  /** The `languageMap` of `getLanguageFromExtension`. */
  const ExtensionTable: map<string, string> := map[
    "js" := "JavaScript", "jsx" := "JavaScript (React)", "ts" := "TypeScript",
    "tsx" := "TypeScript (React)", "html" := "HTML", "css" := "CSS",
    "scss" := "SCSS", "less" := "LESS", "json" := "JSON", "md" := "Markdown",
    "py" := "Python", "java" := "Java", "go" := "Go", "c" := "C", "cpp" := "C++",
    "h" := "C/C++ Header", "hpp" := "C++ Header", "cs" := "C#", "php" := "PHP",
    "rb" := "Ruby", "swift" := "Swift", "kt" := "Kotlin", "rs" := "Rust",
    "sql" := "SQL"]

  /** `langMap[ext] || '未知'` (every table entry is a non-empty string). */
  function TableOr(table: map<string, string>, key: string, fallback: string): string {
    if key in table && table[key] != "" then table[key] else fallback
  }

  /** The extension `fileName.split('.').pop().toLowerCase()`. */
  function ExtensionOf(fileName: string): string {
    ToLower(LastSegment(fileName, '.'))
  }

  /** `guessLanguageFromFileName(fileName)`. The result is never empty, so it is
      always truthy. */
  function GuessLanguageFromFileName(fileName: string): (language: string)
    ensures language != ""
    ensures fileName == "" ==> language == UnknownLanguage
    ensures fileName != "" && ExtensionOf(fileName) in GuessTable ==> language == GuessTable[ExtensionOf(fileName)]
    ensures fileName != "" && ExtensionOf(fileName) !in GuessTable ==> language == UnknownLanguage
  {
    if fileName == "" then UnknownLanguage
    else TableOr(GuessTable, ExtensionOf(fileName), UnknownLanguage)
  }

  /** `getLanguageFromExtension(extension)`; never empty. */
  function GetLanguageFromExtension(extension: string): (language: string)
    ensures language != ""
    ensures ToLower(extension) in ExtensionTable ==> language == ExtensionTable[ToLower(extension)]
    ensures ToLower(extension) !in ExtensionTable ==> language == UnknownLanguageLocal
  {
    TableOr(ExtensionTable, ToLower(extension), UnknownLanguageLocal)
  }

  /** The language of `name.ext` is decided by `ext` alone, whatever `name`
      holds (dots included), as long as `ext` has no dot. */
  lemma LanguageOfExtension(name: string, ext: string)
    requires '.' !in ext
    ensures GuessLanguageFromFileName(name + "." + ext) == TableOr(GuessTable, ToLower(ext), UnknownLanguage)
  {
    LastSegmentOfJoin(name, '.', ext);
    assert name + "." + ext == name + ['.'] + ext;
  }

  /** The extension is matched case-insensitively. */
  lemma {:induction false} LanguageIgnoresCase(fileName: string)
    ensures GuessLanguageFromFileName(ToLower(fileName)) == GuessLanguageFromFileName(fileName)
  {
    LowerLastSegment(fileName);
    assert ToLower(ToLower(LastSegment(fileName, '.'))) == ToLower(LastSegment(fileName, '.'));
  }

  lemma {:induction false} LowerSplit(s: string)
    ensures |Split(ToLower(s), '.')| == |Split(s, '.')|
    ensures forall i :: 0 <= i < |Split(s, '.')| ==> Split(ToLower(s), '.')[i] == ToLower(Split(s, '.')[i])
    decreases |s|
  {
    if s != [] {
      var l := ToLower(s);
      assert l[1..] == ToLower(s[1..]);
      LowerSplit(s[1..]);
      var rest, lrest := Split(s[1..], '.'), Split(l[1..], '.');
      if s[0] == '.' {
        assert Split(l, '.') == [""] + lrest;
        assert Split(s, '.') == [""] + rest;
      } else {
        assert l[0] != '.';
        assert Split(l, '.') == [[l[0]] + lrest[0]] + lrest[1..];
        assert Split(s, '.') == [[s[0]] + rest[0]] + rest[1..];
        assert ToLower([s[0]] + rest[0]) == [l[0]] + ToLower(rest[0]);
        forall i | 1 <= i < |Split(s, '.')| ensures Split(l, '.')[i] == ToLower(Split(s, '.')[i]) {
          assert Split(s, '.')[i] == rest[i];
        }
      }
    }
  }

  lemma LowerLastSegment(s: string)
    ensures LastSegment(ToLower(s), '.') == ToLower(LastSegment(s, '.'))
  {
    LowerSplit(s);
  }

  /** The two tables name every extension they share alike, except `scss` and
      `less`; their fallbacks differ ('未知' against 'Unknown'). */
  lemma TablesAgree(ext: string)
    requires ext in GuessTable && ext in ExtensionTable && ext != "scss" && ext != "less"
    ensures GuessTable[ext] == ExtensionTable[ext]
  {
  }
}
