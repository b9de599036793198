/** The code editor's choice of highlighting language from a file name
  * (manus-frontend/src/components/CodeEditor.tsx). */
module Editor {
  import opened Text

  /** The text after the last '.', or the whole name when it has none: `name.split('.').pop()`. */
  function LastSegment(s: string): (r: string)
    ensures '.' !in r
    ensures |r| <= |s| && r == s[|s| - |r|..]
    ensures |r| == |s| || s[|s| - |r| - 1] == '.'
  {
    if s == [] then []
    else if s[|s| - 1] == '.' then []
    else LastSegment(s[..|s| - 1]) + [s[|s| - 1]]
  }

  /** The extension as looked up: the last segment, lower-cased. */
  function Extension(filename: string): string
  {
    Lower(LastSegment(filename))
  }

  /** The editor's own extension table. */
  function Table(ext: string): Option<string>
  {
    if ext == "js" || ext == "jsx" then Some("javascript")
    else if ext == "ts" || ext == "tsx" then Some("typescript")
    else if ext == "py" then Some("python")
    else if ext == "json" then Some("json")
    else if ext == "html" then Some("html")
    else if ext == "css" then Some("css")
    else if ext == "md" then Some("markdown")
    else if ext == "yml" || ext == "yaml" then Some("yaml")
    else if ext == "sh" then Some("shell")
    else if ext == "rs" then Some("rust")
    else if ext == "go" then Some("go")
    else if ext == "java" then Some("java")
    else if ext == "cpp" then Some("cpp")
    else if ext == "c" then Some("c")
    else if ext == "cs" then Some("csharp")
    else if ext == "php" then Some("php")
    else None
  }

  /** The table is a plain object, so a lookup also finds the members it inherits from
    * `Object.prototype`; after lower-casing only these two keys can name one. */
  predicate InheritedKey(ext: string)
  {
    ext == "constructor" || ext == "__proto__"
  }

  /** What `getLanguage` hands to the editor: a language name, or the inherited member that the
    * lookup found (a function or an object, which is truthy and so is returned as it is). */
  datatype Language = Named(name: string) | PrototypeMember(key: string)

  function GetLanguage(filename: string): Language
  {
    var ext := Extension(filename);
    if InheritedKey(ext) then PrototypeMember(ext)
    else if Table(ext).Some? then Named(Table(ext).value)
    else Named("plaintext")
  }

  // ---------------------------------------------------------------------------
  // Properties

  /** Several extensions share one language, and no other extension maps to it. */
  lemma SharedLanguages(ext: string)
    ensures Table(ext) == Some("javascript") <==> ext == "js" || ext == "jsx"
    ensures Table(ext) == Some("typescript") <==> ext == "ts" || ext == "tsx"
    ensures Table(ext) == Some("yaml") <==> ext == "yml" || ext == "yaml"
  {
  }

  /** The extension is what follows the last dot, however many dots come before. */
  lemma {:induction false} SegmentAfterDot(stem: string, ext: string)
    requires '.' !in ext
    ensures LastSegment(stem + "." + ext) == ext
  {
    var s := stem + "." + ext;
    if ext == [] {
      assert s[|s| - 1] == '.';
    } else {
      assert s[..|s| - 1] == stem + "." + ext[..|ext| - 1];
      SegmentAfterDot(stem, ext[..|ext| - 1]);
      assert ext == ext[..|ext| - 1] + [ext[|ext| - 1]];
    }
  }

  /** A name without a dot is its own extension. */
  lemma {:induction false} SegmentWithoutDot(s: string)
    requires '.' !in s
    ensures LastSegment(s) == s
  {
    if s != [] {
      assert s[|s| - 1] in s;
      SegmentWithoutDot(s[..|s| - 1]);
      assert s == s[..|s| - 1] + [s[|s| - 1]];
    }
  }

  /** The language of "<stem>.<ext>" depends only on `ext` with its letters lower-cased: an
    * inherited member for the two prototype keys, the table's language for a listed extension, and
    * "plaintext" for any other. */
  lemma LanguageAfterDot(stem: string, ext: string)
    requires '.' !in ext
    ensures var r := GetLanguage(stem + "." + ext);
            && (r == PrototypeMember(Lower(ext)) <==> InheritedKey(Lower(ext)))
            && (!InheritedKey(Lower(ext)) && Table(Lower(ext)).Some? ==> r == Named(Table(Lower(ext)).value))
            && (!InheritedKey(Lower(ext)) && Table(Lower(ext)).None? ==> r == Named("plaintext"))
  {
    SegmentAfterDot(stem, ext);
  }

  /** A name without a dot is looked up whole, lower-cased. */
  lemma LanguageWithoutDot(name: string)
    requires '.' !in name
    ensures var r := GetLanguage(name);
            && (r == PrototypeMember(Lower(name)) <==> InheritedKey(Lower(name)))
            && (!InheritedKey(Lower(name)) && Table(Lower(name)).Some? ==> r == Named(Table(Lower(name)).value))
            && (!InheritedKey(Lower(name)) && Table(Lower(name)).None? ==> r == Named("plaintext"))
  {
    SegmentWithoutDot(name);
  }

  /** "a.test.ts" is TypeScript: only the last extension counts. */
  lemma TypeScriptAfterAnyStem(stem: string)
    ensures GetLanguage(stem + ".ts") == Named("typescript")
  {
    assert stem + ".ts" == stem + "." + "ts";
    SegmentAfterDot(stem, "ts");
    assert Lower("ts") == "ts";
  }

  /** A name ending in '.' has an empty extension and gets no highlighting. */
  lemma TrailingDotIsPlain(stem: string)
    ensures GetLanguage(stem + ".") == Named("plaintext")
  {
    assert stem + "." == stem + "." + "";
    SegmentAfterDot(stem, "");
  }

  /** "x.constructor" (or ".CONSTRUCTOR") hands the editor an inherited member, not a language. */
  lemma InheritedLookup(stem: string, ext: string)
    requires '.' !in ext && Lower(ext) == "constructor"
    ensures GetLanguage(stem + "." + ext) == PrototypeMember("constructor")
  {
    SegmentAfterDot(stem, ext);
  }

  lemma LowerSnoc(t: string, c: char)
    ensures Lower(t + [c]) == Lower(t) + [LowerChar(c)]
  {
    assert Lower(t + [c])[..|t|] == Lower(t);
  }

  lemma LastSegmentSnoc(u: string, d: char)
    ensures LastSegment(u + [d]) == if d == '.' then [] else LastSegment(u) + [d]
  {
    assert (u + [d])[..|u|] == u;
  }

  lemma LowerCharDot(c: char)
    ensures LowerChar(c) == '.' <==> c == '.'
  {
  }

  /** Lower-casing commutes with taking the last segment. */
  lemma {:induction false} LowerLastSegment(s: string)
    ensures LastSegment(Lower(s)) == Lower(LastSegment(s))
  {
    if s != [] {
      var t, c := s[..|s| - 1], s[|s| - 1];
      assert s == t + [c];
      LowerSnoc(t, c);
      LowerCharDot(c);
      LastSegmentSnoc(t, c);
      LastSegmentSnoc(Lower(t), LowerChar(c));
      if c != '.' {
        LowerLastSegment(t);
        LowerSnoc(LastSegment(t), c);
      }
    }
  }

  /** Names that differ only in letter case get the same language. */
  lemma CaseInsensitive(f: string, g: string)
    requires Lower(f) == Lower(g)
    ensures GetLanguage(f) == GetLanguage(g)
  {
    LowerLastSegment(f);
    LowerLastSegment(g);
    assert Extension(f) == Extension(g);
  }
}
