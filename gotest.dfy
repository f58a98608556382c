/**
 * The `go-test` subsystem: the option values it declares with their defaults,
 * and the one computation it performs, the directory that receives the
 * coverage report of a Go package.
 */
module GoTest {
  import opened StrFormat

  /** How coverage instrumentation records statement executions. */
  datatype CoverMode =
    | Set     // whether a statement ran
    | Count   // how many times a statement ran
    | Atomic  // a count that stays correct in multithreaded tests

  /** The option values of one `go-test` subsystem instance. */
  datatype GoTestSubsystem = GoTestSubsystem(
    args: seq<string>,
    coverageMode: CoverMode,
    coverageOutputDirTemplate: string,
    coverageHtml: bool,
    coverageIncludePatterns: seq<string>,
    skip: bool,
    forceRace: bool,
    forceMsan: bool,
    forceAsan: bool)

  /** The two keyword arguments the template is formatted with. */
  const DistdirField: string := "distdir"
  const ImportPathEscapedField: string := "import_path_escaped"

  /** The segments `{distdir}`, `coverage`, `go` and `{import_path_escaped}`
      joined with `/`, that is `{distdir}/coverage/go/{import_path_escaped}`. */
  const DefaultCoverageOutputDirTemplate: string :=
    Placeholder(DistdirField) + "/coverage/go/" + Placeholder(ImportPathEscapedField)

  /** The subsystem when no option is set. */
  const Defaults: GoTestSubsystem := GoTestSubsystem(
    args := [],
    coverageMode := Set,
    coverageOutputDirTemplate := DefaultCoverageOutputDirTemplate,
    coverageHtml := true,
    coverageIncludePatterns := [],
    skip := false,
    forceRace := false,
    forceMsan := false,
    forceAsan := false)

  lemma DefaultsAsDeclared()
    ensures Defaults.coverageMode == Set
    ensures Defaults.coverageHtml
    ensures Defaults.coverageIncludePatterns == []
    ensures !Defaults.forceRace && !Defaults.forceMsan && !Defaults.forceAsan
  {
  }

  // ---------------------------------------------------------------------------
  // Escaping an import path
  // ---------------------------------------------------------------------------

  /** The import path with every `/` turned into `_`, so that it fits in one
      path segment. */
  function Escape(importPath: string): (r: string)
    ensures |r| == |importPath|
    ensures '/' !in r
    ensures forall i :: 0 <= i < |importPath| && importPath[i] != '/' ==> r[i] == importPath[i]
  {
    seq(|importPath|, i requires 0 <= i < |importPath| => if importPath[i] == '/' then '_' else importPath[i])
  }

  /** Escaping is Python's `import_path.replace("/", "_")`. */
  lemma EscapeIsReplace(importPath: string)
    ensures Escape(importPath) == Replace(importPath, "/", "_")
  {
    ReplaceCharwise(importPath, '/', '_');
  }

  /** An underscore in the escaped path stands for either a `/` or an `_` of
      the original: the escaping cannot be undone. */
  lemma EscapeUnderscore(importPath: string, i: nat)
    requires i < |importPath|
    ensures Escape(importPath)[i] == '_' <==> importPath[i] == '/' || importPath[i] == '_'
  {
  }

  /** `a/b` and `a_b` land in the same directory. */
  lemma EscapeIsLossy()
    ensures "a/b" != "a_b" && Escape("a/b") == Escape("a_b") == "a_b"
  {
    assert "a/b"[1] != "a_b"[1];
  }

  /** An import path without `/` is its own escape. */
  lemma EscapeWithoutSlash(importPath: string)
    requires '/' !in importPath
    ensures Escape(importPath) == importPath
  {
  }

  lemma EscapeIdempotent(importPath: string)
    ensures Escape(Escape(importPath)) == Escape(importPath)
  {
    EscapeWithoutSlash(Escape(importPath));
  }

  // ---------------------------------------------------------------------------
  // The coverage output directory
  // ---------------------------------------------------------------------------

  /** The keyword arguments the template is formatted with. */
  function CoverageKwargs(distdir: string, importPath: string): map<string, string>
  {
    map[DistdirField := distdir, ImportPathEscapedField := Escape(importPath)]
  }

  /** The pieces of a template that formatting with the coverage arguments can
      render: no syntax error, and only the two known fields. */
  predicate OnlyCoverageFields(t: Template)
  {
    forall i :: 0 <= i < |t| ==>
      !t[i].Bad? && (t[i].Field? ==> t[i].name == DistdirField || t[i].name == ImportPathEscapedField)
  }

  lemma CoverageFieldsAreKeywords()
    ensures IsKeyword(DistdirField) && IsKeyword(ImportPathEscapedField)
  {
    assert !IsDigit(DistdirField[0]) && !IsDigit(ImportPathEscapedField[0]);
  }

  /** Where the coverage report of package `importPath` goes: the template
      formatted with `distdir` and the escaped import path. It fails exactly
      when the template has a syntax error or names any other field. */
  function CoverageOutputDir(sub: GoTestSubsystem, distdir: string, importPath: string): (r: Result<string>)
    ensures r.Ok? <==> OnlyCoverageFields(Parse(sub.coverageOutputDirTemplate))
  {
    var kwargs := CoverageKwargs(distdir, importPath);
    var t := Parse(sub.coverageOutputDirTemplate);
    CoverageFieldsAreKeywords();
    assert forall i :: 0 <= i < |t| ==> (Renders(t[i], kwargs) <==>
      !t[i].Bad? && (t[i].Field? ==> t[i].name == DistdirField || t[i].name == ImportPathEscapedField));
    FormatString(sub.coverageOutputDirTemplate, kwargs)
  }

  /** The first field outside the two known ones is reported as a `KeyError`. */
  lemma {:induction false} UnknownFieldIsKeyError(sub: GoTestSubsystem, distdir: string, importPath: string, k: nat)
    requires k < |Parse(sub.coverageOutputDirTemplate)|
    requires OnlyCoverageFields(Parse(sub.coverageOutputDirTemplate)[..k])
    requires Parse(sub.coverageOutputDirTemplate)[k].Field?
    requires IsKeyword(Parse(sub.coverageOutputDirTemplate)[k].name)
    requires Parse(sub.coverageOutputDirTemplate)[k].name !in {DistdirField, ImportPathEscapedField}
    ensures CoverageOutputDir(sub, distdir, importPath) == Err(KeyError(Parse(sub.coverageOutputDirTemplate)[k].name))
  {
    var t := Parse(sub.coverageOutputDirTemplate);
    var kwargs := CoverageKwargs(distdir, importPath);
    CoverageFieldsAreKeywords();
    forall i | 0 <= i < k ensures Renders(t[i], kwargs) {
      assert t[..k][i] == t[i];
    }
    FormatFirstError(t, kwargs, k);
  }

  /** A template without braces names the same directory for every package. */
  lemma PlainTemplateIsKept(sub: GoTestSubsystem, distdir: string, importPath: string)
    requires NoBraces(sub.coverageOutputDirTemplate)
    ensures CoverageOutputDir(sub, distdir, importPath) == Ok(sub.coverageOutputDirTemplate)
  {
    FormatNoBraces(sub.coverageOutputDirTemplate, CoverageKwargs(distdir, importPath));
  }

  /** With the default template the report goes to
      `<distdir>/coverage/go/<escaped import path>`, both values copied verbatim. */
  lemma DefaultCoverageOutputDir(distdir: string, importPath: string)
    ensures CoverageOutputDir(Defaults, distdir, importPath)
         == Ok(distdir + "/coverage/go/" + Escape(importPath))
  {
    var kwargs := CoverageKwargs(distdir, importPath);
    CoverageFieldsAreKeywords();
    var middle := "/coverage/go/";
    assert NoBraces(DistdirField) && NoBraces(ImportPathEscapedField) && NoBraces(middle);
    FormatFieldTextField(DistdirField, middle, ImportPathEscapedField, kwargs);
  }

  lemma EscapeExample()
    ensures Escape("example.com/foo/bar") == "example.com_foo_bar"
  {
  }

  lemma DefaultCoverageOutputDirExample()
    ensures CoverageOutputDir(Defaults, "dist", "example.com/foo/bar") == Ok("dist" + "/coverage/go/" + "example.com_foo_bar")
  {
    DefaultCoverageOutputDir("dist", "example.com/foo/bar");
    EscapeExample();
  }

  /** A `distdir` that spells a field is copied as it is, not expanded again. */
  lemma NoSecondExpansion(importPath: string)
    ensures CoverageOutputDir(Defaults, Placeholder(ImportPathEscapedField), importPath)
         == Ok(Placeholder(ImportPathEscapedField) + "/coverage/go/" + Escape(importPath))
  {
    DefaultCoverageOutputDir(Placeholder(ImportPathEscapedField), importPath);
  }

  /** A field the subsystem does not supply is an error, not left in place:
      `{distdir}<sep>{unknown}` fails with `KeyError("unknown")`. */
  lemma {:induction false} UnknownFieldAfterDistdir(sub: GoTestSubsystem, distdir: string, importPath: string, sep: string, unknown: string)
    requires NoBraces(sep) && NoBraces(unknown) && IsKeyword(unknown)
    requires unknown != DistdirField && unknown != ImportPathEscapedField
    requires sub.coverageOutputDirTemplate == Placeholder(DistdirField) + sep + Placeholder(unknown)
    ensures CoverageOutputDir(sub, distdir, importPath) == Err(KeyError(unknown))
  {
    assert NoBraces(DistdirField);
    ParseFieldTextField(DistdirField, sep, unknown);
    var t := Parse(sub.coverageOutputDirTemplate);
    assert t == [Field(DistdirField)] + Texts(sep) + [Field(unknown)];
    var k := |sep| + 1;
    assert t[k] == Field(unknown);
    assert OnlyCoverageFields(t[..k]) by {
      assert forall i :: 0 <= i < k ==> t[..k][i] == t[i];
    }
    UnknownFieldIsKeyError(sub, distdir, importPath, k);
  }

  /** A `{` inside the name of the template's first field is a `ValueError`,
      for every distdir and import path. */
  lemma BraceInFieldNameIsMalformed(sub: GoTestSubsystem, distdir: string, importPath: string, j: nat)
    requires OpensField(sub.coverageOutputDirTemplate)
    requires InnerOpenAt(sub.coverageOutputDirTemplate, j)
    requires !HasSpecStart(sub.coverageOutputDirTemplate[1..j])
    ensures CoverageOutputDir(sub, distdir, importPath) == Err(Malformed)
  {
    var t := sub.coverageOutputDirTemplate;
    FirstTokenSyntaxErrors(t);
    assert Parse(t) == [Bad(Malformed)];
  }

  lemma UnknownFieldExample(distdir: string, importPath: string)
    ensures CoverageOutputDir(Defaults.(coverageOutputDirTemplate := "{distdir}/{unknown}"), distdir, importPath)
         == Err(KeyError("unknown"))
  {
    assert IsKeyword("unknown") by { assert !IsDigit("unknown"[0]); }
    assert "{distdir}/{unknown}" == Placeholder(DistdirField) + "/" + Placeholder("unknown");
    UnknownFieldAfterDistdir(Defaults.(coverageOutputDirTemplate := "{distdir}/{unknown}"), distdir, importPath, "/", "unknown");
  }
}
