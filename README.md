# go-test coverage output directory

This project models the `go-test` subsystem of the Pants build system's Go backend. The model covers three things:

- the option values the subsystem declares, with their defaults;
- the one computation it performs, `GoTestSubsystem.coverage_output_dir`;
- the parts of Python's `str` that this computation relies on.

`coverage_output_dir(distdir, import_path)` works in two steps. First it escapes the package's import path by turning every `/` into `_`. Then it formats the `coverage_output_dir` option template with two keyword arguments, `distdir` and `import_path_escaped`. By default the report of `example.com/foo/bar` goes to `dist/coverage/go/example.com_foo_bar`.

The project has two modules:

- `StrFormat` (`str_format.dfy`) models the two Python string operations used:
  - `str.replace`.
  - Keyword-only `str.format`. A template is scanned into pieces: literal characters, the `{{`/`}}` escapes, `{name}` fields, and a final syntax-error piece where the scan stops. The pieces are rendered left to right. The first piece that cannot be rendered decides the error:
    - `ValueError` for a syntax error (`Malformed`) or for a positional index too large for CPython (`IndexOverflow`);
    - `IndexError` for a positional field (`PositionalIndex`);
    - `KeyError(name)` for a keyword with no argument.
- `GoTest` (`gotest.dfy`) holds the subsystem's option record, its defaults, `Escape` and `CoverageOutputDir`, together with the properties the coverage directory has.

An unknown placeholder in the template is not left in place: `str.format` raises `KeyError` for it. `CoverageOutputDir` then returns `Err(KeyError(name))`, as `UnknownFieldIsKeyError` and `UnknownFieldExample` state.

## Model

| member | source | states |
|---|---|---|
| GoTest.DefaultsAsDeclared | src/python/pants/backend/go/subsystems/gotest.py:45-153 | With no option set: cover mode `set`, HTML reports on, no include patterns, race detector and memory/address sanitizers not forced |
| GoTest.Escape | src/python/pants/backend/go/subsystems/gotest.py:156 | The escaped import path has the same length, contains no `/` (so it is a single path segment), and keeps every character other than `/` |
| StrFormat.Replace | src/python/pants/backend/go/subsystems/gotest.py:156 | `str.replace` keeps the length when the target and the replacement have the same length, and returns the string unchanged when a non-empty target does not occur in it |
| StrFormat.InsertEverywhere | src/python/pants/backend/go/subsystems/gotest.py:156 | `str.replace` with an empty target makes the string longer by `len(s) + 1` times the length of the replacement |
| GoTest.EscapeIsReplace | src/python/pants/backend/go/subsystems/gotest.py:156 | The escaped import path is exactly Python's `import_path.replace("/", "_")` |
| StrFormat.ReplaceCharwise | src/python/pants/backend/go/subsystems/gotest.py:156 | Replacing one character by another keeps the length and changes each position independently: a matching character becomes the replacement, every other character is kept |
| GoTest.EscapeUnderscore | src/python/pants/backend/go/subsystems/gotest.py:156 | A position of the escaped path holds `_` if and only if the import path held `/` or `_` there |
| GoTest.EscapeIsLossy | src/python/pants/backend/go/subsystems/gotest.py:156 | The distinct import paths `a/b` and `a_b` escape to the same `a_b`, so two packages can share a coverage directory |
| GoTest.EscapeWithoutSlash | src/python/pants/backend/go/subsystems/gotest.py:156 | An import path without `/` is left unchanged |
| GoTest.EscapeIdempotent | src/python/pants/backend/go/subsystems/gotest.py:156 | Escaping twice gives the same result as escaping once |
| GoTest.EscapeExample | src/python/pants/backend/go/subsystems/gotest.py:156 | `example.com/foo/bar` escapes to `example.com_foo_bar` |
| GoTest.CoverageOutputDir | src/python/pants/backend/go/subsystems/gotest.py:155-161 | The directory is computed if and only if the template has no syntax error and names no field other than `distdir` and `import_path_escaped` |
| GoTest.UnknownFieldIsKeyError | src/python/pants/backend/go/subsystems/gotest.py:158-160 | The first keyword field in the template other than the two supplied ones makes the computation fail with `KeyError` of that name |
| GoTest.UnknownFieldAfterDistdir | src/python/pants/backend/go/subsystems/gotest.py:158-160 | A template `{distdir}<text>{other}` fails with `KeyError("other")`; the unknown field is not left in place |
| GoTest.UnknownFieldExample | src/python/pants/backend/go/subsystems/gotest.py:158-160 | The template `{distdir}/{unknown}` fails with `KeyError("unknown")` for every distdir and import path |
| GoTest.PlainTemplateIsKept | src/python/pants/backend/go/subsystems/gotest.py:158-160 | A template without braces names the same directory, the template itself, for every package |
| GoTest.DefaultCoverageOutputDir | src/python/pants/backend/go/subsystems/gotest.py:59-60 | With the default template the directory is `distdir + "/coverage/go/" + Escape(import_path)`, for every distdir and import path |
| GoTest.DefaultCoverageOutputDirExample | src/python/pants/backend/go/subsystems/gotest.py:155-161 | With the default template, distdir `dist` and import path `example.com/foo/bar` give `dist/coverage/go/example.com_foo_bar` |
| GoTest.NoSecondExpansion | src/python/pants/backend/go/subsystems/gotest.py:158-160 | A distdir that itself spells `{import_path_escaped}` is copied into the result verbatim, not expanded again |
| StrFormat.FieldEnd | src/python/pants/backend/go/subsystems/gotest.py:158 | The scan for the end of a field stops at the first brace at or after the start, or at the end of the string |
| StrFormat.FirstToken | src/python/pants/backend/go/subsystems/gotest.py:158 | The first token of a non-empty template takes at least one character and no more than the whole string; a field it reads has no brace in its name |
| StrFormat.FirstTokenSyntaxErrors | src/python/pants/backend/go/subsystems/gotest.py:158 | The first token is a `ValueError` exactly for a lone `}`, a field never closed, or a `{` inside a field name; a `{` after `:`, after `!` or inside `[...]` is outside the model; no other first token is an error |
| GoTest.BraceInFieldNameIsMalformed | src/python/pants/backend/go/subsystems/gotest.py:158-160 | A template whose first field has a `{` in its name fails with `ValueError`, for every distdir and import path |
| StrFormat.FirstTokenSpelling | src/python/pants/backend/go/subsystems/gotest.py:158 | A first token that is not a syntax error is spelled by exactly the characters it takes |
| StrFormat.Parse | src/python/pants/backend/go/subsystems/gotest.py:158 | A syntax error can only be the last piece of a scanned template, and a field name never holds a brace |
| StrFormat.Texts | src/python/pants/backend/go/subsystems/gotest.py:158 | Plain text is one literal piece per character, in order |
| StrFormat.LeadingDigits | src/python/pants/backend/go/subsystems/gotest.py:159 | The leading digits of a name are the longest prefix of it made of digits |
| StrFormat.ScanDigitsValue | src/python/pants/backend/go/subsystems/gotest.py:159 | CPython's digit scan, which checks for overflow before each digit, fails exactly when the unbounded value of the leading digits exceeds `PY_SSIZE_T_MAX`, even when a non-digit follows; otherwise an all-digit name reads as its value and any other name as no index |
| StrFormat.ScanIndexValue | src/python/pants/backend/go/subsystems/gotest.py:159 | A field name is read as an index exactly when it is a non-empty string of digits whose decimal value is at most `PY_SSIZE_T_MAX`; too many leading digits are an error; an empty name is no index |
| StrFormat.Lookup | src/python/pants/backend/go/subsystems/gotest.py:159 | A field's value is found if and only if its name is a keyword name and is one of the arguments, and the value is then the argument's. A missing keyword name is `KeyError` of that name. An empty or all-digit name is `IndexError`, and a name whose leading digits exceed `PY_SSIZE_T_MAX` is `ValueError` |
| StrFormat.Format | src/python/pants/backend/go/subsystems/gotest.py:158-160 | Rendering succeeds if and only if every piece of the template can be rendered |
| StrFormat.FormatString | src/python/pants/backend/go/subsystems/gotest.py:158-160 | `template.format(**kwargs)` succeeds if and only if the template has no syntax error and every field in it names a supplied keyword argument |
| StrFormat.FormatFirstError | src/python/pants/backend/go/subsystems/gotest.py:158-160 | When rendering fails, the error is that of the first piece that cannot be rendered |
| StrFormat.FormatAppend | src/python/pants/backend/go/subsystems/gotest.py:158-160 | Rendering two templates one after the other equals rendering the first and prefixing it to the rendering of the second |
| StrFormat.FormatTexts | src/python/pants/backend/go/subsystems/gotest.py:158-160 | Literal text renders to itself, whatever the arguments |
| StrFormat.ParseNoBraces | src/python/pants/backend/go/subsystems/gotest.py:158 | A string without braces is read as plain text |
| StrFormat.FormatNoBraces | src/python/pants/backend/go/subsystems/gotest.py:158-160 | A string without braces is returned unchanged by `str.format` |
| StrFormat.FormatIdempotentOnPlainOutput | src/python/pants/backend/go/subsystems/gotest.py:158-160 | Formatting again a formatted output that has no braces left changes nothing |
| StrFormat.FieldEndAfterName | src/python/pants/backend/go/subsystems/gotest.py:158 | In `{name}` followed by anything, the field ends at the closing brace right after the name |
| StrFormat.FirstTokenOfRendered | src/python/pants/backend/go/subsystems/gotest.py:158 | The spelling of a piece, followed by anything, is read back as that piece with that length |
| StrFormat.ParseFieldPrefix | src/python/pants/backend/go/subsystems/gotest.py:158 | A string that starts with `{name}` is read as that field followed by the reading of the rest |
| StrFormat.ParseRender | src/python/pants/backend/go/subsystems/gotest.py:158 | Round trip: reading the spelling of a template with no syntax error and no brace in a field name gives the template back |
| StrFormat.RenderParse | src/python/pants/backend/go/subsystems/gotest.py:158 | Round trip: a string whose scan hits no syntax error is the spelling of the pieces read from it |
| StrFormat.FirstTokenAppend | src/python/pants/backend/go/subsystems/gotest.py:158 | A first token that is not a syntax error is still the first token when more text follows |
| StrFormat.ParseAppend | src/python/pants/backend/go/subsystems/gotest.py:158 | When the first string scans cleanly, reading a concatenation reads the first string and then the second |
| StrFormat.ParseField | src/python/pants/backend/go/subsystems/gotest.py:158 | `{name}` alone is read as that one field |
| StrFormat.ParseAroundField | src/python/pants/backend/go/subsystems/gotest.py:158 | A field between two texts is read as that field between the readings of the texts |
| StrFormat.FormatField | src/python/pants/backend/go/subsystems/gotest.py:159 | A supplied keyword field renders to its argument |
| StrFormat.FormatAppend3 | src/python/pants/backend/go/subsystems/gotest.py:158-160 | Rendering three templates in a row concatenates their renderings |
| StrFormat.SubstitutionIsVerbatim | src/python/pants/backend/go/subsystems/gotest.py:158-160 | Single pass: a field's value lands in the output verbatim, between the formatted text around it, even when the value holds braces or field names |
| StrFormat.ParseTextField | src/python/pants/backend/go/subsystems/gotest.py:158 | Plain text followed by a field is read as the text's characters and then the field |
| StrFormat.ParseFieldTextField | src/python/pants/backend/go/subsystems/gotest.py:158 | A field, plain text and a field are read as exactly those pieces |
| StrFormat.FormatFieldTextField | src/python/pants/backend/go/subsystems/gotest.py:158-160 | A field, plain text and a field render to the first value, the text and the second value |
| GoTest.CoverageFieldsAreKeywords | src/python/pants/backend/go/subsystems/gotest.py:159 | `distdir` and `import_path_escaped` are looked up as keyword arguments, not read as positional indices |

## Left out

- The options framework is not modelled: option registration, scopes, help text, command-line and config parsing. `GoTestSubsystem` is a record of option values that have already been parsed.
- `EnumOption` validation is not modelled. `CoverMode` admits only its three values, so an invalid cover mode cannot be represented.
- The defaults of `args` (`ArgsListOption`) and `skip` (`SkipOption`) come from the options framework. `Defaults` sets them to the empty list and `false`, and `DefaultsAsDeclared` does not state them.
- Translating pass-through test arguments (`-v` to `-test.v`) is not part of this model, because the subsystem only declares the option.
- Matching import paths against the coverage include patterns is not part of this model, for the same reason.
- Resolving the race-detector and sanitizer options against per-target fields happens outside this file. Only the options' defaults are modelled.
- GoTest.CoverageOutputDir: returns the formatted string. It does not model the `PurePath` that wraps the result, which collapses repeated `/`, drops `.` segments and a trailing `/`.
- The default template in the source is also built by `PurePath`. `DefaultCoverageOutputDirTemplate` is its POSIX spelling, `{distdir}/coverage/go/{import_path_escaped}`.
- `DistDir` is reduced to its relative path, a string.
- StrFormat.Lookup: fields with a conversion (`!r`), a format spec (`:>8`), or attribute or index access (`.x`, `[0]`) are outside the model and give `Unsupported`. Python accepts some of them, for example `{distdir:}`.
- StrFormat.FirstToken: a `{` after `:` opens a field nested in the format spec; after `!` it is read as the conversion character, and inside `[...]` as part of the index key. All three are outside the model and give `Unsupported`.
- StrFormat.ScanIndex: the largest index is `PY_SSIZE_T_MAX` of a 64-bit platform, 2^63 - 1. On a 32-bit platform CPython's limit is 2^31 - 1.
- StrFormat.Lookup: a name is positional only when it is empty or made of the ASCII digits `0`–`9`. Python also accepts other Unicode decimal digits.
- The exact exception messages are not modelled, only the exception kind and, for `KeyError`, the name.
