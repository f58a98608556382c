/**
 * The two pieces of Python's string library that the Go test subsystem uses to
 * compute a coverage directory: `str.replace` and keyword-only `str.format`.
 *
 * `str.format` is modelled for templates made of literal text, the escapes
 * `{{` and `}}`, and `{name}` fields. A field that uses a conversion (`!r`), a
 * format spec (`:>8`, possibly with nested fields) or attribute or index access
 * (`.x`, `[0]`) is outside the model and yields `Unsupported`.
 */
module StrFormat {

  /** The exceptions `str.format` raises, as far as this model distinguishes them. */
  datatype FormatError =
    | Malformed                  // ValueError: a lone '}', a '{' never closed, or a '{' inside a field name
    | PositionalIndex            // IndexError: `{}` or `{0}`, while only keyword arguments are given
    | IndexOverflow              // ValueError: leading digits of a field name above `sys.maxsize`
    | KeyError(name: string)     // KeyError: a keyword field with no matching argument
    | Unsupported                // conversion, format spec, attribute/index access

  datatype Result<T> = Ok(value: T) | Err(error: FormatError)

  // ---------------------------------------------------------------------------
  // str.replace
  // ---------------------------------------------------------------------------

  /** `s.replace(target, replacement)`: every non-overlapping occurrence of
      `target`, scanning left to right, is replaced. An empty `target` matches
      before every character and at the end, as in Python. */
  function Replace(s: string, target: string, replacement: string): (r: string)
    ensures |target| == |replacement| ==> |r| == |s|
    ensures target != [] && !Occurs(target, s) ==> r == s
    decreases |s|
  {
    if target == [] then InsertEverywhere(s, replacement)
    else if |s| < |target| then s
    else if s[..|target|] == target then
      assert OccursAt(target, s, 0);
      replacement + Replace(s[|target|..], target, replacement)
    else
      OccursInTail(target, s);
      [s[0]] + Replace(s[1..], target, replacement)
  }

  predicate OccursAt(target: string, s: string, i: int)
  {
    0 <= i && i + |target| <= |s| && s[i..i + |target|] == target
  }

  /** `target` appears somewhere in `s`. */
  predicate Occurs(target: string, s: string) { exists i :: 0 <= i <= |s| && OccursAt(target, s, i) }

  lemma OccursInTail(target: string, s: string)
    requires s != []
    ensures Occurs(target, s[1..]) ==> Occurs(target, s)
  {
    if Occurs(target, s[1..]) {
      var i :| OccursAt(target, s[1..], i);
      assert OccursAt(target, s[1..], i);
      assert s[1..][i..i + |target|] == s[i + 1..i + 1 + |target|];
      assert OccursAt(target, s, i + 1);
    }
  }

  /** `s.replace("", replacement)`. */
  function InsertEverywhere(s: string, replacement: string): (r: string)
    ensures |r| == |s| + (|s| + 1) * |replacement|
  {
    if s == [] then replacement else replacement + [s[0]] + InsertEverywhere(s[1..], replacement)
  }

  /** Replacing one character by one character works position by position. */
  lemma {:induction false} ReplaceCharwise(s: string, a: char, b: char)
    ensures |Replace(s, [a], [b])| == |s|
    ensures forall i :: 0 <= i < |s| ==> Replace(s, [a], [b])[i] == (if s[i] == a then b else s[i])
  {
    if s != [] {
      ReplaceCharwise(s[1..], a, b);
      assert s[..1] == [s[0]];
      var rest := Replace(s[1..], [a], [b]);
      var head := if s[0] == a then [b] else [s[0]];
      assert Replace(s, [a], [b]) == head + rest;
      forall i | 0 <= i < |s|
        ensures Replace(s, [a], [b])[i] == (if s[i] == a then b else s[i])
      {
        if i > 0 {
          assert (head + rest)[i] == rest[i - 1];
        }
      }
    }
  }

  // ---------------------------------------------------------------------------
  // Characters with a meaning inside a template
  // ---------------------------------------------------------------------------

  predicate IsBrace(c: char) { c == '{' || c == '}' }

  predicate NoBraces(s: string) { forall i :: 0 <= i < |s| ==> !IsBrace(s[i]) }

  /** Characters that start a conversion, a format spec, or attribute/index access. */
  predicate IsAccessor(c: char) { c == ':' || c == '!' || c == '.' || c == '[' }

  predicate HasAccessor(name: string) { exists i :: 0 <= i < |name| && IsAccessor(name[i]) }

  /** Characters after which a `{` is no longer in the field name: after `:` it
      opens a field nested in the format spec, after `!` it is read as the
      conversion character, and inside `[...]` it is part of the index key. */
  predicate StartsSpec(c: char) { c == ':' || c == '!' || c == '[' }

  predicate HasSpecStart(name: string) { exists i :: 0 <= i < |name| && StartsSpec(name[i]) }

  predicate IsDigit(c: char) { '0' <= c <= '9' }

  /** A field name that `str.format` reads as a positional index: empty (automatic
      numbering) or made of decimal digits. */
  predicate IsPositional(name: string) { forall i :: 0 <= i < |name| ==> IsDigit(name[i]) }

  // ---------------------------------------------------------------------------
  // Reading a field name as an index
  // ---------------------------------------------------------------------------

  /** `PY_SSIZE_T_MAX` on a 64-bit platform: the largest index a field can name. */
  const MaxIndex: nat := 0x7FFF_FFFF_FFFF_FFFF

  function DigitValue(c: char): (d: nat)
    requires IsDigit(c)
    ensures d <= 9
  {
    (c as int) - ('0' as int)
  }

  /** The digits read left to right after the value `acc`, with no bound. */
  function Accumulate(digits: string, acc: nat): nat
    requires IsPositional(digits)
  {
    if digits == [] then acc else Accumulate(digits[1..], acc * 10 + DigitValue(digits[0]))
  }

  function DecimalValue(digits: string): nat
    requires IsPositional(digits)
  {
    Accumulate(digits, 0)
  }

  /** The longest prefix of `s` made of digits. */
  function LeadingDigits(s: string): (p: string)
    ensures IsPositional(p) && p <= s
    ensures p == s || !IsDigit(s[|p|])
  {
    if s == [] || !IsDigit(s[0]) then [] else [s[0]] + LeadingDigits(s[1..])
  }

  /** The outcome of trying to read a field name as an index. */
  datatype IndexScan = Index(value: nat) | NotIndex | TooLarge

  /** CPython's `get_integer`, from the value `acc` on: a non-digit means the
      name is no index; a digit that would take the value past `MaxIndex` is an
      error, checked before the digit is added, even when a non-digit follows. */
  function ScanDigits(s: string, acc: nat): IndexScan
  {
    if s == [] then Index(acc)
    else if !IsDigit(s[0]) then NotIndex
    else
      var d := DigitValue(s[0]);
      if acc > (MaxIndex - d) / 10 then TooLarge
      else ScanDigits(s[1..], acc * 10 + d)
  }

  /** `get_integer` on a whole field name; an empty name is no index. */
  function ScanIndex(name: string): IndexScan
  {
    if name == [] then NotIndex else ScanDigits(name, 0)
  }

  lemma {:induction false} AccumulateAtLeast(digits: string, acc: nat)
    requires IsPositional(digits)
    ensures Accumulate(digits, acc) >= acc
  {
    if digits != [] {
      AccumulateAtLeast(digits[1..], acc * 10 + DigitValue(digits[0]));
    }
  }

  /** The bounded scan agrees with the unbounded decimal reading of the leading
      digits: it fails exactly when they exceed `MaxIndex`. */
  lemma {:induction false} ScanDigitsValue(s: string, acc: nat)
    requires acc <= MaxIndex
    ensures ScanDigits(s, acc) ==
      if Accumulate(LeadingDigits(s), acc) > MaxIndex then TooLarge
      else if IsPositional(s) then Index(Accumulate(s, acc))
      else NotIndex
  {
    if s != [] && IsDigit(s[0]) {
      var d := DigitValue(s[0]);
      var next := acc * 10 + d;
      var lead := LeadingDigits(s[1..]);
      assert Accumulate(LeadingDigits(s), acc) == Accumulate(lead, next) by {
        assert LeadingDigits(s) == [s[0]] + lead;
        assert ([s[0]] + lead)[1..] == lead;
      }
      assert IsPositional(s) <==> IsPositional(s[1..]) by {
        assert forall i :: 1 <= i < |s| ==> s[1..][i - 1] == s[i];
      }
      if acc > (MaxIndex - d) / 10 {
        AccumulateAtLeast(lead, next);
      } else {
        ScanDigitsValue(s[1..], next);
      }
    }
  }

  /** A field name is read as an index exactly when it is a non-empty string of
      digits whose value is at most `MaxIndex`; leading digits above it are an error. */
  lemma ScanIndexValue(name: string)
    ensures ScanIndex(name) ==
      if DecimalValue(LeadingDigits(name)) > MaxIndex then TooLarge
      else if name != [] && IsPositional(name) then Index(DecimalValue(name))
      else NotIndex
  {
    if name != [] {
      ScanDigitsValue(name, 0);
    }
  }

  /** A field name whose leading digits are too many for an index. */
  predicate TooManyDigits(name: string) { DecimalValue(LeadingDigits(name)) > MaxIndex }

  /** A field name that `str.format` looks up among the keyword arguments. */
  predicate IsKeyword(name: string) { !HasAccessor(name) && !IsPositional(name) && !TooManyDigits(name) }

  // ---------------------------------------------------------------------------
  // Templates
  // ---------------------------------------------------------------------------

  /** One step of `str.format`'s scan of a template: a literal character, a
      replacement field, or the syntax error the scan stops at. */
  datatype Piece = Text(c: char) | Field(name: string) | Bad(error: FormatError)

  type Template = seq<Piece>

  predicate NoBad(t: Template) { forall i :: 0 <= i < |t| ==> !t[i].Bad? }

  /** The templates that some string spells: no syntax error, no brace in a field name. */
  predicate WellFormed(t: Template)
  {
    forall i :: 0 <= i < |t| ==> !t[i].Bad? && (t[i].Field? ==> NoBraces(t[i].name))
  }

  /** The first brace at or after position `i`, or `|s|` when there is none. */
  function FieldEnd(s: string, i: nat): (j: nat)
    requires i <= |s|
    ensures i <= j <= |s|
    ensures j < |s| ==> IsBrace(s[j])
    ensures forall k :: i <= k < j ==> !IsBrace(s[k])
    decreases |s| - i
  {
    if i == |s| || IsBrace(s[i]) then i else FieldEnd(s, i + 1)
  }

  /** The first token of a template: the piece it spells and how many
      characters it takes. A syntax error takes the rest of the string, since
      the scan stops there. */
  datatype Token = Token(piece: Piece, length: nat)

  function FirstToken(s: string): (tok: Token)
    requires s != []
    ensures 0 < tok.length <= |s|
    ensures tok.piece.Field? ==> NoBraces(tok.piece.name)
  {
    if s[0] == '{' then
      if |s| > 1 && s[1] == '{' then Token(Text('{'), 2)
      else
        var j := FieldEnd(s, 1);
        if j == |s| then Token(Bad(Malformed), |s|)
        else if s[j] == '{' then
          if HasSpecStart(s[1..j]) then Token(Bad(Unsupported), |s|) else Token(Bad(Malformed), |s|)
        else Token(Field(s[1..j]), j + 1)
    else if s[0] == '}' then
      if |s| > 1 && s[1] == '}' then Token(Text('}'), 2) else Token(Bad(Malformed), |s|)
    else Token(Text(s[0]), 1)
  }

  /** `s` starts a replacement field: a `{` that is not the escape `{{`. */
  predicate OpensField(s: string) { |s| > 0 && s[0] == '{' && !(|s| > 1 && s[1] == '{') }

  /** `s` starts with a `}` that is not the escape `}}`. */
  predicate LoneCloseBrace(s: string) { |s| > 0 && s[0] == '}' && !(|s| > 1 && s[1] == '}') }

  /** The first brace after the opening `{` of `s` is at `j`, and it is another `{`. */
  predicate InnerOpenAt(s: string, j: int) { 1 <= j < |s| && s[j] == '{' && NoBraces(s[1..j]) }

  /** The syntax errors of a template's first token. A lone `}`, a field that is
      never closed, and a `{` inside a field name are `ValueError`s. A `{` after
      a `:` (a field nested in the format spec), a `!` (the conversion character)
      or a `[` (part of the index key) is outside the model. No other first
      token is an error. */
  lemma FirstTokenSyntaxErrors(s: string)
    requires s != []
    ensures FirstToken(s).piece == Bad(Malformed) <==>
      || LoneCloseBrace(s)
      || (OpensField(s) && NoBraces(s[1..]))
      || (OpensField(s) && exists j :: InnerOpenAt(s, j) && !HasSpecStart(s[1..j]))
    ensures FirstToken(s).piece == Bad(Unsupported) <==>
      OpensField(s) && exists j :: InnerOpenAt(s, j) && HasSpecStart(s[1..j])
    ensures FirstToken(s).piece.Bad? ==>
      FirstToken(s).piece.error == Malformed || FirstToken(s).piece.error == Unsupported
  {
    if OpensField(s) {
      var j0 := FieldEnd(s, 1);
      forall j | InnerOpenAt(s, j) ensures j == j0 {
        assert forall k :: 1 <= k < j ==> s[1..j][k - 1] == s[k];
      }
      assert forall k :: 0 <= k < |s| - 1 ==> s[1..][k] == s[k + 1];
      if j0 < |s| && s[j0] == '{' {
        assert InnerOpenAt(s, j0) by {
          assert forall k :: 0 <= k < j0 - 1 ==> s[1..j0][k] == s[k + 1];
        }
      }
    }
  }

  /** A token that is not a syntax error spells the piece it stands for. */
  lemma FirstTokenSpelling(s: string)
    requires s != [] && !FirstToken(s).piece.Bad?
    ensures s[..FirstToken(s).length] == RenderPiece(FirstToken(s).piece)
  {
    var tok := FirstToken(s);
    if s[0] == '{' && !(|s| > 1 && s[1] == '{') {
      var j := FieldEnd(s, 1);
      assert s[..j + 1] == "{" + s[1..j] + "}";
    } else if s[0] == '{' || s[0] == '}' {
      assert s[..2] == [s[0], s[1]];
    } else {
      assert s[..1] == [s[0]];
    }
  }

  /** The pieces `str.format` reads from `s`, left to right. A syntax error
      ends the scan, so it can only be the last piece; a field name never
      contains a brace. */
  function Parse(s: string): (t: Template)
    ensures forall i :: 0 <= i < |t| - 1 ==> !t[i].Bad?
    ensures forall i :: 0 <= i < |t| && t[i].Field? ==> NoBraces(t[i].name)
    decreases |s|
  {
    if s == [] then []
    else
      var tok := FirstToken(s);
      if tok.piece.Bad? then [tok.piece] else [tok.piece] + Parse(s[tok.length..])
  }

  /** The replacement field `{name}`. */
  function Placeholder(name: string): string { "{" + name + "}" }

  function RenderPiece(p: Piece): string
    requires !p.Bad?
  {
    match p
    case Text(c) => if IsBrace(c) then [c, c] else [c]
    case Field(name) => Placeholder(name)
  }

  /** The template string that spells `t` (the inverse of `Parse`). */
  function Render(t: Template): string
    requires NoBad(t)
  {
    if t == [] then [] else RenderPiece(t[0]) + Render(t[1..])
  }

  /** One literal piece per character of `s`. */
  function Texts(s: string): (t: Template)
    ensures |t| == |s|
    ensures forall i :: 0 <= i < |s| ==> t[i] == Text(s[i])
  {
    if s == [] then [] else [Text(s[0])] + Texts(s[1..])
  }

  // ---------------------------------------------------------------------------
  // str.format
  // ---------------------------------------------------------------------------

  /** The value `str.format` substitutes for a field `name`. */
  function Lookup(name: string, kwargs: map<string, string>): (r: Result<string>)
    ensures r.Ok? <==> IsKeyword(name) && name in kwargs
    ensures r.Ok? ==> r.value == kwargs[name]
    ensures IsKeyword(name) && name !in kwargs ==> r == Err(KeyError(name))
    ensures !HasAccessor(name) && IsPositional(name) && !TooManyDigits(name) ==> r == Err(PositionalIndex)
    ensures !HasAccessor(name) && TooManyDigits(name) ==> r == Err(IndexOverflow)
  {
    if HasAccessor(name) then Err(Unsupported)
    else
      ScanIndexValue(name);
      match ScanIndex(name)
      case TooLarge => Err(IndexOverflow)
      case Index(_) => Err(PositionalIndex)
      case NotIndex =>
        if name == [] then Err(PositionalIndex)
        else if name in kwargs then Ok(kwargs[name])
        else Err(KeyError(name))
  }

  function PieceValue(p: Piece, kwargs: map<string, string>): Result<string>
  {
    match p
    case Text(c) => Ok([c])
    case Field(name) => Lookup(name, kwargs)
    case Bad(e) => Err(e)
  }

  predicate Renders(p: Piece, kwargs: map<string, string>) { PieceValue(p, kwargs).Ok? }

  /** `x` in front of a successful result; an error is passed on unchanged. */
  function Prepend(x: string, r: Result<string>): Result<string>
  {
    if r.Ok? then Ok(x + r.value) else r
  }

  /** Rendering a parsed template. Substituted values are copied into the
      output and never scanned again. The result is an error exactly when some
      piece cannot be rendered. */
  function Format(t: Template, kwargs: map<string, string>): (r: Result<string>)
    ensures r.Ok? <==> forall i :: 0 <= i < |t| ==> Renders(t[i], kwargs)
  {
    if t == [] then Ok([])
    else
      var head := PieceValue(t[0], kwargs);
      if head.Err? then Err(head.error)
      else
        var rest := Format(t[1..], kwargs);
        assert forall i :: 1 <= i < |t| ==> t[1..][i - 1] == t[i];
        Prepend(head.value, rest)
  }

  /** `template.format(**kwargs)`. */
  function FormatString(template: string, kwargs: map<string, string>): (r: Result<string>)
    ensures r.Ok? <==> NoBad(Parse(template)) && forall i :: 0 <= i < |Parse(template)| && Parse(template)[i].Field? ==>
      IsKeyword(Parse(template)[i].name) && Parse(template)[i].name in kwargs
  {
    Format(Parse(template), kwargs)
  }

  // ---------------------------------------------------------------------------
  // Properties of parsing and rendering
  // ---------------------------------------------------------------------------

  /** The error `str.format` raises is that of the first piece it cannot
      render: the scan is lazy, so a bad field wins over a later syntax error. */
  lemma {:induction false} FormatFirstError(t: Template, kwargs: map<string, string>, k: nat)
    requires k < |t| && !Renders(t[k], kwargs)
    requires forall i :: 0 <= i < k ==> Renders(t[i], kwargs)
    ensures Format(t, kwargs) == Err(PieceValue(t[k], kwargs).error)
  {
    if k > 0 {
      assert t[1..][k - 1] == t[k];
      FormatFirstError(t[1..], kwargs, k - 1);
    }
  }

  /** Formatting a concatenation formats the two parts one after the other. */
  lemma {:induction false} FormatAppend(t1: Template, t2: Template, kwargs: map<string, string>)
    requires Format(t1, kwargs).Ok?
    ensures Format(t1 + t2, kwargs) == Prepend(Format(t1, kwargs).value, Format(t2, kwargs))
  {
    if t1 != [] {
      var head := PieceValue(t1[0], kwargs).value;
      var rest := Format(t1[1..], kwargs);
      assert Format(t1, kwargs) == Prepend(head, rest);
      assert (t1 + t2)[0] == t1[0];
      assert (t1 + t2)[1..] == t1[1..] + t2;
      FormatAppend(t1[1..], t2, kwargs);
      var r2 := Format(t2, kwargs);
      if r2.Ok? {
        assert head + (rest.value + r2.value) == (head + rest.value) + r2.value;
      }
    } else {
      assert t1 + t2 == t2;
      assert Format(t2, kwargs).Ok? ==> [] + Format(t2, kwargs).value == Format(t2, kwargs).value;
    }
  }

  /** Literal text formats to itself, whatever the arguments. */
  lemma {:induction false} FormatTexts(s: string, kwargs: map<string, string>)
    ensures Format(Texts(s), kwargs) == Ok(s)
  {
    if s != [] {
      assert Texts(s)[1..] == Texts(s[1..]);
      FormatTexts(s[1..], kwargs);
      assert [s[0]] + s[1..] == s;
    }
  }

  /** A string without braces is read as plain text. */
  lemma {:induction false} ParseNoBraces(s: string)
    requires NoBraces(s)
    ensures Parse(s) == Texts(s)
  {
    if s != [] {
      assert !IsBrace(s[0]);
      ParseNoBraces(s[1..]);
    }
  }

  /** A string without braces is returned unchanged by `str.format`. */
  lemma {:induction false} FormatNoBraces(s: string, kwargs: map<string, string>)
    requires NoBraces(s)
    ensures FormatString(s, kwargs) == Ok(s)
  {
    ParseNoBraces(s);
    FormatTexts(s, kwargs);
  }

  /** Formatting an output that has no braces left gives it back unchanged. */
  lemma {:induction false} FormatIdempotentOnPlainOutput(template: string, kwargs: map<string, string>)
    requires FormatString(template, kwargs).Ok? && NoBraces(FormatString(template, kwargs).value)
    ensures FormatString(FormatString(template, kwargs).value, kwargs) == FormatString(template, kwargs)
  {
    FormatNoBraces(FormatString(template, kwargs).value, kwargs);
  }

  lemma RenderCons(t: Template)
    requires t != [] && NoBad(t)
    ensures NoBad(t[1..])
    ensures Render(t) == RenderPiece(t[0]) + Render(t[1..])
  {
    assert forall i :: 0 <= i < |t| - 1 ==> t[1..][i] == t[i + 1];
  }

  /** Scanning a field `{name}` followed by anything stops at the closing brace. */
  lemma {:induction false} FieldEndAfterName(name: string, rest: string)
    requires NoBraces(name)
    ensures FieldEnd(Placeholder(name) + rest, 1) == |name| + 1
  {
    var s := "{" + name + "}" + rest;
    assert s[|name| + 1] == '}';
    assert forall k :: 1 <= k < |name| + 1 ==> s[k] == name[k - 1];
  }

  /** The spelling of a piece, followed by anything, is read back as that piece. */
  lemma {:induction false} FirstTokenOfRendered(p: Piece, rest: string)
    requires !p.Bad? && (p.Field? ==> NoBraces(p.name))
    ensures FirstToken(RenderPiece(p) + rest) == Token(p, |RenderPiece(p)|)
  {
    var s := RenderPiece(p) + rest;
    match p
    case Text(c) =>
      assert s[0] == c;
      if IsBrace(c) { assert s[1] == c; }
    case Field(name) =>
      assert s == "{" + name + "}" + rest;
      FieldEndAfterName(name, rest);
      assert s[1] != '{' by {
        if |name| > 0 { assert s[1] == name[0]; }
      }
      assert s[1..|name| + 1] == name;
  }

  /** A string that starts with a field `{name}` is read as that field first. */
  lemma {:induction false} ParseFieldPrefix(name: string, rest: string)
    requires NoBraces(name)
    ensures Parse(Placeholder(name) + rest) == [Field(name)] + Parse(rest)
  {
    FirstTokenOfRendered(Field(name), rest);
    var s := Placeholder(name) + rest;
    assert s[|name| + 2..] == rest;
  }

  /** Round trip: parsing the rendering of a well-formed template gives it back. */
  lemma {:induction false} ParseRender(t: Template)
    requires WellFormed(t)
    ensures Parse(Render(t)) == t
  {
    if t != [] {
      RenderCons(t);
      var first := RenderPiece(t[0]);
      var rest := Render(t[1..]);
      assert WellFormed(t[1..]) by {
        assert forall i :: 0 <= i < |t| - 1 ==> t[1..][i] == t[i + 1];
      }
      ParseRender(t[1..]);
      FirstTokenOfRendered(t[0], rest);
      assert (first + rest)[|first|..] == rest;
    }
  }

  /** Round trip: a string whose scan hits no syntax error is the rendering of its pieces. */
  lemma {:induction false} RenderParse(s: string)
    requires NoBad(Parse(s))
    ensures Render(Parse(s)) == s
  {
    if s != [] {
      var t := Parse(s);
      var tok := FirstToken(s);
      assert t[0] == tok.piece;
      assert t[1..] == Parse(s[tok.length..]);
      FirstTokenSpelling(s);
      RenderCons(t);
      RenderParse(s[tok.length..]);
      assert s == s[..tok.length] + s[tok.length..];
    }
  }

  /** The first token of `a` is also the first token of `a + b`, unless it is
      a syntax error (which may be resolved by what follows). */
  lemma {:induction false} FirstTokenAppend(a: string, b: string)
    requires a != [] && !FirstToken(a).piece.Bad?
    ensures FirstToken(a + b) == FirstToken(a)
  {
    var s := a + b;
    assert forall i :: 0 <= i < |a| ==> s[i] == a[i];
    if a[0] == '{' && !(|a| > 1 && a[1] == '{') {
      var j := FieldEnd(a, 1);
      assert j < |a|;
      assert FieldEnd(s, 1) == j;
      assert s[1..j] == a[1..j];
    }
  }

  /** Scanning `a + b` reads `a` to its end and then `b`, when `a` scans cleanly. */
  lemma {:induction false} ParseAppend(a: string, b: string)
    requires NoBad(Parse(a))
    ensures Parse(a + b) == Parse(a) + Parse(b)
  {
    if a == [] {
      assert a + b == b;
    } else {
      var t := Parse(a);
      var tok := FirstToken(a);
      var n := tok.length;
      var rest := Parse(a[n..]);
      assert !tok.piece.Bad? && t == [tok.piece] + rest by {
        assert t[0] == tok.piece;
      }
      assert NoBad(rest) by {
        forall i | 0 <= i < |rest| ensures !rest[i].Bad? {
          assert rest[i] == t[i + 1];
        }
      }
      assert Parse(a + b) == [tok.piece] + Parse(a[n..] + b) by {
        FirstTokenAppend(a, b);
        DropAppend(a, b, n);
      }
      ParseAppend(a[n..], b);
      AppendAssoc([tok.piece], rest, Parse(b));
    }
  }

  lemma AppendAssoc<T>(x: seq<T>, y: seq<T>, z: seq<T>)
    ensures x + y + z == x + (y + z)
  {
  }

  lemma AppendEmpty<T>(x: seq<T>)
    ensures x + [] == x
  {
  }

  lemma DropAppend<T>(x: seq<T>, y: seq<T>, n: nat)
    requires n <= |x|
    ensures (x + y)[n..] == x[n..] + y
  {
  }

  /** A field `{name}` is read as that field and nothing else. */
  lemma {:induction false} ParseField(name: string)
    requires NoBraces(name)
    ensures Parse(Placeholder(name)) == [Field(name)]
  {
    ParseFieldPrefix(name, "");
    assert Placeholder(name) + "" == Placeholder(name);
  }

  /** A field between two pieces of text is read as that field, between the
      pieces the two texts scan to. */
  lemma {:induction false} ParseAroundField(pre: string, name: string, post: string)
    requires NoBad(Parse(pre)) && NoBraces(name)
    ensures Parse(pre + Placeholder(name) + post) == Parse(pre) + [Field(name)] + Parse(post)
  {
    var rest := Placeholder(name) + post;
    assert Parse(rest) == [Field(name)] + Parse(post) by {
      ParseFieldPrefix(name, post);
    }
    assert Parse(pre + rest) == Parse(pre) + Parse(rest) by {
      ParseAppend(pre, rest);
    }
    AppendAssoc(pre, Placeholder(name), post);
    AppendAssoc(Parse(pre), [Field(name)], Parse(post));
  }

  /** A field formats to its value. */
  lemma FormatField(name: string, kwargs: map<string, string>)
    requires IsKeyword(name) && name in kwargs
    ensures Format([Field(name)], kwargs) == Ok(kwargs[name])
  {
    assert [Field(name)][1..] == [];
    assert kwargs[name] + [] == kwargs[name];
  }

  /** Formatting three templates one after the other. */
  lemma FormatAppend3(t1: Template, t2: Template, t3: Template, kwargs: map<string, string>)
    requires Format(t1, kwargs).Ok? && Format(t2, kwargs).Ok?
    ensures Format(t1 + t2 + t3, kwargs)
         == Prepend(Format(t1, kwargs).value + Format(t2, kwargs).value, Format(t3, kwargs))
  {
    FormatAppend(t1, t2, kwargs);
    FormatAppend(t1 + t2, t3, kwargs);
  }

  /** Single pass: the value of a field lands in the output verbatim, between
      the formatted text around it, even when the value itself contains braces
      or field names. */
  lemma {:induction false} SubstitutionIsVerbatim(pre: string, name: string, post: string, kwargs: map<string, string>)
    requires FormatString(pre, kwargs).Ok? && FormatString(post, kwargs).Ok?
    requires NoBraces(name) && IsKeyword(name) && name in kwargs
    ensures FormatString(pre + Placeholder(name) + post, kwargs)
         == Ok(FormatString(pre, kwargs).value + kwargs[name] + FormatString(post, kwargs).value)
  {
    var tp := Parse(pre);
    assert NoBad(tp) by {
      forall i | 0 <= i < |tp| ensures !tp[i].Bad? { assert Renders(tp[i], kwargs); }
    }
    ParseAroundField(pre, name, post);
    FormatField(name, kwargs);
    FormatAppend3(tp, [Field(name)], Parse(post), kwargs);
  }

  /** Plain text followed by a field is read as that text and that field. */
  lemma {:induction false} ParseTextField(middle: string, b: string)
    requires NoBraces(middle) && NoBraces(b)
    ensures Parse(middle + Placeholder(b)) == Texts(middle) + [Field(b)]
  {
    ParseNoBraces(middle);
    ParseNoBraces("");
    ParseAroundField(middle, b, "");
    AppendEmpty(middle + Placeholder(b));
    AppendEmpty(Texts(middle) + [Field(b)]);
  }

  /** A field, plain text and a field are read as exactly those pieces. */
  lemma {:induction false} ParseFieldTextField(a: string, middle: string, b: string)
    requires NoBraces(a) && NoBraces(middle) && NoBraces(b)
    ensures Parse(Placeholder(a) + middle + Placeholder(b)) == [Field(a)] + Texts(middle) + [Field(b)]
  {
    var tail := middle + Placeholder(b);
    ParseTextField(middle, b);
    ParseFieldPrefix(a, tail);
    AppendAssoc(Placeholder(a), middle, Placeholder(b));
    AppendAssoc([Field(a)], Texts(middle), [Field(b)]);
  }

  /** A template made of a field, plain text and a field formats to the two
      values with the text between them. */
  lemma {:induction false} FormatFieldTextField(a: string, middle: string, b: string, kwargs: map<string, string>)
    requires NoBraces(a) && IsKeyword(a) && a in kwargs
    requires NoBraces(b) && IsKeyword(b) && b in kwargs
    requires NoBraces(middle)
    ensures FormatString(Placeholder(a) + middle + Placeholder(b), kwargs) == Ok(kwargs[a] + middle + kwargs[b])
  {
    ParseFieldTextField(a, middle, b);
    FormatField(a, kwargs);
    FormatField(b, kwargs);
    FormatTexts(middle, kwargs);
    FormatAppend3([Field(a)], Texts(middle), [Field(b)], kwargs);
  }
}
