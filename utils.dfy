/** src/utils.ts: the tool-schema translator `functionToJson`, which reads a
    function's parameters and description off its source text, and
    `mergeChunk`. */
module Utils {
  import opened Wrappers
  import opened Types
  import opened JsString

  /** The schema name of a function whose `name` is empty. */
  const AnonymousName := "anonymous"

  /** The only parameter type functionToJson reports. */
  const StringType := "string"

  /** The `function` object of a FunctionSignature. Its constant parts
      (`type: 'function'`, `parameters.type: 'object'`) are left implicit;
      `properties` maps each parameter name to its type. */
  datatype Schema = Schema(
    name: string,
    description: string,
    properties: map<string, string>,
    required: seq<string>)

  /** The argument of functionToJson: a function, seen through `func.name` and
      `func.toString()`, or any value that is not a function. */
  datatype Callee = Function(name: string, source: string) | NotFunction

  /** The text between the first "(" and the first ")" of the source, with
      the index arithmetic of `slice` (a missing ")" gives end -1, which
      slice reads as one before the end). */
  function ParameterText(source: string): string {
    Slice(source, IndexOf(source, "(", 0) + 1, IndexOf(source, ")", 0))
  }

  /** The parameter text split on "," with every piece trimmed. */
  function Segments(source: string): (r: seq<string>)
    ensures |r| == |Split(ParameterText(source), ',')|
  {
    var parts := Split(ParameterText(source), ',');
    seq(|parts|, i requires 0 <= i < |parts| => Trim(parts[i]))
  }

  /** What the forEach reads off one segment through `param.split('=')`:
      the first piece `paramName`, trimmed as the property key; whether that
      piece is non-empty (`if (paramName)`); and whether a second piece,
      `defaultValue`, exists. */
  datatype Param = Param(name: string, declared: bool, hasDefault: bool)

  function ReadSegment(segment: string): Param {
    var parts := Split(segment, '=');
    Param(Trim(parts[0]), parts[0] != "", |parts| > 1)
  }

  /** The segments as the forEach reads them. */
  function ReadAll(segments: seq<string>): (r: seq<Param>)
    ensures |r| == |segments|
  {
    seq(|segments|, i requires 0 <= i < |segments| => ReadSegment(segments[i]))
  }

  /** The parameter segments of a source as the forEach reads them. */
  function Params(source: string): seq<Param> {
    ReadAll(Segments(source))
  }

  /** The `parameters` record after the forEach has visited the segments. */
  function Properties(params: seq<Param>): map<string, string>
    decreases |params|
  {
    if params == [] then map[]
    else
      var p := params[|params| - 1];
      var m := Properties(params[..|params| - 1]);
      if p.declared then m[p.name := StringType] else m
  }

  /** The `required` array after the forEach has visited the segments. */
  function Required(params: seq<Param>): seq<string>
    decreases |params|
  {
    if params == [] then []
    else
      var p := params[|params| - 1];
      var r := Required(params[..|params| - 1]);
      if p.declared && !p.hasDefault then r + [p.name] else r
  }

  // The trimmed text of the first `/** ... */` comment, or "" (the lazy
  // regular expression of src/utils.ts: the first "/**", then the first
  // "*/" after it).
  function Description(source: string): string {
    var open := IndexOf(source, "/**", 0);
    if open < 0 then ""
    else
      var close := IndexOf(source, "*/", open + 3);
      if close < 0 then "" else Trim(source[open + 3..close])
  }

  /** The schema functionToJson builds for a function with this name and
      source text. */
  function Translate(name: string, source: string): Schema {
    Schema(
      if name == "" then AnonymousName else name,
      Description(source),
      Properties(Params(source)),
      Required(Params(source)))
  }

  /** functionToJson: rejects a non-function; otherwise walks the parameter
      segments, recording every named one as a string property and the ones
      without a default as required. */
  method FunctionToJson(callee: Callee) returns (r: Result<Schema, Error>)
    ensures callee.NotFunction? ==> r == Failure(NotAFunction)
    ensures callee.Function? ==> r == Success(Translate(callee.name, callee.source))
    ensures callee.Function? ==> r.value.name == (if callee.name == "" then AnonymousName else callee.name)
  {
    if callee.NotFunction? {
      return Failure(NotAFunction);
    }
    var name := if callee.name == "" then AnonymousName else callee.name;
    var parameters, required := CollectParameters(Segments(callee.source));
    return Success(Schema(name, Description(callee.source), parameters, required));
  }

  /** The forEach of functionToJson over the trimmed segments: every named
      segment becomes a string property, and one without a default is also
      required. */
  method CollectParameters(params: seq<string>) returns (parameters: map<string, string>, required: seq<string>)
    ensures parameters == Properties(ReadAll(params))
    ensures required == Required(ReadAll(params))
  {
    ghost var read := ReadAll(params);
    parameters := map[];
    required := [];
    for i := 0 to |params|
      invariant parameters == Properties(read[..i])
      invariant required == Required(read[..i])
    {
      var p := ReadSegment(params[i]);
      assert read[..i + 1] == read[..i] + [p];
      PropertiesStep(read[..i], p);
      RequiredSnoc(read[..i], p);
      if p.declared {
        parameters := parameters[p.name := StringType];
        if !p.hasDefault {
          required := required + [p.name];
        }
      }
    }
    assert read[..|params|] == read;
  }

  /** A segment has a default exactly when it contains "=". */
  lemma HasDefaultIffEquals(segment: string)
    ensures ReadSegment(segment).hasDefault <==> '=' in segment
  {
    SplitSingle(segment, '=');
  }

  /** A segment declares a parameter unless it is empty or starts with "=". */
  lemma DeclaredIffNamed(segment: string)
    ensures ReadSegment(segment).declared <==> segment != [] && segment[0] != '='
  {
  }

  /** The segment declares a parameter named k. */
  predicate Names(p: Param, k: string) {
    p.declared && p.name == k
  }

  /** The segment declares a parameter named x without a default. */
  predicate RequiresName(p: Param, x: string) {
    Names(p, x) && !p.hasDefault
  }

  // The properties after one more segment.
  lemma PropertiesStep(init: seq<Param>, p: Param)
    ensures Properties(init + [p]) == if p.declared then Properties(init)[p.name := StringType] else Properties(init)
  {
    assert (init + [p])[..|init|] == init;
  }

  // One more segment adds at most its own name to the properties.
  lemma PropertiesSnoc(init: seq<Param>, p: Param)
    ensures forall k :: k in Properties(init + [p]) <==> k in Properties(init) || Names(p, k)
    ensures forall k :: k in Properties(init + [p]) ==>
      Properties(init + [p])[k] == if Names(p, k) then StringType else Properties(init)[k]
  {
    assert (init + [p])[..|init|] == init;
  }

  // One more segment adds at most its own name to the required names.
  lemma RequiredSnoc(init: seq<Param>, p: Param)
    ensures Required(init + [p]) == Required(init) + (if p.declared && !p.hasDefault then [p.name] else [])
  {
    assert (init + [p])[..|init|] == init;
  }

  /** Every declaring segment, and nothing else, becomes a property, and every
      property has type "string". */
  lemma {:induction false} PropertiesOfSegments(params: seq<Param>)
    ensures forall k :: k in Properties(params) <==>
      exists i :: 0 <= i < |params| && Names(params[i], k)
    ensures forall k :: k in Properties(params) ==> Properties(params)[k] == StringType
  {
    if params != [] {
      var n := |params| - 1;
      var init := params[..n];
      PropertiesOfSegments(init);
      assert params == init + [params[n]];
      PropertiesSnoc(init, params[n]);
      assert forall i :: 0 <= i < n ==> init[i] == params[i];
      forall k | k in Properties(params)
        ensures exists i :: 0 <= i < |params| && Names(params[i], k)
      {
        if k in Properties(init) {
          var i :| 0 <= i < n && Names(init[i], k);
          assert Names(params[i], k);
        }
      }
    }
  }

  /** A name is required exactly when some segment declares it without a
      default. */
  lemma {:induction false} RequiredOfSegments(params: seq<Param>)
    ensures forall x :: x in Required(params) <==>
      exists i :: 0 <= i < |params| && RequiresName(params[i], x)
  {
    if params != [] {
      var n := |params| - 1;
      var init := params[..n];
      RequiredOfSegments(init);
      assert params == init + [params[n]];
      RequiredSnoc(init, params[n]);
      assert forall i :: 0 <= i < n ==> init[i] == params[i];
      forall x | x in Required(params)
        ensures exists i :: 0 <= i < |params| && RequiresName(params[i], x)
      {
        if x in Required(init) {
          var i :| 0 <= i < n && RequiresName(init[i], x);
          assert RequiresName(params[i], x);
        }
      }
    }
  }

  /** `required` names only properties. */
  lemma RequiredAreProperties(params: seq<Param>)
    ensures forall x :: x in Required(params) ==> x in Properties(params)
  {
    RequiredOfSegments(params);
    PropertiesOfSegments(params);
  }

  /** `required` follows declaration order: the required names of a
      concatenation are those of the first part, then those of the second. */
  lemma {:induction false} RequiredInDeclarationOrder(first: seq<Param>, second: seq<Param>)
    ensures Required(first + second) == Required(first) + Required(second)
    decreases |second|
  {
    if second == [] {
      assert first + second == first;
    } else {
      var init := second[..|second| - 1];
      var last := second[|second| - 1];
      RequiredInDeclarationOrder(first, init);
      assert second == init + [last];
      assert first + second == (first + init) + [last];
      RequiredSnoc(first + init, last);
      RequiredSnoc(init, last);
    }
  }

  /** A parameter list of nothing but white space, `()` included, yields no
      properties and nothing required. */
  lemma EmptyParameterList(source: string)
    requires AllWhitespace(ParameterText(source))
    ensures Properties(Params(source)) == map[]
    ensures Required(Params(source)) == []
  {
    var text := ParameterText(source);
    forall k | 0 <= k < |text| ensures text[k] != ',' {
      assert IsWhitespace(text[k]);
    }
    SplitSingle(text, ',');
    var segs := Segments(source);
    assert segs == [Trim(text)];
    assert Trim(text) == [];
    assert Split([], '=') == [[]];
    var read := Params(source);
    assert read == [Param([], false, false)];
    assert read[..0] == [];
  }

  // A source without "/**" has the empty description.
  lemma NoDocComment(source: string)
    requires !Contains(source, "/**")
    ensures Description(source) == ""
  {
    var open := IndexOf(source, "/**", 0);
    assert !OccursAt(source, "/**", open);
  }

  // An opening "/**" that is never closed gives the empty description.
  lemma UnclosedDocComment(source: string, open: nat)
    requires OccursAt(source, "/**", open)
    requires forall k :: 0 <= k < open ==> !OccursAt(source, "/**", k)
    requires forall k :: open + 3 <= k ==> !OccursAt(source, "*/", k)
    ensures Description(source) == ""
  {
    IndexOfFinds(source, "/**", 0, open);
    var close := IndexOf(source, "*/", open + 3);
    assert !OccursAt(source, "*/", close);
  }

  // The description is the trimmed text between the first "/**" and the
  // first "*/" after it.
  lemma DocComment(source: string, open: nat, close: nat)
    requires OccursAt(source, "/**", open)
    requires forall k :: 0 <= k < open ==> !OccursAt(source, "/**", k)
    requires open + 3 <= close && OccursAt(source, "*/", close)
    requires forall k :: open + 3 <= k < close ==> !OccursAt(source, "*/", k)
    ensures Description(source) == Trim(source[open + 3..close])
  {
    IndexOfFinds(source, "/**", 0, open);
    IndexOfFinds(source, "*/", open + 3, close);
  }

  /** mergeChunk(chunk, current): drop one trailing newline of current, then
      append chunk. */
  function MergeChunk(chunk: string, current: string): (r: string)
    ensures |r| >= |chunk| && r[|r| - |chunk|..] == chunk
    ensures |current| > 0 && current[|current| - 1] == '\n' ==> r[..|r| - |chunk|] + "\n" == current
    ensures (|current| == 0 || current[|current| - 1] != '\n') ==> r == current + chunk
  {
    if |current| > 0 && current[|current| - 1] == '\n' then current[..|current| - 1] + chunk
    else current + chunk
  }

  /** Only one newline goes: of two trailing newlines, one remains. */
  lemma MergeChunkRemovesOneNewline(chunk: string, text: string)
    ensures MergeChunk(chunk, text + "\n\n") == text + "\n" + chunk
  {
    var current := text + "\n\n";
    assert current[..|current| - 1] == text + "\n";
  }
}
