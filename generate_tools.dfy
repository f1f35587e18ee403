/**
  The tool-list prompt builder (mABC/utils/generate_tools.py): the signatures and
  docstrings of the tool functions found in a source file, re-rendered in a fixed
  template, and the comma-separated list of their names.

  The regular expression of `extract_functions` is not modelled: its matches are the
  input, each with the five groups in file order.
*/
module GenerateTools {
  import opened PyStr

  /** The groups of one regex match: name, raw parameters, raw return type, and the
      body of a `'''` docstring or of a `"""` docstring (the other one empty). */
  datatype RawMatch = RawMatch(name: string, parameters: string, returnType: string, singleQuoted: string, doubleQuoted: string)

  /** A tuple of `extract_functions`. */
  datatype FunctionInfo = FunctionInfo(name: string, parameters: string, returnType: string, doc: string)

  /** One tuple: the return type and the docstring (`'''` group, else `"""` group) stripped. */
  function Extracted(m: RawMatch): (f: FunctionInfo)
    ensures f.name == m.name && f.parameters == m.parameters
    ensures f.returnType == Strip(m.returnType)
    ensures f.doc == Strip(if |m.singleQuoted| > 0 then m.singleQuoted else m.doubleQuoted)
  {
    var doc := if |m.singleQuoted| > 0 then m.singleQuoted else m.doubleQuoted;
    FunctionInfo(m.name, m.parameters, Strip(m.returnType), Strip(doc))
  }

  /** The tuples of `extract_functions`, one per match, in file order. */
  function ExtractedAll(matches: seq<RawMatch>): (r: seq<FunctionInfo>)
    ensures |r| == |matches|
  {
    if matches == [] then [] else ExtractedAll(matches[..|matches| - 1]) + [Extracted(matches[|matches| - 1])]
  }

  /** `extract_functions` over the matches of the tokenizer. */
  method ExtractFunctions(matches: seq<RawMatch>) returns (functions: seq<FunctionInfo>)
    ensures functions == ExtractedAll(matches)
  {
    functions := [];
    for i := 0 to |matches|
      invariant functions == ExtractedAll(matches[..i])
    {
      functions := functions + [Extracted(matches[i])];
      assert matches[..i + 1][..i] == matches[..i];
    }
    assert matches[..|matches|] == matches;
  }

  /** One parameter `name: type` with both parts stripped; a missing type is `Any`. */
  function FormatParameter(param: string): (r: string)
  {
    var parts := Partition(param, ':');
    var t := if |Strip(parts.1)| == 0 then "Any" else Strip(parts.1);
    Strip(parts.0) + ": " + t
  }

  /** Each piece formatted, in order. */
  function FormatEach(pieces: seq<string>): (r: seq<string>)
    ensures |r| == |pieces|
  {
    if pieces == [] then [] else FormatEach(pieces[..|pieces| - 1]) + [FormatParameter(pieces[|pieces| - 1])]
  }

  /** The formatted parameters: none for an empty parameter string, else one per
      comma-separated piece. */
  function FormattedParameters(parameters: string): (r: seq<string>)
    ensures |parameters| == 0 ==> r == []
    ensures |parameters| > 0 ==> |r| == |SplitChar(parameters, ',')|
  {
    if |parameters| == 0 then [] else FormatEach(SplitChar(parameters, ','))
  }

  /** The fixed template of `get_function_info`. */
  function Rendered(name: string, parameters: string, returnType: string, doc: string): string {
    "\n    def " + name + "(" + parameters + ") -> " + returnType + ":\n    \"\"\"\n    " + doc + "\n    \"\"\"\n    "
  }

  /** The pair `get_function_info` returns. */
  function FunctionText(f: FunctionInfo): (r: (string, string))
    ensures r.1 == f.name
  {
    var returnType := if |f.returnType| == 0 then "None" else f.returnType;
    (Rendered(f.name, Join(", ", FormattedParameters(f.parameters)), returnType, f.doc), f.name)
  }

  /** `get_function_info`: the parameters formatted, then the template filled in. */
  method GetFunctionInfo(f: FunctionInfo) returns (text: string, name: string)
    ensures (text, name) == FunctionText(f)
  {
    var formatted := FormatParameters(f.parameters);
    var returnType := if |f.returnType| == 0 then "None" else f.returnType;
    text := Rendered(f.name, Join(", ", formatted), returnType, f.doc);
    name := f.name;
  }

  /** The parameter pieces of `get_function_info`: none for an empty string. */
  method FormatParameters(parameters: string) returns (formatted: seq<string>)
    ensures formatted == FormattedParameters(parameters)
  {
    if |parameters| > 0 {
      formatted := FormatPieces(SplitChar(parameters, ','));
    } else {
      formatted := [];
    }
  }

  /** The loop of `get_function_info` over the comma-separated parameter pieces. */
  method FormatPieces(pieces: seq<string>) returns (formatted: seq<string>)
    ensures formatted == FormatEach(pieces)
  {
    formatted := [];
    for i := 0 to |pieces|
      invariant formatted == FormatEach(pieces[..i])
    {
      var formattedParameter := FormatOne(pieces[i]);
      formatted := formatted + [formattedParameter];
      FormatEachStep(pieces, i);
    }
    assert pieces[..|pieces|] == pieces;
  }

  lemma {:induction false} FormatEachStep(pieces: seq<string>, i: nat)
    requires i < |pieces|
    ensures FormatEach(pieces[..i + 1]) == FormatEach(pieces[..i]) + [FormatParameter(pieces[i])]
  {
    assert pieces[..i + 1][..i] == pieces[..i];
  }

  /** The body of the parameter loop: partition at the first colon and strip. */
  method FormatOne(param: string) returns (formatted: string)
    ensures formatted == FormatParameter(param)
  {
    var parts := Partition(param, ':');
    var paramName := Strip(parts.0);
    var paramType := Strip(parts.1);
    if |paramType| == 0 {
      paramType := "Any";
    }
    formatted := paramName + ": " + paramType;
  }

  /** The k-th formatted parameter is the k-th piece formatted. */
  lemma {:induction false} FormatEachAt(pieces: seq<string>, k: nat)
    requires k < |pieces|
    ensures FormatEach(pieces)[k] == FormatParameter(pieces[k])
  {
    if k < |pieces| - 1 {
      FormatEachAt(pieces[..|pieces| - 1], k);
    }
  }

  /** The (text, name) pairs in extraction order. */
  function ToolPairs(functions: seq<FunctionInfo>): (r: seq<(string, string)>)
    ensures |r| == |functions|
  {
    if functions == [] then [] else ToolPairs(functions[..|functions| - 1]) + [FunctionText(functions[|functions| - 1])]
  }

  function Firsts(pairs: seq<(string, string)>): (r: seq<string>)
    ensures |r| == |pairs|
  {
    if pairs == [] then [] else Firsts(pairs[..|pairs| - 1]) + [pairs[|pairs| - 1].0]
  }

  function Seconds(pairs: seq<(string, string)>): (r: seq<string>)
    ensures |r| == |pairs|
  {
    if pairs == [] then [] else Seconds(pairs[..|pairs| - 1]) + [pairs[|pairs| - 1].1]
  }

  /** The function names of the matches, in file order. */
  function Names(matches: seq<RawMatch>): (r: seq<string>)
    ensures |r| == |matches|
  {
    if matches == [] then [] else Names(matches[..|matches| - 1]) + [matches[|matches| - 1].name]
  }

  /** The rendered text of each matched function, in file order. */
  function Texts(matches: seq<RawMatch>): (r: seq<string>)
    ensures |r| == |matches|
  {
    if matches == [] then [] else Texts(matches[..|matches| - 1]) + [FunctionText(Extracted(matches[|matches| - 1])).0]
  }

  /** `get_agent_tool_list_prompt` on the matches the tokenizer found in the file
      content: the texts concatenated and the names joined with ", ". */
  function AgentToolListPrompt(matches: seq<RawMatch>): (r: (string, string))
    ensures r.0 == Concat(Texts(matches))
    ensures r.1 == Join(", ", Names(matches))
  {
    var pairs := ToolPairs(ExtractedAll(matches));
    TextsInOrder(matches);
    SecondsAreNames(matches);
    (Concat(Firsts(pairs)), Join(", ", Seconds(pairs)))
  }

  /** The texts in the pairs are the texts of the matched functions, in file order. */
  lemma {:induction false} TextsInOrder(matches: seq<RawMatch>)
    ensures Firsts(ToolPairs(ExtractedAll(matches))) == Texts(matches)
  {
    if matches != [] {
      TextsInOrder(matches[..|matches| - 1]);
    }
  }

  // ---------------------------------------------------------------------
  // Properties

  /** A name that a strip leaves alone and that holds neither a comma nor a colon, as
      every match of `\w+` does. */
  predicate Plain(s: string) {
    IndexOf(s, ',') == |s| && IndexOf(s, ':') == |s| && (s != [] ==> !IsSpace(s[0]) && !IsSpace(s[|s| - 1]))
  }

  /** A parameter already written as `name: type` is rendered unchanged. */
  lemma {:induction false} ParameterRoundTrip(name: string, paramType: string)
    requires Plain(name) && Plain(paramType) && |paramType| > 0
    ensures FormatParameter(name + ": " + paramType) == name + ": " + paramType
  {
    var p := name + ": " + paramType;
    assert Partition(p, ':') == (name, " " + paramType) by {
      assert ": " == [':'] + " ";
      assert p == name + [':'] + (" " + paramType);
      PartitionAt(name, ':', " " + paramType);
    }
    assert Strip(name) == name by {
      StripTrimmed(name);
    }
    assert Strip(" " + paramType) == paramType by {
      StripPadded(paramType);
    }
  }

  /** A bare parameter name gets the type `Any`. */
  lemma {:induction false} BareParameter(name: string)
    requires Plain(name)
    ensures FormatParameter(name) == name + ": " + "Any"
  {
    assert Partition(name, ':') == (name, "");
    StripTrimmed(name);
    var none: string := [];
    assert |Strip(none)| == 0;
  }

  /** `str.partition` splits at the first separator. */
  lemma {:induction false} PartitionAt(a: string, c: char, b: string)
    requires IndexOf(a, c) == |a|
    ensures Partition(a + [c] + b, c) == (a, b)
  {
    var s := a + [c] + b;
    assert s == a + ([c] + b);
    IndexOfShift(a, [c] + b, c);
    assert IndexOf([c] + b, c) == 0;
    assert s[..|a|] == a && s[|a| + 1..] == b;
  }

  /** Stripping one leading space off a stripped text. */
  lemma {:induction false} StripPadded(t: string)
    requires t != [] ==> !IsSpace(t[0]) && !IsSpace(t[|t| - 1])
    ensures Strip(" " + t) == t
  {
    assert (" " + t)[1..] == t;
    assert StripLeft(" " + t) == StripLeft(t);
    StripTrimmed(t);
  }

  /** The pieces of a comma split, each stripped. */
  function Unjoined(s: string): (r: seq<string>)
    ensures |r| == |SplitChar(s, ',')|
  {
    var pieces := SplitChar(s, ',');
    seq(|pieces|, k requires 0 <= k < |pieces| => Strip(pieces[k]))
  }

  /** Splitting after a comma-free prefix adds the prefix to the first piece. */
  lemma {:induction false} SplitAfterPlain(a: string, s: string)
    requires IndexOf(a, ',') == |a|
    ensures SplitChar(a + s, ',') == [a + SplitChar(s, ',')[0]] + SplitChar(s, ',')[1..]
  {
    var i := IndexOf(s, ',');
    assert IndexOf(a + s, ',') == |a| + i by {
      IndexOfShift(a, s, ',');
    }
    if i < |s| {
      assert (a + s)[..|a| + i] == a + s[..i];
      assert (a + s)[|a| + i + 1..] == s[i + 1..];
    }
  }

  /** Splitting names joined with ", " at the first comma: the first name, then the
      split of the rest behind its leading space. */
  lemma {:induction false} SplitJoinedHead(names: seq<string>)
    requires |names| > 1 && Plain(names[0])
    ensures SplitChar(Join(", ", names), ',') == [names[0]] + SplitChar(" " + Join(", ", names[1..]), ',')
  {
    var rest := Join(", ", names[1..]);
    var s := "," + (" " + rest);
    assert Join(", ", names) == names[0] + s;
    assert SplitChar(s, ',') == [""] + SplitChar(" " + rest, ',') by {
      assert IndexOf(s, ',') == 0;
      assert s[..0] == "" && s[1..] == " " + rest;
    }
    SplitAfterPlain(names[0], s);
    assert SplitChar(s, ',')[0] == "" && SplitChar(s, ',')[1..] == SplitChar(" " + rest, ',');
    assert names[0] + "" == names[0];
  }

  /** A split of plain names joined with ", ": the first name, then each other name
      behind its space. */
  lemma {:induction false} SplitJoined(names: seq<string>)
    requires names != [] && forall k :: 0 <= k < |names| ==> Plain(names[k])
    ensures var pieces := SplitChar(Join(", ", names), ',');
      && |pieces| == |names| && pieces[0] == names[0]
      && forall k :: 1 <= k < |names| ==> pieces[k] == " " + names[k]
  {
    if |names| > 1 {
      var rest := Join(", ", names[1..]);
      var restPieces := SplitChar(rest, ',');
      SplitJoined(names[1..]);
      SplitJoinedHead(names);
      assert SplitChar(" " + rest, ',') == [" " + restPieces[0]] + restPieces[1..] by {
        SplitAfterPlain(" ", rest);
      }
      var pieces := [names[0]] + ([" " + restPieces[0]] + restPieces[1..]);
      assert SplitChar(Join(", ", names), ',') == pieces;
      forall k | 1 <= k < |names|
        ensures pieces[k] == " " + names[k]
      {
        assert names[1..][k - 1] == names[k];
        if k > 1 {
          assert pieces[k] == restPieces[k - 1];
        }
      }
    }
  }

  /** The k-th piece of the joined names, stripped, is the k-th name. */
  lemma {:induction false} UnjoinedAt(names: seq<string>, k: nat)
    requires names != [] && forall k :: 0 <= k < |names| ==> Plain(names[k])
    requires k < |names|
    ensures k < |Unjoined(Join(", ", names))| && Unjoined(Join(", ", names))[k] == names[k]
  {
    var pieces := SplitChar(Join(", ", names), ',');
    SplitJoined(names);
    assert Unjoined(Join(", ", names))[k] == Strip(pieces[k]);
    assert Strip(pieces[k]) == names[k] by {
      if k == 0 {
        StripTrimmed(names[0]);
      } else {
        StripPadded(names[k]);
      }
    }
  }

  /** The joined names split back into the names: the name list can be recovered from
      the prompt text when every name is plain. */
  lemma {:induction false} NamesRoundTrip(names: seq<string>)
    requires names != [] && forall k :: 0 <= k < |names| ==> Plain(names[k])
    ensures Unjoined(Join(", ", names)) == names
  {
    SplitJoined(names);
    forall k | 0 <= k < |names|
      ensures Unjoined(Join(", ", names))[k] == names[k]
    {
      UnjoinedAt(names, k);
    }
  }



  /** The names in the pairs are the matched function names, in file order. */
  lemma {:induction false} SecondsAreNames(matches: seq<RawMatch>)
    ensures Seconds(ToolPairs(ExtractedAll(matches))) == Names(matches)
  {
    if matches != [] {
      SecondsAreNames(matches[..|matches| - 1]);
    }
  }

  /** The k-th name is the name of the k-th match. */
  lemma {:induction false} NamesAt(matches: seq<RawMatch>)
    ensures forall k :: 0 <= k < |matches| ==> Names(matches)[k] == matches[k].name
  {
    if matches != [] {
      NamesAt(matches[..|matches| - 1]);
    }
  }

  /** The name list of the prompt gives back the matched function names, in file order,
      when there is at least one match and every name is plain (as `\w+` guarantees). */
  lemma {:induction false} PromptNames(matches: seq<RawMatch>)
    requires matches != [] && forall k :: 0 <= k < |matches| ==> Plain(matches[k].name)
    ensures Unjoined(AgentToolListPrompt(matches).1) == Names(matches)
  {
    NamesAt(matches);
    NamesRoundTrip(Names(matches));
  }
}
