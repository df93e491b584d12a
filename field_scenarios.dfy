/**
 Fields built and configured through chained calls, as the library's
 documentation and tests use them, with the text each renders.
 */
module FieldScenarios {
  import opened Wrappers
  import opened CaseStyles
  import opened FieldFormatter
  import opened Fields

  /** A `post` field aliased `newPost` with argument `id: 1` renders
      `newPost: post(id: 1)`. */
  method AliasedPostWithId(convert: Converter) returns (text: string)
    requires convert("post", Lowercase) == "post"
    ensures text == "newPost: post(id: 1)"
  {
    var field := new Field.FromKey("post", convert);
    var f := field.Alias("newPost");
    f := f.Argument("id", "1");
    text := f.Description();
  }

  /** A `name` field with argument `value: "Nick"` renders
      `name(value: "Nick")`. */
  method NameWithStringArgument(convert: Converter) returns (text: string)
    requires convert("name", Lowercase) == "name"
    ensures text == "name(value: \"Nick\")"
  {
    var field := new Field.FromKey("name", convert);
    var f := field.Argument("value", "\"Nick\"");
    text := f.Description();
  }

  /** Arguments render in the order of the calls that added them. */
  method TwoArgumentsInCallOrder(convert: Converter) returns (text: string)
    requires convert("Post", Lowercase) == "post"
    ensures text == "post(id: 1, category: TECHNOLOGY)"
  {
    var field := new Field.FromType("Post", convert);
    var f := field.Argument("id", "1");
    assert f.arguments == Some([Argument("id", "1")]);
    f := f.Argument("category", "TECHNOLOGY");
    var args := [Argument("id", "1"), Argument("category", "TECHNOLOGY")];
    assert [Argument("id", "1")] + [Argument("category", "TECHNOLOGY")] == args;
    assert f.arguments == Some(args);
    TwoArgumentsText(args);
    text := f.Description();
  }

  lemma TwoArgumentsText(args: seq<Argument>)
    requires args == [Argument("id", "1"), Argument("category", "TECHNOLOGY")]
    ensures FormatWithArguments("post", args) == "post(id: 1, category: TECHNOLOGY)"
  {
    assert args[1..] == [Argument("category", "TECHNOLOGY")];
    assert JoinArguments(args) == "id: 1" + ", " + "category: TECHNOLOGY";
  }

  /** Of repeated `caseStyle` and `alias` calls the last of each decides the
      text, and the alias is written before the converted raw name. */
  method LastCallsWin(rawName: string, convert: Converter, s1: CaseStyleOption, s2: CaseStyleOption, a1: string, a2: string)
    returns (text: string)
    ensures text == a2 + ": " + convert(rawName, s2)
  {
    var field := new Field.FromKey(rawName, convert);
    var f := field.CaseStyle(s1);
    f := f.Alias(a1);
    f := f.CaseStyle(s2);
    f := f.Alias(a2);
    text := f.Description();
  }
}
