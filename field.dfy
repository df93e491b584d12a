/**
 A GraphQL field: a raw name, the name as rendered after case conversion, an
 optional alias and an optional list of arguments. Configuration calls change
 the field in place and return it; the field renders itself from its current
 state alone.
 */
module Fields {
  import opened Wrappers
  import opened CaseStyles
  import opened FieldFormatter

  /** The four stored properties of a field, as a value. */
  datatype FieldState = FieldState(
    name: string,
    nameRepresentable: string,
    alias: Option<string>,
    arguments: Option<seq<Argument>>)

  /** The argument list is absent or holds at least one argument: it is only
      ever created holding the argument that caused its creation. */
  predicate ArgumentsWellFormed(arguments: Option<seq<Argument>>) {
    arguments.None? || |arguments.value| > 0
  }

  /** The arguments held, in order; none when the list is absent. */
  function ArgumentsOf(arguments: Option<seq<Argument>>): seq<Argument> {
    if arguments.Some? then arguments.value else []
  }

  /** `buildDescription`: hands the formatter exactly the components that are
      present, or returns the rendered name when there are none. */
  function BuildDescription(st: FieldState): (r: string)
    ensures st.alias.None? && st.arguments.None? ==> r == st.nameRepresentable
    ensures st.alias.Some? ==> st.alias.value + ": " <= r
    ensures st.arguments.Some? ==> |r| > 0 && r[|r| - 1] == ')'
  {
    match (st.alias, st.arguments)
    case (Some(alias), Some(args)) => FormatAliasedWithArguments(st.nameRepresentable, alias, args)
    case (Some(alias), None) => FormatAliased(st.nameRepresentable, alias)
    case (None, Some(args)) => FormatWithArguments(st.nameRepresentable, args)
    case (None, None) => st.nameRepresentable
  }

  /** `caseStyle(_:)`: the rendered name is converted afresh from the raw name. */
  function WithCaseStyle(st: FieldState, convert: Converter, style: CaseStyleOption): FieldState {
    st.(nameRepresentable := convert(st.name, style))
  }

  /** `alias(_:)`: the alias is overwritten. */
  function WithAlias(st: FieldState, alias: string): FieldState {
    st.(alias := Some(alias))
  }

  /** `argument(key:value:)`: the argument is appended, or becomes the first of a
      new list when there is none. */
  function WithArgument(st: FieldState, arg: Argument): FieldState {
    if st.arguments.Some? then st.(arguments := Some(st.arguments.value + [arg]))
    else st.(arguments := Some([arg]))
  }

  class Field {
    var name: string
    var nameRepresentable: string
    var alias: Option<string>
    var arguments: Option<seq<Argument>>

    /** The string conversion this field applies to its raw name. */
    const convert: Converter
    /** The case style applied last (lower case until `CaseStyle` is called). */
    ghost var style: CaseStyleOption

    ghost predicate Valid()
      reads this
    {
      ArgumentsWellFormed(arguments) && nameRepresentable == convert(name, style)
    }

    function State(): FieldState
      reads this
    {
      FieldState(name, nameRepresentable, alias, arguments)
    }

    /** `init(_ type:)`, given the type's description. */
    constructor FromType(typeDescription: string, convert: Converter)
      ensures Valid() && this.convert == convert && style == Lowercase
      ensures name == typeDescription && nameRepresentable == convert(typeDescription, Lowercase)
      ensures alias == None && arguments == None
    {
      name := typeDescription;
      nameRepresentable := convert(typeDescription, Lowercase);
      alias := None;
      arguments := None;
      this.convert := convert;
      style := Lowercase;
    }

    /** `init(_ key:)`, given the key's string value. */
    constructor FromKey(keyString: string, convert: Converter)
      ensures Valid() && this.convert == convert && style == Lowercase
      ensures name == keyString && nameRepresentable == convert(keyString, Lowercase)
      ensures alias == None && arguments == None
    {
      name := keyString;
      nameRepresentable := convert(keyString, Lowercase);
      alias := None;
      arguments := None;
      this.convert := convert;
      style := Lowercase;
    }

    /** `caseStyle(_:)` */
    method CaseStyle(style: CaseStyleOption) returns (f: Field)
      requires Valid()
      modifies this
      ensures f == this && Valid() && this.style == style
      ensures nameRepresentable == convert(name, style)
      ensures State() == WithCaseStyle(old(State()), convert, style)
    {
      nameRepresentable := convert(name, style);
      this.style := style;
      f := this;
    }

    /** `alias(_:)` */
    method Alias(alias: string) returns (f: Field)
      requires Valid()
      modifies this
      ensures f == this && Valid() && style == old(style)
      ensures this.alias == Some(alias)
      ensures State() == WithAlias(old(State()), alias)
    {
      this.alias := Some(alias);
      f := this;
    }

    /** `argument(key:value:)` */
    method Argument(key: string, value: string) returns (f: Field)
      requires Valid()
      modifies this
      ensures f == this && Valid() && style == old(style)
      ensures arguments == Some(ArgumentsOf(old(arguments)) + [FieldFormatter.Argument(key, value)])
      ensures State() == WithArgument(old(State()), FieldFormatter.Argument(key, value))
    {
      var argument := FieldFormatter.Argument(key, value);
      if arguments != None {
        arguments := Some(arguments.value + [argument]);
      } else {
        assert ArgumentsOf(arguments) + [argument] == [argument];
        arguments := Some([argument]);
      }
      f := this;
    }

    /** `description`: the text `buildDescription` gives for the current state. */
    function Description(): (r: string)
      reads this
      ensures alias.None? && arguments.None? ==> r == nameRepresentable
      ensures alias.Some? ==> alias.value + ": " <= r
    {
      BuildDescription(State())
    }

    /** `debugDescription` */
    function DebugDescription(): (r: string)
      reads this
      ensures r == Description()
    {
      BuildDescription(State())
    }
  }
}
