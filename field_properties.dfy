/**
 Properties of a field's configuration calls and of its rendering, stated on
 the field's state as a value (`Fields.FieldState`); every `Field` method is
 specified by the matching transition, so these hold of the object too.
 */
module FieldProperties {
  import opened Wrappers
  import opened CaseStyles
  import opened FieldFormatter
  import opened Fields

  /** A field's text as the GraphQL grammar lays it out: an optional `alias: `,
      the rendered name, and the argument list in parentheses, the parentheses
      left out when there are no arguments. */
  function GrammarText(st: FieldState): string {
    (if st.alias.Some? then st.alias.value + ": " else "")
    + st.nameRepresentable
    + (if |ArgumentsOf(st.arguments)| > 0 then ArgumentList(ArgumentsOf(st.arguments)) else "")
  }

  /** A sequence of `argument(key:value:)` calls, applied in order. */
  function WithArguments(st: FieldState, args: seq<Argument>): FieldState
    decreases |args|
  {
    if |args| == 0 then st else WithArguments(WithArgument(st, args[0]), args[1..])
  }

  // ---- caseStyle ----

  /** The rendered name is derived from the raw name only, so the last style
      applied wins, applying a style twice is applying it once, and alias and
      arguments are untouched. */
  lemma CaseStyleLastWins(st: FieldState, convert: Converter, s1: CaseStyleOption, s2: CaseStyleOption)
    ensures WithCaseStyle(WithCaseStyle(st, convert, s1), convert, s2) == WithCaseStyle(st, convert, s2)
    ensures WithCaseStyle(st, convert, s2).name == st.name
    ensures WithCaseStyle(st, convert, s2).alias == st.alias
    ensures WithCaseStyle(st, convert, s2).arguments == st.arguments
  {
  }

  /** The rendered name before the call plays no part in the result. */
  lemma CaseStyleIgnoresRenderedName(st: FieldState, other: string, convert: Converter, style: CaseStyleOption)
    ensures WithCaseStyle(st.(nameRepresentable := other), convert, style) == WithCaseStyle(st, convert, style)
  {
  }

  // ---- alias ----

  /** The last alias set wins; nothing but the alias changes. */
  lemma AliasLastWins(st: FieldState, a1: string, a2: string)
    ensures WithAlias(WithAlias(st, a1), a2) == WithAlias(st, a2)
    ensures WithAlias(st, a2).(alias := st.alias) == st
  {
  }

  /** Setting the alias puts `alias: ` in front of what the field renders
      without one. */
  lemma AliasRendersAsPrefix(st: FieldState, a: string)
    ensures BuildDescription(WithAlias(st, a)) == a + ": " + BuildDescription(st.(alias := None))
  {
  }

  // ---- argument ----

  /** One call appends exactly one argument at the end, keeps the earlier ones
      in order, keeps the list well formed and changes nothing else. */
  lemma ArgumentAppends(st: FieldState, arg: Argument)
    ensures WithArgument(st, arg).arguments == Some(ArgumentsOf(st.arguments) + [arg])
    ensures ArgumentsWellFormed(WithArgument(st, arg).arguments)
    ensures WithArgument(st, arg).(arguments := st.arguments) == st
  {
    if st.arguments.None? {
      assert ArgumentsOf(st.arguments) + [arg] == [arg];
    }
  }

  /** A sequence of calls keeps its arguments in call order after the ones
      already present; the list stays absent only when there were none and no
      call was made; nothing else changes. */
  lemma {:induction false} ArgumentsInCallOrder(st: FieldState, args: seq<Argument>)
    requires ArgumentsWellFormed(st.arguments)
    ensures ArgumentsWellFormed(WithArguments(st, args).arguments)
    ensures ArgumentsOf(WithArguments(st, args).arguments) == ArgumentsOf(st.arguments) + args
    ensures WithArguments(st, args).arguments.None? <==> st.arguments.None? && args == []
    ensures WithArguments(st, args).(arguments := st.arguments) == st
    decreases |args|
  {
    if |args| > 0 {
      var next := WithArgument(st, args[0]);
      ArgumentAppends(st, args[0]);
      ArgumentsInCallOrder(next, args[1..]);
      assert ArgumentsOf(next.arguments) + args[1..] == ArgumentsOf(st.arguments) + args;
    }
  }

  /** `argument` and `alias` calls touch different properties, so their order
      does not matter; nor does that of `caseStyle` relative to either. */
  lemma ConfigurationCallsCommute(st: FieldState, a: string, arg: Argument, convert: Converter, style: CaseStyleOption)
    ensures WithAlias(WithArgument(st, arg), a) == WithArgument(WithAlias(st, a), arg)
    ensures WithCaseStyle(WithArgument(st, arg), convert, style) == WithArgument(WithCaseStyle(st, convert, style), arg)
    ensures WithCaseStyle(WithAlias(st, a), convert, style) == WithAlias(WithCaseStyle(st, convert, style), a)
  {
  }

  // ---- rendering ----

  /** In every state whose argument list is absent or non-empty, the four-way
      dispatch of `buildDescription` renders the grammar's
      `[alias: ]name[(arguments)]`. */
  lemma DescriptionFollowsGrammar(st: FieldState)
    requires ArgumentsWellFormed(st.arguments)
    ensures BuildDescription(st) == GrammarText(st)
  {
  }

  /** A field object renders the grammar form in every state its methods can
      reach. */
  lemma ValidFieldRendersGrammar(f: Field)
    requires f.Valid()
    ensures f.Description() == GrammarText(f.State())
  {
    DescriptionFollowsGrammar(f.State());
  }

  /** Without the well-formedness of the argument list the dispatch and the
      grammar differ: an empty list would be rendered as `()`. */
  lemma EmptyArgumentListBreaksGrammar()
    ensures BuildDescription(FieldState("post", "post", None, Some([]))) == "post()"
    ensures GrammarText(FieldState("post", "post", None, Some([]))) == "post"
  {
  }

  /** With arguments present, the text is what the field renders without
      them followed by the parenthesised argument list. */
  lemma ArgumentListRendersLast(st: FieldState)
    requires st.arguments.Some?
    ensures BuildDescription(st) == BuildDescription(st.(arguments := None)) + ArgumentList(st.arguments.value)
  {
  }

  /** The first `argument(key:value:)` call adds `(key: value)` at the end of
      the rendered text. */
  lemma FirstArgumentOpensList(st: FieldState, arg: Argument)
    requires st.arguments.None?
    ensures BuildDescription(WithArgument(st, arg)) == BuildDescription(st) + "(" + ArgumentText(arg) + ")"
  {
  }

  /** A later `argument(key:value:)` call inserts `, key: value` before the
      closing parenthesis and leaves the rest of the text as it was. */
  lemma NextArgumentExtendsList(st: FieldState, arg: Argument)
    requires st.arguments.Some? && |st.arguments.value| > 0
    ensures var before := BuildDescription(st);
            |before| > 0 &&
            BuildDescription(WithArgument(st, arg)) == before[..|before| - 1] + ", " + ArgumentText(arg) + ")"
  {
    var args := st.arguments.value;
    var head := BuildDescription(st.(arguments := None));
    var next := WithArgument(st, arg);
    assert next.(arguments := None) == st.(arguments := None);
    ArgumentListRendersLast(st);
    ArgumentListRendersLast(next);
    JoinAppend(args, arg);
    var before := BuildDescription(st);
    assert before == (head + "(" + JoinArguments(args)) + ")";
    assert before[..|before| - 1] == head + "(" + JoinArguments(args);
  }

  /** A field with arguments set by a sequence of calls on a field that had
      none renders as before followed by `(key1: value1, ...)` in call order. */
  lemma ArgumentsRenderInCallOrder(st: FieldState, args: seq<Argument>)
    requires st.arguments.None? && |args| > 0
    ensures BuildDescription(WithArguments(st, args)) == BuildDescription(st) + ArgumentList(args)
  {
    ArgumentsInCallOrder(st, args);
    var after := WithArguments(st, args);
    assert ArgumentsOf(after.arguments) == args;
    assert after == st.(arguments := Some(args));
    ArgumentListRendersLast(after);
  }
}
