/**
 The field formatter (`GQLFieldFormatter.formatField`): lays out a field's
 rendered name, its alias and its arguments as GraphQL text, in the form
 `alias: name(key1: value1, key2: value2)`.
 */
module FieldFormatter {

  /** One argument of a field: its key and its value, already encoded as
      GraphQL literal text (`1`, `"Nick"`, `TECHNOLOGY`). */
  datatype Argument = Argument(key: string, value: string)

  /** `key: value` */
  function ArgumentText(a: Argument): string {
    a.key + ": " + a.value
  }

  /** The arguments' texts in order, separated by `, `. */
  function JoinArguments(args: seq<Argument>): string {
    if |args| == 0 then ""
    else if |args| == 1 then ArgumentText(args[0])
    else ArgumentText(args[0]) + ", " + JoinArguments(args[1..])
  }

  /** `(key1: value1, key2: value2)` */
  function ArgumentList(args: seq<Argument>): string {
    "(" + JoinArguments(args) + ")"
  }

  /** `formatField(name, alias:)` */
  function FormatAliased(name: string, alias: string): string {
    alias + ": " + name
  }

  /** `formatField(name, arguments:)` */
  function FormatWithArguments(name: string, args: seq<Argument>): string {
    name + ArgumentList(args)
  }

  /** `formatField(name, alias:, arguments:)` */
  function FormatAliasedWithArguments(name: string, alias: string, args: seq<Argument>): string {
    alias + ": " + name + ArgumentList(args)
  }

  /** Adding an argument at the end of a non-empty list adds `, key: value`
      at the end of the joined text and leaves the text before it as it was. */
  lemma {:induction false} JoinAppend(args: seq<Argument>, a: Argument)
    requires |args| > 0
    ensures JoinArguments(args + [a]) == JoinArguments(args) + ", " + ArgumentText(a)
  {
    if |args| == 1 {
      assert (args + [a])[1..] == [a];
    } else {
      assert (args + [a])[1..] == args[1..] + [a];
      JoinAppend(args[1..], a);
    }
  }

  /** The joined text is empty exactly when there are no arguments: every
      argument contributes at least its `: `. */
  lemma JoinEmptyIff(args: seq<Argument>)
    ensures JoinArguments(args) == "" <==> args == []
  {
  }
}
