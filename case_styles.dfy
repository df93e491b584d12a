/**
 Case styles in which a field's name can be rendered, and the shape of the
 string conversion that applies them.
 */
module CaseStyles {

  /** The style options a caller may request. `Lowercase` is the one a field
      is built with. */
  datatype CaseStyleOption =
    | Lowercase
    | CamelCase
    | PascalCase
    | SnakeCase
    | KebabCase
    | ShoutingSnakeCase

  /** `String.convert(with:)`. Its definition is not part of this model, so a
      field is given the converter it uses when it is built, and nothing is
      assumed about it beyond being a function of the string and the style. */
  type Converter = (string, CaseStyleOption) -> string
}
