/**
 * The identifier conversions of the case_changer library.  Their behaviour
 * is not part of this model: a `Naming` value carries them as uninterpreted
 * functions, and every result of the model is stated for any such pair.
 */
module CaseChanger {

  datatype Naming = Naming(toCamelCase: string -> string, beginWithLowerCase: string -> string)

  /** Class name of a schema element: its camel-cased internal name. */
  function TypeName(naming: Naming, name: string): string {
    naming.toCamelCase(name)
  }

  /** Property name of a field or column: camel-cased, then with a lower-case first letter. */
  function PropertyName(naming: Naming, name: string): string {
    naming.beginWithLowerCase(naming.toCamelCase(name))
  }
}
