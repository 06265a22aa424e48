/**
 * The localized strings the modelled screens use.
 *
 * The application's generated `L10n` table is not part of this model, so each
 * localized string is an opaque constant (a `StringKey`), each localized
 * template applied to an argument is a symbolic application (`Formatted`), and
 * a string literal written in the code is `Literal`. Distinct keys are distinct
 * values, and no localized value equals a literal.
 */
module Localization {

  /** Localized strings that take no argument. */
  datatype StringKey =
    | ScreenServerConfirmationMessageLoginMatrixDotOrg
    | ScreenServerConfirmationMessageLoginElementDotIo
    | ScreenServerConfirmationMessageRegister
    | CommonRefreshing
    | ErrorUnknown

  /** Localized templates that take one string argument. */
  datatype TemplateKey =
    | ScreenServerConfirmationTitleLogin
    | ScreenServerConfirmationTitleRegister

  /** A piece of user-visible text. */
  datatype Text =
    | Localized(key: StringKey)
    | Formatted(template: TemplateKey, argument: string)
    | Literal(value: string)
  {
    /** Swift's `String.isEmpty`, for the texts whose contents are known. */
    predicate IsEmptyLiteral() {
      Literal? && value == ""
    }
  }
}
