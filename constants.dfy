/**
 * Values imported from the `miniwob.constants` module. That module is not part of
 * this model, so each value is left unspecified beyond its type: every proof holds
 * for whatever the concrete value is.
 */
module Constants {

  /** A strictly positive integer. */
  type Positive = n: int | n > 0 witness 1

  /** MAX_REF: number of element references an action may select from. */
  const MaxRef: Positive

  /** MAX_FIELDS: number of task fields an action may select from. */
  const MaxFields: Positive

  /** TYPING_MAX_LENGTH: default bound on the length of typed text. */
  const TypingMaxLength: Positive

  /** DEFAULT_ALLOWED_KEYS: default ordered list of keys for PRESS_KEY. */
  const DefaultAllowedKeys: seq<string>

  /** ASCII_CHARSET: default character set for typed text. */
  const AsciiCharset: set<char>
}
