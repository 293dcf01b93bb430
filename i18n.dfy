/**
 * Translation requests. Translation itself is external: a label is the i18n key
 * handed to `t`, together with the interpolation argument passed beside it.
 */
module I18n {
  import opened Wrappers

  /** The interpolation object given to `t` as its second argument. */
  datatype Arg =
    | TokenArg(token: string)
    | IdArg(id: Option<string>)
    | CountArg(count: int)

  /** A call `t(key)` or `t(key, arg)`. */
  datatype Message = Message(key: string, arg: Option<Arg>)

  /** `t(key)` without interpolation. */
  function Key(key: string): (m: Message)
  {
    Message(key, None)
  }

  /** `t(key, { token })`. */
  function KeyWithToken(key: string, token: string): (m: Message)
  {
    Message(key, Some(TokenArg(token)))
  }
}
