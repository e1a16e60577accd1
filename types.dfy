/** Values shared by every game: the optional-argument wrapper and the
    platform's numeric identifiers. */
module Types {

  /** A command argument that may be absent (Python's `None` default). */
  datatype Option<+T> = None | Some(value: T)

  /** Chat-platform user identifier (`ctx.author.id`). */
  type UserId = int

  /** Chat-platform channel identifier (`ctx.channel.id`). */
  type ChannelId = int

  /** Python truthiness of an optional string argument: `None` and `""` are
      both falsy, so `if not pilihan` / `if tebakan` treat them alike. */
  predicate Given(arg: Option<string>)
  {
    arg.Some? && arg.value != ""
  }
}
