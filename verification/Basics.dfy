/** Notions every module shares. */
module Basics {
  datatype Option<+T> = None | Some(value: T)

  /** A model or provider name; `Unnamed` is the empty string. */
  datatype Name = Unnamed | Named(text: string)

  datatype ModelKey = ModelKey(provider: Name, model: Name)

  function Max(x: int, y: int): int { if x < y then y else x }

  function Min(x: int, y: int): int { if y < x then y else x }
}
