/**
 The parts of the `util` library that the engine calls but that are not part
 of this model. The width table behind `util.to_half_width` and the regular
 expression search behind `util.match` are passed in as functions; the one
 regular expression substitution the engine performs, `util.replace(s, '-$', '')`,
 is written out.
 */
module Util {

  /** `toHalfWidth` stands for `util.to_half_width(s)`; `search(target, pattern)`
      for `util.match(target, pattern)`. `util` is not part of this model: the
      intended reading of `search`, from its name and its uses, is that the
      regular expression `pattern` is found in `target`; only the precondition
      of `Code7PrefixCandidates` relies on it. */
  datatype Helpers = Helpers(toHalfWidth: string -> string, search: (string, string) -> bool)

  /** `util.replace(s, '-$', '')`: one final hyphen, if there is one, is removed. */
  function DropTrailingHyphen(s: string): (r: string)
    ensures s == r + "-" || (r == s && (s == [] || s[|s| - 1] != '-'))
  {
    if s != [] && s[|s| - 1] == '-' then s[..|s| - 1] else s
  }
}
